/** How each event changes ONE team record: the truncation limits of the
    four phase submissions, the phase-B completeness point, the Blue-Move
    keyword scorer, audience points, the facilitator's score adjustment,
    the random card fill and the rename. The session applies these to the
    team an event resolves to (see module Sessions). */
module Rules {
  import opened Text
  import opened Records

  const NameMax: nat := 24
  const CustomerMax: nat := 80
  const PainMax: nat := 120
  const WhoMax: nat := 60
  const ProblemMax: nat := 80
  const MeansMax: nat := 80
  const PivotMax: nat := 140
  const BlueMoveMax: nat := 60

  function Max(a: int, b: int): int { if a >= b then a else b }

  // -------------------------------------------------------------- Blue Move

  /** The three outcomes of the Blue-Move classifier. */
  datatype MoveKind =
    | Reduce    // mentions "eliminate" or "reduce": less competition
    | Raise     // otherwise mentions "raise" or "create": more differentiation
    | Plain     // mentions none of the four words

  /** Reference classification: the first rule whose keyword stands in the
      lower-cased move decides. */
  ghost function KindOf(move: string): MoveKind {
    var m := Lower(move);
    if Occurs("eliminate", m) || Occurs("reduce", m) then Reduce
    else if Occurs("raise", m) || Occurs("create", m) then Raise
    else Plain
  }

  /** `applyBlueMove`: every move earns one `value` point; a reducing move
      also lowers `competition` by one, but not below zero; a raising move
      adds one `diff` point instead. Nothing else of the team changes. */
  function ApplyBlueMove(t: Team, move: string): (r: Team)
    ensures r == t.(value := t.value + 1, competition := r.competition, diff := r.diff)
    ensures KindOf(move) == Reduce ==> r.competition == Max(0, t.competition - 1) && r.diff == t.diff
    ensures KindOf(move) == Raise ==> r.competition == t.competition && r.diff == t.diff + 1
    ensures KindOf(move) == Plain ==> r.competition == t.competition && r.diff == t.diff
    ensures t.competition >= 0 ==> r.competition >= 0
  {
    var m := Lower(move);
    ContainsIsOccurs(m, "eliminate");
    ContainsIsOccurs(m, "reduce");
    ContainsIsOccurs(m, "raise");
    ContainsIsOccurs(m, "create");
    if Contains(m, "eliminate") || Contains(m, "reduce") then
      t.(competition := Max(0, t.competition - 1), value := t.value + 1)
    else if Contains(m, "raise") || Contains(m, "create") then
      t.(diff := t.diff + 1, value := t.value + 1)
    else
      t.(value := t.value + 1)
  }

  /** "Eliminate the wait" is a reducing move (the match ignores case). */
  lemma ReducingExample()
    ensures KindOf("Eliminate the wait") == Reduce
  {
    assert OccursAt("eliminate", Lower("Eliminate the wait"), 0);
  }

  /** A move mentioning both "eliminate" and "create" takes the first rule only. */
  lemma FirstRuleWinsExample()
    ensures Occurs("create", Lower("eliminate queues, create trust"))
    ensures KindOf("eliminate queues, create trust") == Reduce
  {
    var m := Lower("eliminate queues, create trust");
    assert OccursAt("eliminate", m, 0);
    assert OccursAt("create", m, 18);
  }

  /** "Create new demand" is a raising move: it mentions neither reducing keyword. */
  lemma RaisingExample()
    ensures KindOf("Create new demand") == Raise
  {
    var b := Lower("Create new demand");
    AbsentCharNotOccurs("eliminate", b, 1);   // no 'l'
    AbsentCharNotOccurs("reduce", b, 3);      // no 'u'
    assert OccursAt("create", b, 0);
  }

  /** The empty move mentions nothing and earns the plain point only. */
  lemma EmptyMoveExample()
    ensures KindOf("") == Plain
  {
    AbsentCharNotOccurs("eliminate", "", 0);
    AbsentCharNotOccurs("reduce", "", 0);
    AbsentCharNotOccurs("raise", "", 0);
    AbsentCharNotOccurs("create", "", 0);
  }

  // ------------------------------------------------------ phase submissions

  /** Phase A: customer and pain, cut to 80 and 120 characters, stamped. */
  function SubmitA(t: Team, customer: string, pain: string, now: int): (r: Team)
    ensures Clipped(r.customer, customer, CustomerMax) && Clipped(r.pain, pain, PainMax)
    ensures r == t.(customer := r.customer, pain := r.pain, lastUpdateAt := Some(now))
  {
    t.(customer := Truncate(customer, CustomerMax), pain := Truncate(pain, PainMax),
       lastUpdateAt := Some(now))
  }

  /** Phase B: the we-help triple, cut to 60/80/80 characters; one `value`
      point exactly when none of the three answers is empty (which the cut
      never changes); `competition` and `diff` are left alone. */
  function SubmitB(t: Team, who: string, problem: string, means: string, now: int): (r: Team)
    ensures Clipped(r.wehelp.who, who, WhoMax)
    ensures Clipped(r.wehelp.problem, problem, ProblemMax)
    ensures Clipped(r.wehelp.means, means, MeansMax)
    ensures r.value == t.value + (if who != "" && problem != "" && means != "" then 1 else 0)
    ensures r == t.(wehelp := r.wehelp, value := r.value, lastUpdateAt := Some(now))
  {
    var w := WeHelp(Truncate(who, WhoMax), Truncate(problem, ProblemMax), Truncate(means, MeansMax));
    var complete := w.who != "" && w.problem != "" && w.means != "";
    t.(wehelp := w, value := if complete then t.value + 1 else t.value, lastUpdateAt := Some(now))
  }

  /** Phase C: the pivot, cut to 140 characters, stamped. */
  function SubmitC(t: Team, pivot: string, now: int): (r: Team)
    ensures Clipped(r.pivot, pivot, PivotMax)
    ensures r == t.(pivot := r.pivot, lastUpdateAt := Some(now))
  {
    t.(pivot := Truncate(pivot, PivotMax), lastUpdateAt := Some(now))
  }

  /** Phase D: the move, cut to 60 characters, is stored and then scored;
      it is the CUT move that is scored. */
  function SubmitD(t: Team, move: string, now: int): (r: Team)
    ensures Clipped(r.blueMove, move, BlueMoveMax)
    ensures r == ApplyBlueMove(t, r.blueMove).(blueMove := r.blueMove, lastUpdateAt := Some(now))
  {
    var cut := Truncate(move, BlueMoveMax);
    ApplyBlueMove(t.(blueMove := cut), cut).(lastUpdateAt := Some(now))
  }

  /** A keyword that lies wholly past the 60th character is never scored:
      when the first 60 characters mention no keyword, phase D earns the
      plain point only, whatever the rest of the move says. */
  lemma SubmitDIgnoresTail(t: Team, move: string, now: int)
    requires |move| > BlueMoveMax && KindOf(move[..BlueMoveMax]) == Plain
    ensures SubmitD(t, move, now).competition == t.competition
    ensures SubmitD(t, move, now).diff == t.diff
    ensures SubmitD(t, move, now).value == t.value + 1
  {
  }

  /** Sixty x's followed by "eliminate": the whole move is a reducing one,
      but the stored and scored move is not. */
  lemma SubmitDTailExample(t: Team, now: int)
    ensures var move := seq(BlueMoveMax, _ => 'x') + "eliminate";
      KindOf(move) == Reduce && SubmitD(t, move, now).competition == t.competition
  {
    var xs := seq(BlueMoveMax, _ => 'x');
    var move := xs + "eliminate";
    assert Lower(move)[BlueMoveMax..BlueMoveMax + 9] == "eliminate";
    assert OccursAt("eliminate", Lower(move), BlueMoveMax);
    assert move[..BlueMoveMax] == xs;
    var m := Lower(xs);
    AbsentCharNotOccurs("eliminate", m, 0);
    AbsentCharNotOccurs("reduce", m, 0);
    AbsentCharNotOccurs("raise", m, 0);
    AbsentCharNotOccurs("create", m, 0);
    SubmitDIgnoresTail(t, move, now);
  }

  /** Resubmitting phase B or D scores again: each accepted submission is
      worth its points anew. */
  lemma ResubmissionScoresAgain(t: Team, who: string, problem: string, means: string, move: string, now: int)
    ensures who != "" && problem != "" && means != "" ==>
      SubmitB(SubmitB(t, who, problem, means, now), who, problem, means, now).value == t.value + 2
    ensures SubmitD(SubmitD(t, move, now), move, now).value == t.value + 2
  {
  }

  // ------------------------------------------------------------ audience vote

  /** 1 when the vote slot names team `id`, else 0. */
  function Hit(slot: Option<int>, id: int): int {
    if slot == Some(id) then 1 else 0
  }

  /** A vote's points for team `t`: one `value` point if it is the vote's
      value team, one `diff` point if it is the diff team, one
      `competition` point if it is the red-ocean team; nothing is taken. */
  function Credit(t: Team, v: Votes): (r: Team)
    ensures r == t.(value := r.value, diff := r.diff, competition := r.competition)
    ensures r.value == t.value + Hit(v.valueTeam, t.id)
    ensures r.diff == t.diff + Hit(v.diffTeam, t.id)
    ensures r.competition == t.competition + Hit(v.redOceanTeam, t.id)
  {
    t.(value := t.value + Hit(v.valueTeam, t.id),
       diff := t.diff + Hit(v.diffTeam, t.id),
       competition := t.competition + Hit(v.redOceanTeam, t.id))
  }

  /** Casting the same vote twice gives the named teams the points twice. */
  lemma RepeatedVoteAddsAgain(t: Team, v: Votes)
    ensures Credit(Credit(t, v), v).value == t.value + 2 * Hit(v.valueTeam, t.id)
    ensures Credit(Credit(t, v), v).diff == t.diff + 2 * Hit(v.diffTeam, t.id)
    ensures Credit(Credit(t, v), v).competition == t.competition + 2 * Hit(v.redOceanTeam, t.id)
  {
  }

  // ------------------------------------------------------- facilitator tools

  /** `adjustScore`: `value` and `diff` move by exactly the given deltas;
      `competition` moves by its delta but is clamped at zero. */
  function Adjust(t: Team, deltaValue: int, deltaComp: int, deltaDiff: int): (r: Team)
    ensures r == t.(value := t.value + deltaValue, diff := t.diff + deltaDiff, competition := r.competition)
    ensures r.competition >= 0
    ensures t.competition + deltaComp >= 0 ==> r.competition == t.competition + deltaComp
    ensures t.competition + deltaComp < 0 ==> r.competition == 0
  {
    t.(value := t.value + deltaValue,
       competition := Max(0, t.competition + deltaComp),
       diff := t.diff + deltaDiff)
  }

  /** The customer draw for one active team: each of `customer` and `pain`
      that is empty gets the drawn card; one already filled is kept. */
  function Fill(t: Team, customerCard: string, painCard: string): (r: Team)
    ensures r == t.(customer := r.customer, pain := r.pain)
    ensures t.customer != "" ==> r.customer == t.customer
    ensures t.customer == "" ==> r.customer == customerCard
    ensures t.pain != "" ==> r.pain == t.pain
    ensures t.pain == "" ==> r.pain == painCard
  {
    t.(customer := if t.customer == "" then customerCard else t.customer,
       pain := if t.pain == "" then painCard else t.pain)
  }

  /** With non-empty cards a draw leaves both fields filled, so drawing
      again changes nothing. */
  lemma FillSettles(t: Team, c1: string, p1: string, c2: string, p2: string)
    requires c1 != "" && p1 != ""
    ensures Fill(t, c1, p1).customer != "" && Fill(t, c1, p1).pain != ""
    ensures Fill(Fill(t, c1, p1), c2, p2) == Fill(t, c1, p1)
  {
  }

  /** `joinTeam`'s rename: a name that is nothing but white space is
      ignored; otherwise the trimmed name, cut to 24 characters, replaces
      the old one. Only the name can change. */
  function Rename(t: Team, name: string): (r: Team)
    ensures r == t.(name := r.name)
    ensures AllSpace(name) ==> r.name == t.name
    ensures !AllSpace(name) ==> Clipped(r.name, Trim(name), NameMax) && r.name != ""
  {
    var trimmed := Trim(name);
    if trimmed != "" then t.(name := Truncate(trimmed, NameMax)) else t
  }
}
