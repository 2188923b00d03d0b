/** `getPublicState`: the view of the session every observer receives. The
    scores and names of all twelve teams are public; the narrative answers
    are shown only for the teams of the current round's block. */
module Projection {
  import opened Records

  /** One team as observers see it (no `lastUpdateAt`). */
  datatype PublicTeam = PublicTeam(
    id: int,
    name: string,
    value: int,
    competition: int,
    diff: int,
    customer: string,
    pain: string,
    wehelp: WeHelp,
    pivot: string,
    blueMove: string)

  /** The broadcast view (the audience's last vote is not part of it). */
  datatype PublicView = PublicView(
    gameCode: string,
    currentRound: int,
    activeTeams: seq<int>,
    phase: string,
    eventText: string,
    teams: seq<PublicTeam>)

  /** A team's narrative answers: what the projection may hide. */
  datatype Narrative = Narrative(customer: string, pain: string, wehelp: WeHelp, pivot: string, blueMove: string)

  const Hidden: Narrative := Narrative("", "", NoWeHelp, "", "")

  function NarrativeOf(t: Team): Narrative {
    Narrative(t.customer, t.pain, t.wehelp, t.pivot, t.blueMove)
  }

  function Shown(p: PublicTeam): Narrative {
    Narrative(p.customer, p.pain, p.wehelp, p.pivot, p.blueMove)
  }

  /** Two teams that look the same to an observer who may not see their answers. */
  predicate SamePublicPart(a: Team, b: Team) {
    a.id == b.id && a.name == b.name && a.value == b.value
    && a.competition == b.competition && a.diff == b.diff
  }

  function ProjectTeam(t: Team, active: seq<int>): PublicTeam {
    var n := if t.id in active then NarrativeOf(t) else Hidden;
    PublicTeam(t.id, t.name, t.value, t.competition, t.diff,
               n.customer, n.pain, n.wehelp, n.pivot, n.blueMove)
  }

  /** The projection of the team list: one entry per team in the same
      order; id, name and scores copied; the narrative copied verbatim
      for an active team and blanked for every other one. */
  function ProjectTeams(teams: seq<Team>, active: seq<int>): (r: seq<PublicTeam>)
    ensures |r| == |teams|
    ensures forall i :: 0 <= i < |teams| ==>
      r[i].id == teams[i].id && r[i].name == teams[i].name && r[i].value == teams[i].value
      && r[i].competition == teams[i].competition && r[i].diff == teams[i].diff
    ensures forall i :: 0 <= i < |teams| ==>
      Shown(r[i]) == if teams[i].id in active then NarrativeOf(teams[i]) else Hidden
  {
    seq(|teams|, i requires 0 <= i < |teams| => ProjectTeam(teams[i], active))
  }

  /** `getPublicState` on the session's fields. */
  function View(round: int, active: seq<int>, phase: string, eventText: string,
                teams: seq<Team>): PublicView
  {
    PublicView(GameCode, round, active, phase, eventText, ProjectTeams(teams, active))
  }

  /** Nothing leaks from an inactive team: two team lists that differ only
      in the narrative answers of teams outside `active` project to the
      same view. */
  lemma InactiveAnswersInvisible(a: seq<Team>, b: seq<Team>, active: seq<int>)
    requires |a| == |b|
    requires forall i :: 0 <= i < |a| ==> SamePublicPart(a[i], b[i])
    requires forall i :: 0 <= i < |a| && a[i].id in active ==> NarrativeOf(a[i]) == NarrativeOf(b[i])
    ensures ProjectTeams(a, active) == ProjectTeams(b, active)
  {
  }

  /** Every answer of an active team is seen: if two team lists project to
      the same view, their active teams have the same answers. */
  lemma ActiveAnswersVisible(a: seq<Team>, b: seq<Team>, active: seq<int>, i: int)
    requires |a| == |b| && 0 <= i < |a| && a[i].id in active
    requires ProjectTeams(a, active) == ProjectTeams(b, active)
    ensures b[i].id == a[i].id && NarrativeOf(a[i]) == NarrativeOf(b[i])
  {
  }
}
