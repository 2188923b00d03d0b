/** The single game session and the handlers of the events that change
    it. Each handler is one synchronous read-modify-write of the session;
    its `broadcast` result says whether it ends by sending the new public
    view to every observer. An event that names no team, or a team that may
    not act, is a silent no-op: nothing changes and nothing is sent. */
module Sessions {
  import opened Records
  import opened Rounds
  import opened Rules
  import opened Decks
  import opened Projection

  /** Where team `id` lives in the team array, when `id` names a team. */
  function Slot(id: Option<int>): (k: Option<nat>)
    ensures k.Some? <==> id.Some? && 1 <= id.value <= TeamCount
    ensures k.Some? ==> k.value + 1 == id.value
  {
    if id.Some? && 1 <= id.value <= TeamCount then Some(id.value - 1) else None
  }

  class Session {
    /** The twelve team records; the array itself is never replaced. */
    const teams: array<Team>
    var currentRound: int
    var activeTeams: seq<int>
    var phase: string
    var eventText: string
    var audienceVotes: Votes

    /** The session invariant: twelve teams with ids 1..12 in order, a
        round in 1..3 whose block is the active list, and no team's
        `competition` below zero. */
    ghost predicate Valid()
      reads this, teams
    {
      teams.Length == TeamCount
      && (forall i :: 0 <= i < teams.Length ==> teams[i].id == i + 1)
      && FirstRound <= currentRound <= LastRound
      && activeTeams == ActiveBlock(currentRound)
      && (forall i :: 0 <= i < teams.Length ==> teams[i].competition >= 0)
    }

    /** Team `id` is in the current round's block (so it exists). */
    ghost predicate Admits(id: Option<int>)
      reads this
    {
      id.Some? && id.value in activeTeams
    }

    /** The session as the server starts it: round 1, teams 1-4 active,
        phase "A", no event, twelve fresh teams, no vote yet. */
    constructor ()
      ensures Valid() && fresh(teams)
      ensures currentRound == 1 && activeTeams == [1, 2, 3, 4]
      ensures phase == "A" && eventText == "" && audienceVotes == NoVotes
      ensures forall i :: 0 <= i < TeamCount ==> teams[i] == InitialTeam(i + 1)
    {
      teams := new Team[TeamCount](i => InitialTeam(i + 1));
      currentRound := FirstRound;
      activeTeams := [1, 2, 3, 4];
      phase := "A";
      eventText := "";
      audienceVotes := NoVotes;
    }

    /** `state.teams.find((x) => x.id === id)`: the index of the first team
        whose id is `id`, or None when there is none (an absent id never
        matches). Under the invariant that is the team's slot. */
    method Find(id: Option<int>) returns (k: Option<nat>)
      ensures k.Some? ==> id.Some? && k.value < teams.Length && teams[k.value].id == id.value
      ensures k.Some? ==> forall j :: 0 <= j < k.value ==> teams[j].id != id.value
      ensures k.None? ==> forall j :: 0 <= j < teams.Length ==> id != Some(teams[j].id)
      ensures Valid() ==> k == Slot(id)
    {
      var i := 0;
      while i < teams.Length
        invariant 0 <= i <= teams.Length
        invariant forall j :: 0 <= j < i ==> id != Some(teams[j].id)
        invariant Valid() && id.Some? && 1 <= id.value <= TeamCount ==> i < id.value
      {
        if id.Some? && teams[i].id == id.value {
          return Some(i);
        }
        i := i + 1;
      }
      return None;
    }

    /** The guard every submission starts with: the connection's team must
        exist and be in the active block. */
    method ActiveSlot(id: Option<int>) returns (k: Option<nat>)
      requires Valid()
      ensures k.Some? <==> Admits(id)
      ensures k.Some? ==> k == Slot(id)
    {
      k := Find(id);
      if k.None? {
        return;
      }
      if teams[k.value].id !in activeTeams {
        return None;
      }
    }

    /** `getPublicState`: every team's id, name and scores as stored, and,
        under the invariant, a team's answers shown exactly when the team
        belongs to the current round. */
    function PublicState(): (v: PublicView)
      requires Valid()
      reads this, teams
      ensures v.gameCode == GameCode
      ensures v.currentRound == currentRound && v.activeTeams == activeTeams
      ensures v.phase == phase && v.eventText == eventText && |v.teams| == TeamCount
      ensures forall i :: 0 <= i < TeamCount ==>
        v.teams[i].id == teams[i].id && v.teams[i].name == teams[i].name
        && v.teams[i].value == teams[i].value && v.teams[i].competition == teams[i].competition
        && v.teams[i].diff == teams[i].diff
      ensures forall i :: 0 <= i < TeamCount ==>
        Shown(v.teams[i]) == if RoundOf(i + 1) == currentRound then NarrativeOf(teams[i]) else Hidden
    {
      assert forall id :: 1 <= id <= TeamCount ==> (id in activeTeams <==> RoundOf(id) == currentRound) by {
        forall id | 1 <= id <= TeamCount {
          BlocksPartitionTeams(id, currentRound);
        }
      }
      View(currentRound, activeTeams, phase, eventText, teams[..])
    }

    /** `setActiveTeamsByRound`: the active list becomes the round's block. */
    method SetActiveTeamsByRound(round: int)
      modifies this
      ensures activeTeams == ActiveBlock(round)
      ensures currentRound == old(currentRound) && phase == old(phase)
      ensures eventText == old(eventText) && audienceVotes == old(audienceVotes)
    {
      activeTeams := ActiveBlock(round);
    }

    // ------------------------------------------------------------- joining

    /** `joinTeam`: an id that names no team changes nothing. Otherwise the
        connection is bound to that team, and the team is renamed when the
        name given holds more than white space. */
    method JoinTeam(conn: Conn, teamId: Option<int>, teamName: string) returns (conn': Conn, broadcast: bool)
      requires Valid()
      modifies teams
      ensures Valid()
      ensures broadcast <==> Slot(teamId).Some?
      ensures conn' == if broadcast then conn.(teamId := teamId) else conn
      ensures forall i :: 0 <= i < TeamCount ==>
        teams[i] == if broadcast && teamId == Some(i + 1) then Rename(old(teams[i]), teamName) else old(teams[i])
    {
      var k := Find(teamId);
      if k.None? {
        return conn, false;
      }
      teams[k.value] := Rename(teams[k.value], teamName);
      conn' := conn.(teamId := Some(teams[k.value].id));
      broadcast := true;
    }

    // ---------------------------------------------------------- submissions

    /** `submitPhaseA`: only the connection's team, and only while active. */
    method SubmitPhaseA(conn: Conn, customer: string, pain: string, now: int) returns (broadcast: bool)
      requires Valid()
      modifies teams
      ensures Valid()
      ensures broadcast == Admits(conn.teamId)
      ensures forall i :: 0 <= i < TeamCount ==>
        teams[i] == if broadcast && conn.teamId == Some(i + 1) then SubmitA(old(teams[i]), customer, pain, now) else old(teams[i])
    {
      var k := ActiveSlot(conn.teamId);
      if k.None? {
        return false;
      }
      teams[k.value] := SubmitA(teams[k.value], customer, pain, now);
      broadcast := true;
    }

    /** `submitPhaseB`: only the connection's team, and only while active. */
    method SubmitPhaseB(conn: Conn, who: string, problem: string, means: string, now: int) returns (broadcast: bool)
      requires Valid()
      modifies teams
      ensures Valid()
      ensures broadcast == Admits(conn.teamId)
      ensures forall i :: 0 <= i < TeamCount ==>
        teams[i] == if broadcast && conn.teamId == Some(i + 1) then SubmitB(old(teams[i]), who, problem, means, now) else old(teams[i])
    {
      var k := ActiveSlot(conn.teamId);
      if k.None? {
        return false;
      }
      teams[k.value] := SubmitB(teams[k.value], who, problem, means, now);
      broadcast := true;
    }

    /** `submitPhaseC`: only the connection's team, and only while active. */
    method SubmitPhaseC(conn: Conn, pivot: string, now: int) returns (broadcast: bool)
      requires Valid()
      modifies teams
      ensures Valid()
      ensures broadcast == Admits(conn.teamId)
      ensures forall i :: 0 <= i < TeamCount ==>
        teams[i] == if broadcast && conn.teamId == Some(i + 1) then SubmitC(old(teams[i]), pivot, now) else old(teams[i])
    {
      var k := ActiveSlot(conn.teamId);
      if k.None? {
        return false;
      }
      teams[k.value] := SubmitC(teams[k.value], pivot, now);
      broadcast := true;
    }

    /** `submitPhaseD`: only the connection's team, and only while active;
        the stored move is scored. */
    method SubmitPhaseD(conn: Conn, blueMove: string, now: int) returns (broadcast: bool)
      requires Valid()
      modifies teams
      ensures Valid()
      ensures broadcast == Admits(conn.teamId)
      ensures forall i :: 0 <= i < TeamCount ==>
        teams[i] == if broadcast && conn.teamId == Some(i + 1) then SubmitD(old(teams[i]), blueMove, now) else old(teams[i])
    {
      var k := ActiveSlot(conn.teamId);
      if k.None? {
        return false;
      }
      teams[k.value] := SubmitD(teams[k.value], blueMove, now);
      broadcast := true;
    }

    // ----------------------------------------------------------------- vote

    /** `vote`: the three ids are stored as given, and every id that names a
        team earns that team its point. Always broadcast. */
    method Vote(votes: Votes) returns (broadcast: bool)
      requires Valid()
      modifies this, teams
      ensures Valid() && broadcast
      ensures audienceVotes == votes
      ensures currentRound == old(currentRound) && activeTeams == old(activeTeams)
      ensures phase == old(phase) && eventText == old(eventText)
      ensures forall i :: 0 <= i < TeamCount ==> teams[i] == Credit(old(teams[i]), votes)
    {
      audienceVotes := votes;
      var vt := Find(votes.valueTeam);
      var dt := Find(votes.diffTeam);
      var rt := Find(votes.redOceanTeam);
      ghost var s0 := teams[..];
      Award(vt, 1, 0, 0);
      ghost var s1 := teams[..];
      Award(dt, 0, 1, 0);
      ghost var s2 := teams[..];
      Award(rt, 0, 0, 1);
      VoteCredits(s0, s1, s2, teams[..], votes, vt, dt, rt);
      broadcast := true;
    }

    /** The three awards of a vote add up to each team's Credit. */
    static lemma VoteCredits(s0: seq<Team>, s1: seq<Team>, s2: seq<Team>, s3: seq<Team>,
                             votes: Votes, vt: Option<nat>, dt: Option<nat>, rt: Option<nat>)
      requires |s0| == TeamCount && forall i :: 0 <= i < TeamCount ==> s0[i].id == i + 1
      requires vt == Slot(votes.valueTeam) && dt == Slot(votes.diffTeam) && rt == Slot(votes.redOceanTeam)
      requires s1 == if vt.Some? then s0[vt.value := Points(s0[vt.value], 1, 0, 0)] else s0
      requires s2 == if dt.Some? then s1[dt.value := Points(s1[dt.value], 0, 1, 0)] else s1
      requires s3 == if rt.Some? then s2[rt.value := Points(s2[rt.value], 0, 0, 1)] else s2
      ensures forall i :: 0 <= i < TeamCount ==> s3[i] == Credit(s0[i], votes)
    {
    }

    /** `t` with the given points added. */
    static function Points(t: Team, dValue: nat, dDiff: nat, dComp: nat): Team {
      t.(value := t.value + dValue, diff := t.diff + dDiff, competition := t.competition + dComp)
    }

    /** One point award of the vote: the team in slot `k`, if any, gains
        the given `value`, `diff` and `competition` points. */
    method Award(k: Option<nat>, dValue: nat, dDiff: nat, dComp: nat)
      requires Valid() && (k.Some? ==> k.value < TeamCount)
      modifies teams
      ensures Valid()
      ensures k.None? ==> teams[..] == old(teams[..])
      ensures k.Some? ==> teams[..] == old(teams[..])[k.value := Points(old(teams[k.value]), dValue, dDiff, dComp)]
    {
      if k.Some? {
        teams[k.value] := Points(teams[k.value], dValue, dDiff, dComp);
      }
    }

    // --------------------------------------------------- facilitator events

    /** `facilitator:setPhase`: any phase value is accepted as given. */
    method SetPhase(p: string) returns (broadcast: bool)
      requires Valid()
      modifies this
      ensures Valid() && broadcast
      ensures phase == p
      ensures currentRound == old(currentRound) && activeTeams == old(activeTeams)
      ensures eventText == old(eventText) && audienceVotes == old(audienceVotes)
    {
      phase := p;
      broadcast := true;
    }

    /** `facilitator:nextRound`: the round goes up by one, but not past 3;
        the active block follows it, the phase goes back to "A" and the
        event is cleared. No team record changes: earlier answers stay in
        the records, hidden once their team leaves the block. */
    method NextRound() returns (broadcast: bool)
      requires Valid()
      modifies this
      ensures Valid() && broadcast
      ensures old(currentRound) < LastRound ==> currentRound == old(currentRound) + 1
      ensures old(currentRound) == LastRound ==> currentRound == LastRound
      ensures activeTeams == ActiveBlock(currentRound)
      ensures phase == "A" && eventText == "" && audienceVotes == old(audienceVotes)
    {
      currentRound := Rounds.NextRound(currentRound);
      SetActiveTeamsByRound(currentRound);
      phase := "A";
      eventText := "";
      broadcast := true;
    }

    /** `facilitator:drawRandom`. For "customer", each active team, taken
        in order, gets the drawn customer and pain cards in whichever of
        the two fields is empty; no filled field and no other team changes.
        For "event", the event becomes the drawn event card. Any other
        kind changes nothing. Always broadcast. The draws are the indices
        the random source picked: one customer and one pain index per
        position of the active block, and one event index. */
    method DrawRandom(kind: string, customerPicks: seq<int>, painPicks: seq<int>, eventPick: int) returns (broadcast: bool)
      requires Valid()
      requires |customerPicks| == 4 && |painPicks| == 4
      requires forall j :: 0 <= j < 4 ==> 0 <= customerPicks[j] < |CustomerCards|
      requires forall j :: 0 <= j < 4 ==> 0 <= painPicks[j] < |PainCards|
      requires 0 <= eventPick < |EventCards|
      modifies this, teams
      ensures Valid() && broadcast
      ensures currentRound == old(currentRound) && activeTeams == old(activeTeams)
      ensures phase == old(phase) && audienceVotes == old(audienceVotes)
      ensures eventText == if kind == "event" then EventCards[eventPick] else old(eventText)
      ensures kind == "customer" ==> forall j :: 0 <= j < 4 ==>
        teams[activeTeams[j] - 1] == Fill(old(teams[activeTeams[j] - 1]), CustomerCards[customerPicks[j]], PainCards[painPicks[j]])
      ensures forall i :: 0 <= i < TeamCount && (kind != "customer" || i + 1 !in activeTeams) ==>
        teams[i] == old(teams[i])
    {
      if kind == "customer" {
        var base := activeTeams[0] - 1;
        var j := 0;
        while j < |activeTeams|
          invariant 0 <= j <= 4 && Valid()
          invariant currentRound == old(currentRound) && activeTeams == old(activeTeams)
          invariant phase == old(phase) && eventText == old(eventText) && audienceVotes == old(audienceVotes)
          invariant forall p :: 0 <= p < j ==>
            teams[base + p] == Fill(old(teams[base + p]), CustomerCards[customerPicks[p]], PainCards[painPicks[p]])
          invariant forall i :: 0 <= i < TeamCount && !(base <= i < base + j) ==> teams[i] == old(teams[i])
        {
          DrawFor(activeTeams[j], CustomerCards[customerPicks[j]], PainCards[painPicks[j]]);
          j := j + 1;
        }
      }
      if kind == "event" {
        eventText := EventCards[eventPick];
      }
      broadcast := true;
    }

    /** One pass of the customer draw's loop: team `id`, when it exists,
        gets the cards in whichever of `customer` and `pain` is empty. */
    method DrawFor(id: int, customerCard: string, painCard: string)
      requires Valid()
      modifies teams
      ensures Valid()
      ensures forall i :: 0 <= i < TeamCount ==>
        teams[i] == if i + 1 == id then Fill(old(teams[i]), customerCard, painCard) else old(teams[i])
    {
      var k := Find(Some(id));
      if k.Some? && teams[k.value].customer == "" {
        teams[k.value] := teams[k.value].(customer := customerCard);
      }
      if k.Some? && teams[k.value].pain == "" {
        teams[k.value] := teams[k.value].(pain := painCard);
      }
    }

    /** `facilitator:adjustScore`: an id that names no team changes
        nothing; otherwise that team's scores move by the deltas, with
        `competition` clamped at zero. */
    method AdjustScore(teamId: Option<int>, deltaValue: int, deltaComp: int, deltaDiff: int) returns (broadcast: bool)
      requires Valid()
      modifies teams
      ensures Valid()
      ensures broadcast <==> Slot(teamId).Some?
      ensures forall i :: 0 <= i < TeamCount ==>
        teams[i] == if broadcast && teamId == Some(i + 1) then Adjust(old(teams[i]), deltaValue, deltaComp, deltaDiff) else old(teams[i])
    {
      var k := Find(teamId);
      if k.None? {
        return false;
      }
      teams[k.value] := Adjust(teams[k.value], deltaValue, deltaComp, deltaDiff);
      broadcast := true;
    }
  }
}
