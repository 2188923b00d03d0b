/** Rounds and the block of four teams each round activates. */
module Rounds {

  const FirstRound: int := 1
  const LastRound: int := 3

  /** `setActiveTeamsByRound`'s list: the four consecutive ids starting at
      (round - 1) * 4 + 1, in increasing order. */
  function ActiveBlock(round: int): (ids: seq<int>)
    ensures |ids| == 4
    ensures forall k :: 0 <= k < 4 ==> ids[k] == 4 * round - 3 + k
    ensures forall x :: x in ids <==> 4 * round - 3 <= x <= 4 * round
  {
    var start := (round - 1) * 4 + 1;
    [start, start + 1, start + 2, start + 3]
  }

  /** The round whose block holds team `id`. */
  function RoundOf(id: int): int {
    (id - 1) / 4 + 1
  }

  /** The three rounds' blocks split the twelve teams: each team id is
      active in exactly one round, and no other id is ever active. */
  lemma BlocksPartitionTeams(id: int, round: int)
    requires FirstRound <= round <= LastRound
    ensures id in ActiveBlock(round) <==> 1 <= id <= 12 && RoundOf(id) == round
  {
  }

  /** `Math.min(3, round + 1)`: the round after `round`, stuck at the last. */
  function NextRound(round: int): (r: int)
    ensures round < LastRound ==> r == round + 1
    ensures round >= LastRound ==> r == LastRound
  {
    if LastRound <= round + 1 then LastRound else round + 1
  }

  /** Advancing keeps the round within 1..3 and never moves backwards. */
  lemma NextRoundInRange(round: int)
    requires FirstRound <= round <= LastRound
    ensures FirstRound <= NextRound(round) <= LastRound && round <= NextRound(round)
    ensures NextRound(round) == round <==> round == LastRound
  {
  }
}
