/** The records the session is made of: teams, their phase-B answer,
    the audience's last vote, and what a connection knows about itself. */
module Records {

  datatype Option<T> = None | Some(value: T)

  /** Number of teams in a session; their ids are 1..TeamCount. */
  const TeamCount: nat := 12

  /** The session's fixed game code. */
  const GameCode: string := "RSU150"

  /** A team's phase-B "we help <who> with <problem> by <means>" answer (`means`
      is the source's `by` field; `by` is a Dafny keyword). */
  datatype WeHelp = WeHelp(who: string, problem: string, means: string)

  const NoWeHelp: WeHelp := WeHelp("", "", "")

  /** One team record. `value`, `competition` and `diff` are the three
      scores; `customer`, `pain`, `wehelp`, `pivot` and `blueMove` are the
      narrative answers of phases A to D; `lastUpdateAt` is the time of the
      team's last accepted submission (None until the first). */
  datatype Team = Team(
    id: int,
    name: string,
    value: int,
    competition: int,
    diff: int,
    customer: string,
    pain: string,
    wehelp: WeHelp,
    pivot: string,
    blueMove: string,
    lastUpdateAt: Option<int>)

  /** The last audience vote, stored as submitted: an id that names no team
      is kept all the same, and None stands for an absent id. */
  datatype Votes = Votes(valueTeam: Option<int>, diffTeam: Option<int>, redOceanTeam: Option<int>)

  const NoVotes: Votes := Votes(None, None, None)

  /** What a connection carries between events: the team it joined, if
      any, and whether it joined as audience. */
  datatype Conn = Conn(teamId: Option<int>, audience: bool)

  /** The number a string of decimal digits denotes, most significant first. */
  function DigitsValue(s: string): int {
    if s == [] then 0 else 10 * DigitsValue(s[..|s| - 1]) + (s[|s| - 1] as int - '0' as int)
  }

  /** Decimal digits of `n`, as a template literal prints an integer: the
      digits denote `n`, and there is no leading zero unless `n` is 0. */
  function Decimal(n: nat): (r: string)
    ensures r != []
    ensures forall k :: 0 <= k < |r| ==> '0' <= r[k] <= '9'
    ensures DigitsValue(r) == n
    ensures r[0] == '0' <==> n == 0
  {
    var d := ['0' + (n % 10) as char];
    if n < 10 then d
    else
      var p := Decimal(n / 10);
      assert (p + d)[..|p + d| - 1] == p;
      p + d
  }

  /** The record of team `id` when the session starts: named "Team <id>",
      all scores 0, all answers empty, never updated. */
  function InitialTeam(id: nat): (t: Team)
    ensures t.id == id && t.value == 0 && t.competition == 0 && t.diff == 0
    ensures t.name == "Team " + Decimal(id)
    ensures t.customer == t.pain == t.pivot == t.blueMove == "" && t.wehelp == NoWeHelp
    ensures t.lastUpdateAt == None
  {
    Team(id, "Team " + Decimal(id), 0, 0, 0, "", "", NoWeHelp, "", "", None)
  }

  /** Joining as audience: only the connection's own flag changes. */
  function JoinAudience(c: Conn): (c': Conn)
    ensures c'.audience && c'.teamId == c.teamId
  {
    c.(audience := true)
  }
}
