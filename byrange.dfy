/**
 * Per-player range tables of the strength/weakness view: for one team and
 * each range, one `{ name, a, m }` entry per roster player, counting the
 * shots that player took (buildOffenseByRange) or defended
 * (buildDefenseByRange).
 */
module RangeTables {
  import opened Slots
  import opened Events
  import opened ShotCodes

  /** A roster player's attempts `a` and makes `m` in one range. */
  datatype RangeEntry = RangeEntry(name: string, a: nat, m: nat)

  /** Whether shots are credited to the shooter or to the defender. */
  datatype Role = Offense | Defense

  /** The side a shot is credited to in the given role. */
  function RoleTeam(e: Event, role: Role): int {
    match role
    case Offense => e.attackingTeam
    case Defense => e.defendingTeam
  }

  /** The slot reference a shot is credited to in the given role. */
  function RoleSlot(e: Event, role: Role): Numeric {
    match role
    case Offense => e.attacker
    case Defense => e.defender
  }

  /** The roster index a shot is credited to, if it belongs to side at all. */
  function CreditedIndex(e: Event, role: Role, side: int, playersLen: nat): Option<nat> {
    if RoleTeam(e, role) != side then None else NormalizeSlot(RoleSlot(e, role), playersLen)
  }

  /** One more attempt, and one more make for result codes 1, 2 and 5. */
  function Credit(entry: RangeEntry, resultCode: int): (r: RangeEntry)
    ensures r.name == entry.name && r.a == entry.a + 1
    ensures r.m == entry.m + 1 <==> IsMadeResult(resultCode)
    ensures r.m == entry.m <==> !IsMadeResult(resultCode)
  {
    RangeEntry(entry.name, entry.a + 1, if IsMadeResult(resultCode) then entry.m + 1 else entry.m)
  }

  /** The entry of roster index idx in range r after the given shots. */
  function EntryFor(shots: seq<Event>, role: Role, side: int, name: string, playersLen: nat, idx: nat, r: Range): (entry: RangeEntry)
    ensures entry.name == name
    ensures entry.m <= entry.a <= |shots|
    decreases |shots|
  {
    if |shots| == 0 then RangeEntry(name, 0, 0)
    else
      var e := shots[|shots| - 1];
      var prev := EntryFor(shots[..|shots| - 1], role, side, name, playersLen, idx, r);
      if CreditedIndex(e, role, side, playersLen) == Some(idx) && ShotRange(e.shotType) == r
      then Credit(prev, e.shotResult) else prev
  }

  /** The table of range r: one entry per roster player, in roster order. */
  function EntriesFor(shots: seq<Event>, role: Role, side: int, team: Team, r: Range): (entries: seq<RangeEntry>)
    ensures |entries| == |team.players|
  {
    seq(|team.players|, j requires 0 <= j < |team.players| =>
      EntryFor(shots, role, side, team.players[j], |team.players|, j, r))
  }

  /** The three tables, keyed by range. */
  datatype ByRange = ByRange(three: seq<RangeEntry>, jump: seq<RangeEntry>, paint: seq<RangeEntry>) {
    function Get(r: Range): seq<RangeEntry> {
      match r
      case Three => three
      case Jump => jump
      case Paint => paint
    }
  }

  function ByRangeOf(shots: seq<Event>, role: Role, side: int, team: Team): ByRange {
    ByRange(EntriesFor(shots, role, side, team, Three),
            EntriesFor(shots, role, side, team, Jump),
            EntriesFor(shots, role, side, team, Paint))
  }

  /** The tables with entry k of range r credited with one shot of result code rc. */
  function CreditAt(t: ByRange, r: Range, k: nat, rc: int): ByRange
    requires k < |t.Get(r)|
  {
    match r
    case Three => t.(three := t.three[k := Credit(t.three[k], rc)])
    case Jump => t.(jump := t.jump[k := Credit(t.jump[k], rc)])
    case Paint => t.(paint := t.paint[k := Credit(t.paint[k], rc)])
  }

  /** One more shot changes the tables by crediting at most one entry. */
  lemma ByRangeOfStep(shots: seq<Event>, role: Role, side: int, team: Team)
    requires |shots| > 0
    ensures
      var e := shots[|shots| - 1];
      var before := ByRangeOf(shots[..|shots| - 1], role, side, team);
      var idx := CreditedIndex(e, role, side, |team.players|);
      ByRangeOf(shots, role, side, team) ==
      if idx.Some? then CreditAt(before, ShotRange(e.shotType), idx.value, e.shotResult) else before
  {
    EntriesForStep(shots, role, side, team, Three);
    EntriesForStep(shots, role, side, team, Jump);
    EntriesForStep(shots, role, side, team, Paint);
  }

  /** Credits entry k of the array with one shot, in place. */
  method CreditEntry(entries: array<RangeEntry>, k: nat, rc: int)
    requires k < entries.Length
    modifies entries
    ensures entries[..] == old(entries[..])[k := Credit(old(entries[k]), rc)]
  {
    entries[k] := Credit(entries[k], rc);
  }

  /**
   * The shared loop of buildOffenseByRange and buildDefenseByRange: three
   * arrays of zeroed entries, then one credit per shot of the side whose
   * slot resolves, in the array of its range.
   */
  method TallyByRange(shots: seq<Event>, role: Role, side: int, team: Team) returns (out: ByRange)
    ensures out == ByRangeOf(shots, role, side, team)
  {
    var n := |team.players|;
    var three := new RangeEntry[n](j requires 0 <= j < n => RangeEntry(team.players[j], 0, 0));
    var jump := new RangeEntry[n](j requires 0 <= j < n => RangeEntry(team.players[j], 0, 0));
    var paint := new RangeEntry[n](j requires 0 <= j < n => RangeEntry(team.players[j], 0, 0));
    assert ByRange(three[..], jump[..], paint[..]) == ByRangeOf(shots[..0], role, side, team);
    for i := 0 to |shots|
      invariant ByRange(three[..], jump[..], paint[..]) == ByRangeOf(shots[..i], role, side, team)
    {
      assert shots[..i + 1][..i] == shots[..i];
      ByRangeOfStep(shots[..i + 1], role, side, team);
      var ev := shots[i];
      if RoleTeam(ev, role) != side {
        continue;
      }
      var idx := NormalizeSlot(RoleSlot(ev, role), n);
      if idx.None? {
        continue;
      }
      match ShotRange(ev.shotType)
      case Three => CreditEntry(three, idx.value, ev.shotResult);
      case Jump => CreditEntry(jump, idx.value, ev.shotResult);
      case Paint => CreditEntry(paint, idx.value, ev.shotResult);
    }
    assert shots[..|shots|] == shots;
    out := ByRange(three[..], jump[..], paint[..]);
  }

  /** buildOffenseByRange: shots taken by each player of the side. */
  method BuildOffenseByRange(shots: seq<Event>, home: Team, away: Team, teamSide: int) returns (out: ByRange)
    ensures out == ByRangeOf(shots, Offense, teamSide, TeamBySide(home, away, teamSide))
  {
    out := TallyByRange(shots, Offense, teamSide, TeamBySide(home, away, teamSide));
  }

  /** buildDefenseByRange: shots defended by each player of the side. */
  method BuildDefenseByRange(shots: seq<Event>, home: Team, away: Team, teamSide: int) returns (out: ByRange)
    ensures out == ByRangeOf(shots, Defense, teamSide, TeamBySide(home, away, teamSide))
  {
    out := TallyByRange(shots, Defense, teamSide, TeamBySide(home, away, teamSide));
  }

  /** Attempts of a table, added up. */
  function SumAttempts(entries: seq<RangeEntry>): nat
    decreases |entries|
  {
    if |entries| == 0 then 0 else SumAttempts(entries[..|entries| - 1]) + entries[|entries| - 1].a
  }

  /** The number of shots of range r credited to some roster player of side. */
  function CreditedCount(shots: seq<Event>, role: Role, side: int, playersLen: nat, r: Range): nat
    decreases |shots|
  {
    if |shots| == 0 then 0
    else
      var e := shots[|shots| - 1];
      CreditedCount(shots[..|shots| - 1], role, side, playersLen, r) +
        (if CreditedIndex(e, role, side, playersLen).Some? && ShotRange(e.shotType) == r then 1 else 0)
  }

  lemma {:induction false} SumAttemptsUpdate(s: seq<RangeEntry>, k: nat, x: RangeEntry)
    requires k < |s|
    ensures SumAttempts(s[k := x]) + s[k].a == SumAttempts(s) + x.a
    decreases |s|
  {
    var t := s[k := x];
    assert t[..|t| - 1] == if k == |s| - 1 then s[..|s| - 1] else s[..|s| - 1][k := x];
    if k < |s| - 1 {
      SumAttemptsUpdate(s[..|s| - 1], k, x);
    }
  }

  /** A shot changes one table by crediting at most one entry. */
  lemma EntriesForStep(shots: seq<Event>, role: Role, side: int, team: Team, r: Range)
    requires |shots| > 0
    ensures
      var e := shots[|shots| - 1];
      var before := EntriesFor(shots[..|shots| - 1], role, side, team, r);
      var idx := CreditedIndex(e, role, side, |team.players|);
      EntriesFor(shots, role, side, team, r) ==
      if idx.Some? && ShotRange(e.shotType) == r then before[idx.value := Credit(before[idx.value], e.shotResult)]
      else before
  {
  }

  /**
   * Each shot of range r that belongs to side and whose slot resolves adds
   * one attempt to exactly one entry of the table, and no other shot adds
   * any: the attempts of the table add up to the number of those shots.
   */
  lemma {:induction false} TableCountsCreditedShots(shots: seq<Event>, role: Role, side: int, team: Team, r: Range)
    ensures SumAttempts(EntriesFor(shots, role, side, team, r)) == CreditedCount(shots, role, side, |team.players|, r)
    decreases |shots|
  {
    if |shots| == 0 {
      ZeroTableSum(EntriesFor(shots, role, side, team, r));
    } else {
      var e := shots[|shots| - 1];
      var before := EntriesFor(shots[..|shots| - 1], role, side, team, r);
      TableCountsCreditedShots(shots[..|shots| - 1], role, side, team, r);
      EntriesForStep(shots, role, side, team, r);
      var idx := CreditedIndex(e, role, side, |team.players|);
      if idx.Some? && ShotRange(e.shotType) == r {
        SumAttemptsUpdate(before, idx.value, Credit(before[idx.value], e.shotResult));
      }
    }
  }

  lemma {:induction false} ZeroTableSum(entries: seq<RangeEntry>)
    requires forall j :: 0 <= j < |entries| ==> entries[j].a == 0
    ensures SumAttempts(entries) == 0
    decreases |entries|
  {
    if |entries| > 0 {
      ZeroTableSum(entries[..|entries| - 1]);
    }
  }

  /** A table has no attempts exactly when every entry has a == 0. */
  lemma {:induction false} NoAttemptsIffAllZero(entries: seq<RangeEntry>)
    ensures SumAttempts(entries) == 0 <==> forall j :: 0 <= j < |entries| ==> entries[j].a == 0
    decreases |entries|
  {
    if |entries| > 0 {
      NoAttemptsIffAllZero(entries[..|entries| - 1]);
      var init := entries[..|entries| - 1];
      assert forall j :: 0 <= j < |init| ==> init[j] == entries[j];
    }
  }
}
