/**
 * Shot-range tallies: the two range pies (renderRangeCharts) and the
 * per-player range tables used by the strength/weakness view
 * (buildOffenseByRange, buildDefenseByRange).
 */
module RangeCharts {
  import opened Slots
  import opened Events
  import opened ShotCodes
  import opened OffenseCells
  import opened ShotProfile

  // ---------------------------------------------------------------------
  // The range pies.
  // ---------------------------------------------------------------------

  /** `{ three, jump, paint }` shot counts. */
  datatype RangeCounts = RangeCounts(three: nat, jump: nat, paint: nat) {
    function Get(r: Range): nat {
      match r
      case Three => three
      case Jump => jump
      case Paint => paint
    }

    /** sumRangeCounts */
    function Total(): nat {
      three + jump + paint
    }
  }

  /** emptyRangeCounts */
  function EmptyRangeCounts(): RangeCounts {
    RangeCounts(0, 0, 0)
  }

  /** One more shot in range r. */
  function Bump(c: RangeCounts, r: Range): (d: RangeCounts)
    ensures d.Get(r) == c.Get(r) + 1
    ensures forall o :: o != r ==> d.Get(o) == c.Get(o)
    ensures d.Total() == c.Total() + 1
  {
    match r
    case Three => c.(three := c.three + 1)
    case Jump => c.(jump := c.jump + 1)
    case Paint => c.(paint := c.paint + 1)
  }

  /** The selected player is the one at roster index slot (the filter's value). */
  predicate SlotMatches(idx: Option<nat>, slot: Numeric) {
    idx.Some? && slot.Finite? && idx.value == slot.value
  }

  /** The player pie: shots of team side whose attacker is the selected player. */
  function PlayerRangeCounts(shots: seq<Event>, side: int, playersLen: nat, slot: Numeric): (c: RangeCounts)
    ensures c.three + c.jump + c.paint <= |shots|
    decreases |shots|
  {
    if |shots| == 0 then EmptyRangeCounts()
    else
      var e := shots[|shots| - 1];
      var c := PlayerRangeCounts(shots[..|shots| - 1], side, playersLen, slot);
      if e.attackingTeam == side && SlotMatches(NormalizeSlot(e.attacker, playersLen), slot)
      then Bump(c, ShotRange(e.shotType)) else c
  }

  /** The team pie: every shot of team side, whatever its attacker slot. */
  function TeamRangeCounts(shots: seq<Event>, side: int): (c: RangeCounts)
    ensures c.three + c.jump + c.paint <= |shots|
    decreases |shots|
  {
    if |shots| == 0 then EmptyRangeCounts()
    else
      var e := shots[|shots| - 1];
      var c := TeamRangeCounts(shots[..|shots| - 1], side);
      if e.attackingTeam == side then Bump(c, ShotRange(e.shotType)) else c
  }

  /**
   * renderRangeCharts: the selected player's pie (side pside, roster index
   * pslot) and the selected team's pie (side tside).
   */
  method RangeCharts(shots: seq<Event>, home: Team, away: Team, pside: int, pslot: Numeric, tside: int)
    returns (playerCounts: RangeCounts, teamCounts: RangeCounts)
    ensures playerCounts == PlayerRangeCounts(shots, pside, |TeamBySide(home, away, pside).players|, pslot)
    ensures teamCounts == TeamRangeCounts(shots, tside)
  {
    var pTeam := TeamBySide(home, away, pside);
    playerCounts := EmptyRangeCounts();
    for i := 0 to |shots|
      invariant playerCounts == PlayerRangeCounts(shots[..i], pside, |pTeam.players|, pslot)
    {
      assert shots[..i + 1][..i] == shots[..i];
      var ev := shots[i];
      if ev.attackingTeam != pside {
        continue;
      }
      var idx := NormalizeSlot(ev.attacker, |pTeam.players|);
      if !SlotMatches(idx, pslot) {
        continue;
      }
      playerCounts := Bump(playerCounts, ShotRange(ev.shotType));
    }
    assert shots[..|shots|] == shots;

    teamCounts := EmptyRangeCounts();
    for i := 0 to |shots|
      invariant teamCounts == TeamRangeCounts(shots[..i], tside)
    {
      assert shots[..i + 1][..i] == shots[..i];
      var ev := shots[i];
      if ev.attackingTeam != tside {
        continue;
      }
      teamCounts := Bump(teamCounts, ShotRange(ev.shotType));
    }
  }

  /** The number of shots of team side. */
  function CountSide(shots: seq<Event>, side: int): nat
    decreases |shots|
  {
    if |shots| == 0 then 0
    else CountSide(shots[..|shots| - 1], side) + (if shots[|shots| - 1].attackingTeam == side then 1 else 0)
  }

  /** The number of shots of team side whose type code lies in lo..hi. */
  function CountSideCodes(shots: seq<Event>, side: int, lo: int, hi: int): nat
    decreases |shots|
  {
    if |shots| == 0 then 0
    else
      var e := shots[|shots| - 1];
      CountSideCodes(shots[..|shots| - 1], side, lo, hi) + (if e.attackingTeam == side && lo <= e.shotType <= hi then 1 else 0)
  }

  lemma {:induction false} TeamPieTotal(shots: seq<Event>, side: int)
    ensures TeamRangeCounts(shots, side).Total() == CountSide(shots, side)
    decreases |shots|
  {
    if |shots| > 0 {
      TeamPieTotal(shots[..|shots| - 1], side);
    }
  }

  lemma {:induction false} TeamPieThreeAndJump(shots: seq<Event>, side: int)
    ensures TeamRangeCounts(shots, side).three == CountSideCodes(shots, side, 100, 105)
    ensures TeamRangeCounts(shots, side).jump == CountSideCodes(shots, side, 200, 204)
    decreases |shots|
  {
    if |shots| > 0 {
      TeamPieThreeAndJump(shots[..|shots| - 1], side);
    }
  }

  /**
   * The team pie counts every shot of the side exactly once, whether or not
   * its attacker slot resolves; its three slice holds the shots with codes
   * 100..105, its jump slice those with codes 200..204, and the paint slice
   * all the others.
   */
  lemma TeamPieCountsEveryShot(shots: seq<Event>, side: int)
    ensures TeamRangeCounts(shots, side).Total() == CountSide(shots, side)
    ensures TeamRangeCounts(shots, side).three == CountSideCodes(shots, side, 100, 105)
    ensures TeamRangeCounts(shots, side).jump == CountSideCodes(shots, side, 200, 204)
    ensures TeamRangeCounts(shots, side).paint ==
      CountSide(shots, side) - CountSideCodes(shots, side, 100, 105) - CountSideCodes(shots, side, 200, 204)
  {
    TeamPieTotal(shots, side);
    TeamPieThreeAndJump(shots, side);
  }

  /** The player pie is part of the team pie of the same side, slice by slice. */
  lemma {:induction false} PlayerPieWithinTeamPie(shots: seq<Event>, side: int, playersLen: nat, slot: Numeric)
    ensures PlayerRangeCounts(shots, side, playersLen, slot).three <= TeamRangeCounts(shots, side).three
    ensures PlayerRangeCounts(shots, side, playersLen, slot).jump <= TeamRangeCounts(shots, side).jump
    ensures PlayerRangeCounts(shots, side, playersLen, slot).paint <= TeamRangeCounts(shots, side).paint
    decreases |shots|
  {
    if |shots| > 0 {
      PlayerPieWithinTeamPie(shots[..|shots| - 1], side, playersLen, slot);
    }
  }

  /** A selected slot that names no roster player has an empty pie. */
  lemma {:induction false} PlayerPieEmptyOffRoster(shots: seq<Event>, side: int, playersLen: nat, slot: Numeric)
    requires slot.NonFinite? || slot.value < 0 || slot.value >= playersLen
    ensures PlayerRangeCounts(shots, side, playersLen, slot) == EmptyRangeCounts()
    decreases |shots|
  {
    if |shots| > 0 {
      PlayerPieEmptyOffRoster(shots[..|shots| - 1], side, playersLen, slot);
    }
  }

  /** The number of shots of team side whose attacker slot names nobody. */
  function CountUnresolved(shots: seq<Event>, side: int, playersLen: nat): nat
    decreases |shots|
  {
    if |shots| == 0 then 0
    else
      var e := shots[|shots| - 1];
      CountUnresolved(shots[..|shots| - 1], side, playersLen) +
        (if e.attackingTeam == side && NormalizeSlot(e.attacker, playersLen).None? then 1 else 0)
  }

  /**
   * The team pie and the shot profile's team total count different shots:
   * the pie has every attempt of the profile's total plus one for each shot
   * of the side whose attacker slot does not resolve.
   */
  lemma {:induction false} TeamPieVersusProfileTotal(shots: seq<Event>, side: int, playersLen: nat)
    ensures TeamRangeCounts(shots, side).Total() == SideCell(shots, side, playersLen).a + CountUnresolved(shots, side, playersLen)
  {
    TeamPieTotal(shots, side);
    SideShotsSplit(shots, side, playersLen);
  }

  /** Each shot of the side either resolves to a player or it does not. */
  lemma {:induction false} SideShotsSplit(shots: seq<Event>, side: int, playersLen: nat)
    ensures CountSide(shots, side) == SideCell(shots, side, playersLen).a + CountUnresolved(shots, side, playersLen)
    decreases |shots|
  {
    if |shots| > 0 {
      SideShotsSplit(shots[..|shots| - 1], side, playersLen);
    }
  }
}
