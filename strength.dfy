/**
 * The strength/weakness view: per team and range, the player with the best
 * and the worst field-goal ratio on offense and the one allowing the best
 * and the worst on defense (pickByFg, renderStrengthWeaknessView).
 */
module StrengthWeakness {
  import opened Slots
  import opened Events
  import opened ShotCodes
  import opened RangeTables

  /**
   * x's ratio m/a minus y's ratio, scaled by x.a * y.a: positive when x
   * shoots the better percentage. Cross-multiplied so that no division is
   * needed.
   */
  function RatioGap(x: RangeEntry, y: RangeEntry): int {
    x.m * y.a - y.m * x.a
  }

  /** RatioGap oriented towards the preferred end: high ratios, or low ones. */
  function Preference(x: RangeEntry, y: RangeEntry, preferLow: bool): int {
    if preferLow then RatioGap(y, x) else RatioGap(x, y)
  }

  /**
   * x sorts strictly ahead of y under pickByFg's comparator: a preferred
   * percentage, or the same percentage on more attempts.
   */
  predicate Ahead(x: RangeEntry, y: RangeEntry, preferLow: bool) {
    Preference(x, y, preferLow) > 0 || (Preference(x, y, preferLow) == 0 && x.a > y.a)
  }

  /**
   * pickByFg: the first entry of the stably sorted list of entries with
   * a > 0, or None when there is none.
   */
  function PickByFg(entries: seq<RangeEntry>, preferLow: bool): (r: Option<RangeEntry>)
    ensures r.None? <==> forall j :: 0 <= j < |entries| ==> entries[j].a == 0
    ensures r.Some? ==> r.value in entries && r.value.a > 0
    decreases |entries|
  {
    if |entries| == 0 then None
    else
      var rest := PickByFg(entries[1..], preferLow);
      if entries[0].a == 0 then rest
      else if rest.Some? && Ahead(rest.value, entries[0], preferLow) then rest
      else Some(entries[0])
  }

  /** The three-way regrouping behind transitivity of the comparator. */
  lemma RatioGapChain(x: RangeEntry, y: RangeEntry, z: RangeEntry)
    ensures RatioGap(x, z) * y.a == RatioGap(x, y) * z.a + RatioGap(y, z) * x.a
  {
  }

  /** Never ahead of each other both ways. */
  lemma AheadAsymmetric(x: RangeEntry, y: RangeEntry, preferLow: bool)
    ensures Ahead(x, y, preferLow) ==> !Ahead(y, x, preferLow)
  {
  }

  /** Not being ahead is transitive, for entries with attempts. */
  lemma NotAheadTransitive(x: RangeEntry, y: RangeEntry, z: RangeEntry, preferLow: bool)
    requires x.a > 0 && y.a > 0 && z.a > 0
    requires !Ahead(x, y, preferLow) && !Ahead(y, z, preferLow)
    ensures !Ahead(x, z, preferLow)
  {
    var p, q, s := Preference(x, y, preferLow), Preference(y, z, preferLow), Preference(x, z, preferLow);
    if preferLow {
      RatioGapChain(z, y, x);
    } else {
      RatioGapChain(x, y, z);
    }
    assert s * y.a == p * z.a + q * x.a;
    assert p <= 0 && q <= 0;
    assert p * z.a <= 0 && q * x.a <= 0;
    if s == 0 {
      assert p * z.a == 0 && q * x.a == 0;
      assert p == 0 && q == 0;
    }
  }

  /** The pick sorts strictly ahead of every earlier entry with attempts. */
  lemma {:induction false} PickByFgStable(entries: seq<RangeEntry>, preferLow: bool)
    ensures PickByFg(entries, preferLow).Some? ==>
      var p := PickByFg(entries, preferLow).value;
      exists k :: 0 <= k < |entries| && entries[k] == p &&
        (forall j :: 0 <= j < k && entries[j].a > 0 ==> Ahead(p, entries[j], preferLow))
    decreases |entries|
  {
    if |entries| > 0 {
      var h, t := entries[0], entries[1..];
      PickByFgStable(t, preferLow);
      assert forall j :: 1 <= j < |entries| ==> entries[j] == t[j - 1];
      var rest := PickByFg(t, preferLow);
      var p := PickByFg(entries, preferLow);
      if p.Some? && p != Some(h) {
        var k' :| 0 <= k' < |t| && t[k'] == rest.value &&
          (forall j :: 0 <= j < k' && t[j].a > 0 ==> Ahead(rest.value, t[j], preferLow));
        assert entries[k' + 1] == p.value;
      }
    }
  }

  /**
   * No entry with attempts sorts strictly ahead of the pick: its ratio is
   * the preferred one, and at that ratio it has the most attempts.
   */
  lemma {:induction false} PickByFgOptimal(entries: seq<RangeEntry>, preferLow: bool)
    ensures PickByFg(entries, preferLow).Some? ==>
      forall j :: 0 <= j < |entries| && entries[j].a > 0 ==> !Ahead(entries[j], PickByFg(entries, preferLow).value, preferLow)
    decreases |entries|
  {
    if |entries| > 0 {
      var h, t := entries[0], entries[1..];
      PickByFgOptimal(t, preferLow);
      assert forall j :: 1 <= j < |entries| ==> entries[j] == t[j - 1];
      var rest := PickByFg(t, preferLow);
      if h.a > 0 && !(rest.Some? && Ahead(rest.value, h, preferLow)) {
        forall j | 0 <= j < |entries| && entries[j].a > 0
          ensures !Ahead(entries[j], h, preferLow)
        {
          if j > 0 {
            NotAheadTransitive(entries[j], rest.value, h, preferLow);
          }
        }
      } else if rest.Some? && h.a > 0 {
        AheadAsymmetric(rest.value, h, preferLow);
      }
    }
  }

  /**
   * pickByFg returns None exactly when no entry has an attempt. Otherwise
   * it returns an entry with attempts whose ratio is the highest (the
   * lowest when preferLow) of all entries with attempts, with the most
   * attempts among those of that ratio, and every earlier entry with
   * attempts sorts strictly behind it.
   */
  lemma PickByFgSpec(entries: seq<RangeEntry>, preferLow: bool)
    ensures PickByFg(entries, preferLow).None? <==> forall j :: 0 <= j < |entries| ==> entries[j].a == 0
    ensures PickByFg(entries, preferLow).Some? ==>
      var p := PickByFg(entries, preferLow).value;
      exists k :: 0 <= k < |entries| && entries[k] == p && p.a > 0 &&
        (forall j :: 0 <= j < k && entries[j].a > 0 ==> Ahead(p, entries[j], preferLow))
    ensures PickByFg(entries, preferLow).Some? ==>
      var p := PickByFg(entries, preferLow).value;
      forall j :: 0 <= j < |entries| && entries[j].a > 0 ==>
        (if preferLow then p.m * entries[j].a <= entries[j].m * p.a else p.m * entries[j].a >= entries[j].m * p.a) &&
        (p.m * entries[j].a == entries[j].m * p.a ==> p.a >= entries[j].a)
  {
    PickByFgStable(entries, preferLow);
    PickByFgOptimal(entries, preferLow);
  }

  /** One row of the view: a team, a range and the four picks. */
  datatype StrengthRow = StrengthRow(
    team: string,
    shotType: string,
    offStrength: Option<RangeEntry>,
    offWeakness: Option<RangeEntry>,
    defStrength: Option<RangeEntry>,
    defWeakness: Option<RangeEntry>)

  /** The ranges in the order the view lists them. */
  function RangeOrder(): (rs: seq<Range>)
    ensures |rs| == 3
  {
    [Three, Jump, Paint]
  }

  /**
   * The row of side and range r: the best and the worst shooter of the side
   * in that range, and the defender allowing the lowest and the highest
   * ratio.
   */
  function StrengthRowFor(shots: seq<Event>, home: Team, away: Team, side: int, r: Range): StrengthRow {
    var team := TeamBySide(home, away, side);
    var off := ByRangeOf(shots, Offense, side, team).Get(r);
    var def := ByRangeOf(shots, Defense, side, team).Get(r);
    StrengthRow(team.name, RangeLabel(r), PickByFg(off, false), PickByFg(off, true), PickByFg(def, true), PickByFg(def, false))
  }

  /** The three rows of one side: three, jump, paint. */
  function SideRows(shots: seq<Event>, home: Team, away: Team, side: int): (rows: seq<StrengthRow>)
    ensures |rows| == 3
    ensures forall ri :: 0 <= ri < 3 ==> rows[ri] == StrengthRowFor(shots, home, away, side, RangeOrder()[ri])
  {
    [StrengthRowFor(shots, home, away, side, Three),
     StrengthRowFor(shots, home, away, side, Jump),
     StrengthRowFor(shots, home, away, side, Paint)]
  }

  /** The rows of sides 0 .. n - 1, side by side. */
  function RowsOfSides(shots: seq<Event>, home: Team, away: Team, n: nat): (rows: seq<StrengthRow>)
    ensures |rows| == 3 * n
  {
    if n == 0 then [] else RowsOfSides(shots, home, away, n - 1) + SideRows(shots, home, away, n - 1)
  }

  /** One pushed row: the four picks of one side's tables in one range. */
  method PickRow(team: Team, range: Range, offByRange: ByRange, defByRange: ByRange) returns (row: StrengthRow)
    ensures row.team == team.name && row.shotType == RangeLabel(range)
    ensures row.offStrength == PickByFg(offByRange.Get(range), false)
    ensures row.offWeakness == PickByFg(offByRange.Get(range), true)
    ensures row.defStrength == PickByFg(defByRange.Get(range), true)
    ensures row.defWeakness == PickByFg(defByRange.Get(range), false)
  {
    var offStrength := PickByFg(offByRange.Get(range), false);
    var offWeakness := PickByFg(offByRange.Get(range), true);
    var defStrength := PickByFg(defByRange.Get(range), true);
    var defWeakness := PickByFg(defByRange.Get(range), false);
    row := StrengthRow(team.name, RangeLabel(range), offStrength, offWeakness, defStrength, defWeakness);
  }

  /** The rows of one side, built range by range. */
  method SideStrengthRows(shots: seq<Event>, home: Team, away: Team, side: int) returns (rows: seq<StrengthRow>)
    ensures rows == SideRows(shots, home, away, side)
  {
    var teamObj := TeamBySide(home, away, side);
    var offByRange := BuildOffenseByRange(shots, home, away, side);
    var defByRange := BuildDefenseByRange(shots, home, away, side);
    ghost var expected := SideRows(shots, home, away, side);
    rows := [];
    for ri := 0 to 3
      invariant rows == expected[..ri]
    {
      var row := PickRow(teamObj, RangeOrder()[ri], offByRange, defByRange);
      assert row == expected[ri];
      assert expected[..ri + 1] == expected[..ri] + [row];
      rows := rows + [row];
    }
  }

  /**
   * renderStrengthWeaknessView: the home team's three rows, then the away
   * team's.
   */
  method StrengthWeaknessRows(shots: seq<Event>, home: Team, away: Team) returns (rows: seq<StrengthRow>)
    ensures rows == SideRows(shots, home, away, 0) + SideRows(shots, home, away, 1)
  {
    rows := [];
    for side := 0 to 2
      invariant rows == RowsOfSides(shots, home, away, side)
    {
      var sideRows := SideStrengthRows(shots, home, away, side);
      rows := rows + sideRows;
    }
  }

  /**
   * A cell of the view reads N/A exactly when no shot of that range is
   * credited to a roster player of the side in that role; strength and
   * weakness are then N/A together.
   */
  lemma StrengthCellsEmptyIffNoShots(shots: seq<Event>, home: Team, away: Team, side: int, r: Range)
    ensures
      var row := StrengthRowFor(shots, home, away, side, r);
      var len := |TeamBySide(home, away, side).players|;
      (row.offStrength.None? <==> CreditedCount(shots, Offense, side, len, r) == 0) &&
      (row.offWeakness.None? <==> CreditedCount(shots, Offense, side, len, r) == 0) &&
      (row.defStrength.None? <==> CreditedCount(shots, Defense, side, len, r) == 0) &&
      (row.defWeakness.None? <==> CreditedCount(shots, Defense, side, len, r) == 0)
  {
    var team := TeamBySide(home, away, side);
    var off := ByRangeOf(shots, Offense, side, team).Get(r);
    var def := ByRangeOf(shots, Defense, side, team).Get(r);
    TableCountsCreditedShots(shots, Offense, side, team, r);
    TableCountsCreditedShots(shots, Defense, side, team, r);
    NoAttemptsIffAllZero(off);
    NoAttemptsIffAllZero(def);
    PickByFgSpec(off, false);
    PickByFgSpec(off, true);
    PickByFgSpec(def, true);
    PickByFgSpec(def, false);
  }
}
