/**
 * The offense shot profile: per player and per shot-type code, the tally of
 * attempts, makes, misses and blocks, the team rows that add the players
 * up, and the totals (renderOffenseShotProfile).
 */
module ShotProfile {
  import opened Slots
  import opened Events
  import opened OffenseCells

  // ---------------------------------------------------------------------
  // The column list: the distinct shot-type codes, in ascending order.
  // ---------------------------------------------------------------------

  predicate StrictlyIncreasing(s: seq<int>) {
    forall i, j :: 0 <= i < j < |s| ==> s[i] < s[j]
  }

  /** Insert x into an ascending list of distinct codes, unless present. */
  function InsertCode(x: int, s: seq<int>): (r: seq<int>)
    requires StrictlyIncreasing(s)
    ensures StrictlyIncreasing(r)
    ensures forall c :: c in r <==> c == x || c in s
    decreases |s|
  {
    if |s| == 0 then [x]
    else if x < s[0] then [x] + s
    else if x == s[0] then s
    else
      var rest := InsertCode(x, s[1..]);
      assert forall c :: c in s[1..] ==> s[0] < c;
      assert forall k :: 0 <= k < |rest| ==> rest[k] in rest && s[0] < rest[k];
      [s[0]] + rest
  }

  /** The profile's columns: the distinct shot types, in ascending order. */
  function ShotTypeCodes(shots: seq<Event>): (codes: seq<int>)
    ensures StrictlyIncreasing(codes)
    ensures forall c :: c in codes <==> exists k :: 0 <= k < |shots| && shots[k].shotType == c
    decreases |shots|
  {
    if |shots| == 0 then []
    else
      var init := shots[..|shots| - 1];
      assert forall k :: 0 <= k < |init| ==> init[k] == shots[k];
      InsertCode(shots[|shots| - 1].shotType, ShotTypeCodes(init))
  }

  // ---------------------------------------------------------------------
  // What the tallies count.
  // ---------------------------------------------------------------------

  /** e is a shot of team `side` by the player at roster index idx. */
  predicate ShotBy(e: Event, side: int, playersLen: nat, idx: nat) {
    e.attackingTeam == side && NormalizeSlot(e.attacker, playersLen) == Some(idx)
  }

  /** e is a shot of team `side` whose attacker names some player. */
  predicate ShooterResolves(e: Event, side: int, playersLen: nat) {
    e.attackingTeam == side && NormalizeSlot(e.attacker, playersLen).Some?
  }

  /** The tally of player idx's shots of type code. */
  function PlayerCell(shots: seq<Event>, side: int, playersLen: nat, idx: nat, code: int): Cell
    decreases |shots|
  {
    if |shots| == 0 then Zero()
    else
      var e := shots[|shots| - 1];
      var c := PlayerCell(shots[..|shots| - 1], side, playersLen, idx, code);
      if ShotBy(e, side, playersLen, idx) && e.shotType == code then AddResult(c, e.shotResult) else c
  }

  /** The tally of team side's shots of type code whose shooter resolves. */
  function TeamCell(shots: seq<Event>, side: int, playersLen: nat, code: int): Cell
    decreases |shots|
  {
    if |shots| == 0 then Zero()
    else
      var e := shots[|shots| - 1];
      var c := TeamCell(shots[..|shots| - 1], side, playersLen, code);
      if ShooterResolves(e, side, playersLen) && e.shotType == code then AddResult(c, e.shotResult) else c
  }

  /** The tally of all of team side's shots whose shooter resolves. */
  function SideCell(shots: seq<Event>, side: int, playersLen: nat): Cell
    decreases |shots|
  {
    if |shots| == 0 then Zero()
    else
      var e := shots[|shots| - 1];
      var c := SideCell(shots[..|shots| - 1], side, playersLen);
      if ShooterResolves(e, side, playersLen) then AddResult(c, e.shotResult) else c
  }

  /** The cells of the first k players of a team, added up. */
  function PlayersSum(shots: seq<Event>, side: int, playersLen: nat, code: int, k: nat): Cell
    decreases k
  {
    if k == 0 then Zero()
    else Plus(PlayersSum(shots, side, playersLen, code, k - 1), PlayerCell(shots, side, playersLen, k - 1, code))
  }

  function PlayerCells(shots: seq<Event>, side: int, playersLen: nat, idx: nat, codes: seq<int>): map<int, Cell> {
    map code | code in codes :: PlayerCell(shots, side, playersLen, idx, code)
  }

  function TeamCells(shots: seq<Event>, side: int, playersLen: nat, codes: seq<int>): map<int, Cell> {
    map code | code in codes :: TeamCell(shots, side, playersLen, code)
  }

  // ---------------------------------------------------------------------
  // Properties of the tallies.
  // ---------------------------------------------------------------------

  lemma {:induction false} PlayersSumOfNoShots(side: int, playersLen: nat, code: int, k: nat)
    ensures PlayersSum([], side, playersLen, code, k) == Zero()
    decreases k
  {
    if k > 0 {
      PlayersSumOfNoShots(side, playersLen, code, k - 1);
      PlusZero(Zero());
    }
  }

  /** Appending one shot changes the first k players' sum by that shot, if
   *  it was taken by one of them. */
  lemma {:induction false} PlayersSumStep(shots: seq<Event>, side: int, playersLen: nat, code: int, k: nat)
    requires |shots| > 0
    ensures var e, init := shots[|shots| - 1], shots[..|shots| - 1];
      var slot := NormalizeSlot(e.attacker, playersLen);
      PlayersSum(shots, side, playersLen, code, k) ==
        if e.attackingTeam == side && e.shotType == code && slot.Some? && slot.value < k
        then AddResult(PlayersSum(init, side, playersLen, code, k), e.shotResult)
        else PlayersSum(init, side, playersLen, code, k)
    decreases k
  {
    var e, init := shots[|shots| - 1], shots[..|shots| - 1];
    if k > 0 {
      PlayersSumStep(shots, side, playersLen, code, k - 1);
      AddResultPlusLeft(PlayersSum(init, side, playersLen, code, k - 1), PlayerCell(init, side, playersLen, k - 1, code), e.shotResult);
      AddResultPlusRight(PlayersSum(init, side, playersLen, code, k - 1), PlayerCell(init, side, playersLen, k - 1, code), e.shotResult);
    }
  }

  /**
   * The team cell of a shot type is the sum of its players' cells: a shot
   * reaches the team row exactly when its attacker slot names one of the
   * team's players, so shots with an unresolved attacker are in neither.
   */
  lemma {:induction false} TeamCellIsSumOfPlayers(shots: seq<Event>, side: int, playersLen: nat, code: int)
    ensures PlayersSum(shots, side, playersLen, code, playersLen) == TeamCell(shots, side, playersLen, code)
    decreases |shots|
  {
    if |shots| == 0 {
      PlayersSumOfNoShots(side, playersLen, code, playersLen);
    } else {
      TeamCellIsSumOfPlayers(shots[..|shots| - 1], side, playersLen, code);
      PlayersSumStep(shots, side, playersLen, code, playersLen);
    }
  }

  /** Every tally is balanced: attempts = made + missed + blocked. */
  lemma {:induction false} TeamCellBalanced(shots: seq<Event>, side: int, playersLen: nat, code: int)
    ensures Balanced(TeamCell(shots, side, playersLen, code))
    decreases |shots|
  {
    if |shots| > 0 {
      TeamCellBalanced(shots[..|shots| - 1], side, playersLen, code);
    }
  }

  lemma {:induction false} PlayerCellBalanced(shots: seq<Event>, side: int, playersLen: nat, idx: nat, code: int)
    ensures Balanced(PlayerCell(shots, side, playersLen, idx, code))
    decreases |shots|
  {
    if |shots| > 0 {
      PlayerCellBalanced(shots[..|shots| - 1], side, playersLen, idx, code);
    }
  }

  lemma TeamCellsCover(shots: seq<Event>, side: int, playersLen: nat, codes: seq<int>)
    ensures Covers(TeamCells(shots, side, playersLen, codes), codes)
  {
  }

  /**
   * Summed over a column list that holds every shot type once, a team's
   * cells give the tally of exactly those of its shots whose attacker slot
   * resolves: the team total leaves out every unresolved shot and no other.
   */
  lemma {:induction false} TeamTotalIsSideCell(shots: seq<Event>, side: int, playersLen: nat, codes: seq<int>)
    requires StrictlyIncreasing(codes)
    requires forall k :: 0 <= k < |shots| ==> shots[k].shotType in codes
    ensures Covers(TeamCells(shots, side, playersLen, codes), codes)
    ensures SumCells(TeamCells(shots, side, playersLen, codes), codes) == SideCell(shots, side, playersLen)
    decreases |shots|
  {
    TeamCellsCover(shots, side, playersLen, codes);
    var after := TeamCells(shots, side, playersLen, codes);
    if |shots| == 0 {
      SumOfZeros(after, codes);
    } else {
      var e, init := shots[|shots| - 1], shots[..|shots| - 1];
      var before := TeamCells(init, side, playersLen, codes);
      TeamTotalIsSideCell(init, side, playersLen, codes);
      SumCellsBump(after, before, codes, ShooterResolves(e, side, playersLen), e.shotType, e.shotResult);
    }
  }

  /** A player whose index is not on the roster has an empty tally. */
  lemma {:induction false} OffRosterPlayerCellEmpty(shots: seq<Event>, side: int, playersLen: nat, idx: nat, code: int)
    requires idx >= playersLen
    ensures PlayerCell(shots, side, playersLen, idx, code) == Zero()
    decreases |shots|
  {
    if |shots| > 0 {
      OffRosterPlayerCellEmpty(shots[..|shots| - 1], side, playersLen, idx, code);
    }
  }

  // ---------------------------------------------------------------------
  // The tally passes.
  // ---------------------------------------------------------------------

  /** Distinct codes own distinct cell objects. */
  predicate DistinctCells(cells: map<int, OffCell>) {
    forall c1, c2 :: c1 in cells && c2 in cells && c1 != c2 ==> cells[c1] != cells[c2]
  }

  /** A fresh zero cell for each listed shot-type code. */
  method ZeroCells(typeCodes: seq<int>) returns (cells: map<int, OffCell>)
    ensures cells.Keys == set code | code in typeCodes
    ensures DistinctCells(cells)
    ensures forall code :: code in cells ==> fresh(cells[code]) && cells[code].Value() == Zero()
  {
    cells := map[];
    for i := 0 to |typeCodes|
      invariant cells.Keys == set code | code in typeCodes[..i]
      invariant DistinctCells(cells)
      invariant forall code :: code in cells ==> fresh(cells[code]) && cells[code].Value() == Zero()
    {
      assert typeCodes[..i + 1] == typeCodes[..i] + [typeCodes[i]];
      var cell := new OffCell();
      cells := cells[typeCodes[i] := cell];
    }
    assert typeCodes[..|typeCodes|] == typeCodes;
  }

  /** The values held by a table of cell objects. */
  function Snapshot(cells: map<int, OffCell>): map<int, Cell>
    reads set code | code in cells :: cells[code]
  {
    map code | code in cells :: cells[code].Value()
  }

  /**
   * The inner pass of renderOffenseShotProfile for one player: every shot
   * of the player's team whose attacker slot names this player is recorded
   * in the cell of its shot type.
   */
  method PlayerShotCells(shots: seq<Event>, side: int, playersLen: nat, playerIdx: nat, typeCodes: seq<int>)
    returns (counts: map<int, Cell>)
    ensures counts == PlayerCells(shots, side, playersLen, playerIdx, typeCodes)
  {
    var cells := ZeroCells(typeCodes);
    for i := 0 to |shots|
      invariant cells.Keys == set code | code in typeCodes
      invariant DistinctCells(cells)
      invariant forall code :: code in cells ==> fresh(cells[code])
      invariant forall code :: code in cells ==> cells[code].Value() == PlayerCell(shots[..i], side, playersLen, playerIdx, code)
    {
      assert shots[..i + 1][..i] == shots[..i];
      var ev := shots[i];
      if ev.attackingTeam != side {
        continue;
      }
      var idx := NormalizeSlot(ev.attacker, playersLen);
      if idx != Some(playerIdx) {
        continue;
      }
      var code := ev.shotType;
      if code !in cells {
        continue;
      }
      cells[code].AddOffStat(ev.shotResult);
    }
    assert shots[..|shots|] == shots;
    counts := Snapshot(cells);
  }

  /**
   * Adds a player's tallies into the team's cells: each listed team cell
   * grows by the player's cell of that code, field by field.
   */
  method AddCellsInto(cells: map<int, OffCell>, counts: map<int, Cell>, typeCodes: seq<int>)
    requires StrictlyIncreasing(typeCodes)
    requires forall code :: code in typeCodes ==> code in cells && code in counts
    requires DistinctCells(cells)
    modifies set code | code in cells :: cells[code]
    ensures forall code :: code in cells ==>
      cells[code].Value() == if code in typeCodes then Plus(old(cells[code].Value()), counts[code]) else old(cells[code].Value())
  {
    for j := 0 to |typeCodes|
      invariant forall code :: code in cells ==>
        cells[code].Value() == if code in typeCodes[..j] then Plus(old(cells[code].Value()), counts[code]) else old(cells[code].Value())
    {
      var code := typeCodes[j];
      assert code !in typeCodes[..j];
      assert typeCodes[..j + 1] == typeCodes[..j] + [code];
      cells[code].Accumulate(counts[code]);
    }
    assert typeCodes[..|typeCodes|] == typeCodes;
  }

  /** One row of the players table: the player's cells and their total. */
  datatype PlayerRow = PlayerRow(side: int, name: string, team: string, counts: map<int, Cell>, total: Cell)

  /** The row renderOffenseShotProfile builds for player idx of a team. */
  function RowFor(shots: seq<Event>, side: int, team: Team, idx: nat, codes: seq<int>): PlayerRow
    requires idx < |team.players|
  {
    var counts := PlayerCells(shots, side, |team.players|, idx, codes);
    assert Covers(counts, codes);
    PlayerRow(side, team.players[idx], team.name, counts, SumCells(counts, codes))
  }

  /**
   * One player of the per-team pass: the player's cells and row, and the
   * player's cells added into the team's cells.
   */
  method AddPlayer(shots: seq<Event>, side: int, team: Team, typeCodes: seq<int>, teamCells: map<int, OffCell>, p: nat)
    returns (row: PlayerRow)
    requires StrictlyIncreasing(typeCodes) && p < |team.players|
    requires teamCells.Keys == set code | code in typeCodes
    requires DistinctCells(teamCells)
    requires forall code :: code in teamCells ==> teamCells[code].Value() == PlayersSum(shots, side, |team.players|, code, p)
    modifies set code | code in teamCells :: teamCells[code]
    ensures row == RowFor(shots, side, team, p, typeCodes)
    ensures forall code :: code in teamCells ==> teamCells[code].Value() == PlayersSum(shots, side, |team.players|, code, p + 1)
  {
    var counts := PlayerShotCells(shots, side, |team.players|, p, typeCodes);
    AddCellsInto(teamCells, counts, typeCodes);
    var total := SumOffCells(counts, typeCodes);
    row := PlayerRow(side, team.players[p], team.name, counts, total);
  }

  /**
   * The per-team part of renderOffenseShotProfile: each player's cells,
   * added code by code into the team's cells.
   */
  method SideProfile(shots: seq<Event>, side: int, team: Team, typeCodes: seq<int>)
    returns (rows: seq<PlayerRow>, teamCounts: map<int, Cell>)
    requires StrictlyIncreasing(typeCodes)
    ensures |rows| == |team.players|
    ensures forall p :: 0 <= p < |rows| ==> rows[p] == RowFor(shots, side, team, p, typeCodes)
    ensures teamCounts == TeamCells(shots, side, |team.players|, typeCodes)
  {
    var len := |team.players|;
    var teamCells := ZeroCells(typeCodes);
    rows := [];
    for p := 0 to len
      invariant |rows| == p
      invariant forall q :: 0 <= q < p ==> rows[q] == RowFor(shots, side, team, q, typeCodes)
      invariant teamCells.Keys == set code | code in typeCodes
      invariant DistinctCells(teamCells)
      invariant forall code :: code in teamCells ==> fresh(teamCells[code])
      invariant forall code :: code in teamCells ==> teamCells[code].Value() == PlayersSum(shots, side, len, code, p)
    {
      var row := AddPlayer(shots, side, team, typeCodes, teamCells, p);
      rows := rows + [row];
    }
    SnapshotIsTeamCells(shots, side, len, typeCodes, teamCells);
    teamCounts := Snapshot(teamCells);
  }

  /** Team cells holding the sums over the whole roster are the team tallies. */
  lemma SnapshotIsTeamCells(shots: seq<Event>, side: int, len: nat, typeCodes: seq<int>, cells: map<int, OffCell>)
    requires cells.Keys == set code | code in typeCodes
    requires forall code :: code in cells ==> cells[code].Value() == PlayersSum(shots, side, len, code, len)
    ensures Snapshot(cells) == TeamCells(shots, side, len, typeCodes)
  {
    forall code | code in typeCodes
      ensures PlayersSum(shots, side, len, code, len) == TeamCell(shots, side, len, code)
    {
      TeamCellIsSumOfPlayers(shots, side, len, code);
    }
  }

  /** Everything renderOffenseShotProfile computes before it renders. */
  datatype Profile = Profile(
    typeCodes: seq<int>,
    rows: seq<PlayerRow>,
    homeCells: map<int, Cell>,
    awayCells: map<int, Cell>,
    combined: map<int, Cell>,
    homeTotal: Cell,
    awayTotal: Cell,
    gameTotal: Cell)

  /**
   * renderOffenseShotProfile: the columns, the player rows (home players
   * first, then away), the two team rows, the combined row and the totals.
   */
  method OffenseShotProfile(shots: seq<Event>, home: Team, away: Team) returns (p: Profile)
    ensures p.typeCodes == ShotTypeCodes(shots)
    ensures |p.rows| == |home.players| + |away.players|
    ensures forall k :: 0 <= k < |home.players| ==> p.rows[k] == RowFor(shots, 0, home, k, p.typeCodes)
    ensures forall k :: 0 <= k < |away.players| ==> p.rows[|home.players| + k] == RowFor(shots, 1, away, k, p.typeCodes)
    ensures p.homeCells == TeamCells(shots, 0, |home.players|, p.typeCodes)
    ensures p.awayCells == TeamCells(shots, 1, |away.players|, p.typeCodes)
    ensures forall code :: code in p.typeCodes ==> code in p.combined && p.combined[code] == Plus(p.homeCells[code], p.awayCells[code])
    ensures p.homeTotal == SideCell(shots, 0, |home.players|)
    ensures p.awayTotal == SideCell(shots, 1, |away.players|)
    ensures p.gameTotal == Plus(p.homeTotal, p.awayTotal)
    ensures Covers(p.combined, p.typeCodes) && p.gameTotal == SumCells(p.combined, p.typeCodes)
  {
    var typeCodes := ShotTypeCodes(shots);
    var homeRows, homeCells := SideProfile(shots, 0, home, typeCodes);
    var awayRows, awayCells := SideProfile(shots, 1, away, typeCodes);
    TeamCellsCover(shots, 0, |home.players|, typeCodes);
    TeamCellsCover(shots, 1, |away.players|, typeCodes);
    var combined := map code | code in typeCodes :: Plus(homeCells[code], awayCells[code]);
    var homeTotal := SumOffCells(homeCells, typeCodes);
    var awayTotal := SumOffCells(awayCells, typeCodes);
    var gameTotal := Plus(homeTotal, awayTotal);
    assert Covers(combined, typeCodes) by {
      assert forall i :: 0 <= i < |typeCodes| ==> typeCodes[i] in typeCodes;
    }
    SumOfPointwisePlus(combined, homeCells, awayCells, typeCodes);
    TeamTotalIsSideCell(shots, 0, |home.players|, typeCodes);
    TeamTotalIsSideCell(shots, 1, |away.players|, typeCodes);
    p := Profile(typeCodes, homeRows + awayRows, homeCells, awayCells, combined, homeTotal, awayTotal, gameTotal);
  }

  /** Every total of the profile is balanced. */
  lemma {:induction false} SideCellBalanced(shots: seq<Event>, side: int, playersLen: nat)
    ensures Balanced(SideCell(shots, side, playersLen))
    decreases |shots|
  {
    if |shots| > 0 {
      SideCellBalanced(shots[..|shots| - 1], side, playersLen);
    }
  }
}
