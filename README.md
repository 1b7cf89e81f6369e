# Shot analysis of the match report page

`web_tool.py` serves an HTML match report for a basketball game. The page
embeds a small JavaScript program that re-derives shot statistics from the
serialized event list. This project models that program's shot-analysis core
in Dafny and proves properties of it:

- actor slot resolution (`normalizeSlot`) and period labels (`periodFromClock`);
- the offense tally cells `{ a, m, mi, b }` (`zeroOffCell`, `addOffStat`,
  `sumOffCells`) and the offense shot profile built from them
  (`renderOffenseShotProfile`);
- shot-range classification (`getShotRange`, `rangeLabel`) and the two range
  pies (`renderRangeCharts`);
- the per-player range tables (`buildOffenseByRange`, `buildDefenseByRange`),
  best/worst selection (`pickByFg`) and the strength/weakness rows built from
  them (`renderStrengthWeaknessView`);
- the defender panel's selection and summary counts (`renderDefenderShotPanel`).

The modules are:

- `Slots` (slots.dfy): slot references and the roster index they name.
- `Clock` (clock.dfy): clock readings and their period labels.
- `Events` (events.dfy): the event and team records.
- `ShotCodes` (codes.dfy): the code tables and the range classification.
- `OffenseCells` (cells.dfy): tally cells, including the in-place `OffCell` class.
- `ShotProfile` (profile.dfy): the offense shot profile.
- `RangeCharts` (ranges.dfy): the range pies.
- `RangeTables` (byrange.dfy): the per-player range tables.
- `StrengthWeakness` (strength.dfy): `pickByFg` and the strength/weakness rows.
- `DefenderPanel` (defense.dfy): the defender panel's selection and counts.

The page's code works in two ways, and the model follows each:

- **Objects updated in place.** Cells are objects that `addOffStat` updates
  field by field, and the tally loops build count dictionaries and per-player
  arrays step by step. Here they are the `OffCell` class, maps of fresh
  `OffCell` objects, arrays of entries, and methods with loop invariants.
  Most loops are proved equal to a recursively defined function: over the
  event prefix for the tallies, over the code list for `sumOffCells`, over
  the roster for the team cells, and over the two sides for the
  strength/weakness rows. `ZeroCells`, `AddCellsInto` and `CreditEntry`
  instead state the new state directly in their `ensures`. The properties
  are then proved about those functions.
- **Pure code.** `normalizeSlot`, `periodFromClock`, `getShotRange`,
  `pickByFg` and the defender panel's filters and counts are functions, with
  lemmas about them.

JSON values are modelled after the page's `Number(...)` conversion:

- A slot reference is a finite integer or a non-finite value.
- A clock reading is a number of seconds, NaN, one of the infinities, or a
  non-number. `typeof NaN` is `"number"`, so NaN gets the label OT.
- Team sides and shot codes are integers. The page compares codes as
  strings, and `String` is injective on integers, so this changes nothing.

`pickByFg` compares field-goal ratios by cross-multiplication
(`m1 * a2` against `m2 * a1`) instead of floating-point percentages. The
page's sort is stable, so ties at the same ratio and the same attempts go to
the earliest entry.

## Model

| member | source | states |
|---|---|---|
| Slots.NormalizeSlot | web_tool.py:1076-1082 | a roster index is returned exactly when the reference is finite and within 1..playersLen; that index is the reference minus one and is below playersLen |
| Slots.SlotRoundTrip | web_tool.py:1076-1082 | the reference idx+1 resolves to roster index idx, and it is the only reference that does |
| Slots.TeamOnlySlot | web_tool.py:1080 | reference 0 names no player |
| Clock.PeriodMatchesQuarterWindows | web_tool.py:835-843 | a reading t in [0, 2880) gets quarter t / 720 + 1; 2880 and above gets OT; a negative reading gets End |
| Clock.PeriodFromClock | web_tool.py:835-843 | the "?" label is given exactly to non-number readings; End exactly to negative readings and minus infinity; OT exactly to readings of 2880 or more, NaN and plus infinity |
| Clock.PeriodMonotone | web_tool.py:837-842 | for non-negative readings, a later clock never gets an earlier period |
| Events.ShotEvents | web_tool.py:774 | the shot list holds exactly the events of type "shot", each as many times as in the event list, and no other |
| Events.TeamBySide | web_tool.py:1072-1074 | side 0 selects the home team, side 1 the away team, and every side selects one of the two |
| ShotCodes.RangeLabel | web_tool.py:1288-1292 | each range has its own display name: Three, Jump, Paint |
| ShotCodes.ThreePointLabels | web_tool.py:682-687 | the labels of codes 100..105 contain "3PT" |
| ShotCodes.TwoPointLabels | web_tool.py:688-692 | the labels of codes 200..204 contain "2PT" and no "3PT" |
| ShotCodes.OtherLabels | web_tool.py:693-703 | the remaining labelled codes 401..411 contain neither "3PT" nor "2PT" |
| ShotCodes.UnknownCodes | web_tool.py:995 | the text of an unlabelled code contains neither "3PT" nor "2PT" |
| ShotCodes.LabelClassification | web_tool.py:681-704 | a label contains "3PT" exactly for codes 100..105; of the others, it contains "2PT" exactly for codes 200..204 |
| ShotCodes.ShotLabel | web_tool.py:995 | a labelled code reads as its table entry; any other code falls back to its decimal text, which is non-empty and holds no letter P |
| ShotCodes.ShotRange | web_tool.py:994-999 | getShotRange returns three exactly for codes 100..105, jump exactly for 200..204 and paint for every other code, known or unknown |
| OffenseCells.AddResult | web_tool.py:858-865 | one more attempt; made rises exactly for 1, 2 and 5, blocked exactly for 3, missed exactly for every other code; exactly one of the three rises |
| OffenseCells.AddResultKeepsBalance | web_tool.py:858-865 | recording a shot keeps attempts = made + missed + blocked |
| OffenseCells.AddResultIsPlusOne | web_tool.py:858-865 | recording a shot adds the one-shot tally of its result |
| OffenseCells.OffCell.constructor | web_tool.py:854-856 | a new cell is all zeros |
| OffenseCells.OffCell.AddOffStat | web_tool.py:858-865 | the cell's new value is AddResult of its old value, and balance is kept |
| OffenseCells.OffCell.Accumulate | web_tool.py:874-877 | the cell's new value is its old value plus the given cell, field by field |
| OffenseCells.SumOffCells | web_tool.py:871-880 | the result is the field-wise sum of the listed cells |
| OffenseCells.SumCellsBalanced | web_tool.py:871-880 | a sum of balanced cells is balanced |
| OffenseCells.SumOfPointwisePlus | web_tool.py:950-963 | summing the combined row gives the home total plus the away total |
| OffenseCells.SumCellsBump | web_tool.py:903 | recording a shot in one cell changes the sum over distinct codes by that shot exactly when the code is listed |
| ShotProfile.InsertCode | web_tool.py:883-884 | inserting a code keeps the column list ascending and duplicate-free and adds exactly that code |
| ShotProfile.ShotTypeCodes | web_tool.py:883-884 | the columns are ascending, hold no duplicates, and hold exactly the shot types that occur |
| ShotProfile.ZeroCells | web_tool.py:889-890 | one fresh, distinct zero cell per listed code and no other key |
| ShotProfile.PlayerShotCells | web_tool.py:895-904 | each code's cell is the tally of the shots of the player's side whose attacker slot names this player |
| ShotProfile.AddCellsInto | web_tool.py:906-911 | each listed team cell grows by the player's cell of that code; every other cell is unchanged |
| ShotProfile.AddPlayer | web_tool.py:895-920 | the player's row holds the player's cells and their total, and the team cells grow from the sum over the first p players to the sum over the first p + 1 |
| ShotProfile.SideProfile | web_tool.py:894-921 | one row per roster player in roster order, with the player's cells and their total; the team cells are the tally of the side's shots with a resolving attacker |
| ShotProfile.SnapshotIsTeamCells | web_tool.py:906-921 | team cells that hold the sums over the whole roster are the team tallies of the side |
| ShotProfile.OffenseShotProfile | web_tool.py:882-963 | the columns, the home rows then the away rows, the team cells, and the combined row as home plus away per code; each team total is the tally of that side's shots with a resolving attacker; the game total is home plus away and equals the sum of the combined row |
| ShotProfile.TeamCellIsSumOfPlayers | web_tool.py:906-911 | a team cell is the sum of its players' cells |
| ShotProfile.TeamTotalIsSideCell | web_tool.py:956-957 | the team total is the tally of exactly those shots of the side whose attacker slot resolves |
| ShotProfile.TeamCellBalanced | web_tool.py:906-911 | every team cell is balanced |
| ShotProfile.PlayerCellBalanced | web_tool.py:895-904 | every player cell is balanced |
| ShotProfile.SideCellBalanced | web_tool.py:956-963 | every team total is balanced |
| ShotProfile.OffRosterPlayerCellEmpty | web_tool.py:899-900 | a roster index beyond the roster collects no shots |
| RangeCharts.Bump | web_tool.py:1057 | one more shot in the given range and no change in the others; the total rises by one |
| RangeCharts.PlayerRangeCounts | web_tool.py:1053-1058 | the player pie holds no more shots than the shot list |
| RangeCharts.TeamRangeCounts | web_tool.py:1063-1067 | the team pie holds no more shots than the shot list |
| RangeCharts.RangeCharts | web_tool.py:1046-1070 | the player pie counts the shots of the selected side whose attacker resolves to the selected index; the team pie counts every shot of the selected side |
| RangeCharts.TeamPieCountsEveryShot | web_tool.py:1063-1067 | the team pie's total is the number of the side's shots; its three slice counts codes 100..105, its jump slice codes 200..204, and its paint slice the rest |
| RangeCharts.PlayerPieWithinTeamPie | web_tool.py:1053-1067 | for the same side, each slice of the player pie is at most the team pie's slice |
| RangeCharts.PlayerPieEmptyOffRoster | web_tool.py:1053-1058 | a selection that names no roster index gives an empty player pie |
| RangeCharts.TeamPieVersusProfileTotal | web_tool.py:1064-1067 | the team pie holds the profile's team attempts plus every shot of the side whose attacker slot does not resolve |
| RangeCharts.SideShotsSplit | web_tool.py:1064-1067 | the side's shots are exactly those the profile total counts plus those whose attacker slot does not resolve |
| RangeTables.Credit | web_tool.py:1311-1312 | one more attempt, and one more make exactly for result codes 1, 2 and 5 |
| RangeTables.CreditEntry | web_tool.py:1311-1312 | the table changes only at the credited entry, which becomes Credit of its old value |
| RangeTables.EntryFor | web_tool.py:1305-1313 | an entry keeps its player's name, and makes never exceed attempts |
| RangeTables.TallyByRange | web_tool.py:1294-1316 | the three tables credit each shot of the side whose slot resolves to the entry of that slot in its range |
| RangeTables.BuildOffenseByRange | web_tool.py:1294-1316 | the tables of the side's players as shooters |
| RangeTables.BuildDefenseByRange | web_tool.py:1318-1340 | the tables of the side's players as defenders |
| RangeTables.TableCountsCreditedShots | web_tool.py:1305-1313 | a table's attempts add up to the number of shots of that range credited to some roster player of the side |
| RangeTables.NoAttemptsIffAllZero | web_tool.py:1343-1344 | a table has no attempts exactly when every entry has a = 0 |
| StrengthWeakness.AheadAsymmetric | web_tool.py:1351-1358 | the comparator never puts two entries ahead of each other |
| StrengthWeakness.NotAheadTransitive | web_tool.py:1351-1358 | for entries with attempts, "not ahead" is transitive, so the comparator is a consistent order |
| StrengthWeakness.PickByFg | web_tool.py:1342-1361 | None exactly when no entry has attempts; otherwise one of the entries, with attempts |
| StrengthWeakness.PickByFgStable | web_tool.py:1342-1361 | the pick is an entry that sorts strictly ahead of every earlier entry with attempts, as a stable sort leaves it |
| StrengthWeakness.PickByFgOptimal | web_tool.py:1342-1361 | no entry with attempts sorts strictly ahead of the pick |
| StrengthWeakness.PickByFgSpec | web_tool.py:1342-1361 | None exactly when no entry has attempts; otherwise an entry with attempts and the highest ratio (lowest when preferLow), with the most attempts at that ratio, and every earlier entry with attempts sorts behind it |
| StrengthWeakness.PickRow | web_tool.py:1380-1392 | the row carries the team name, the range label, the highest- and lowest-ratio shooters and the lowest- and highest-ratio defenders of that range |
| StrengthWeakness.SideRows | web_tool.py:1379-1393 | a side has one row per range, in the order three, jump, paint |
| StrengthWeakness.SideStrengthRows | web_tool.py:1375-1393 | a side's rows are built from its offense and defense tables, one per range, in order |
| StrengthWeakness.StrengthWeaknessRows | web_tool.py:1370-1394 | the home team's three rows come first, then the away team's |
| StrengthWeakness.StrengthCellsEmptyIffNoShots | web_tool.py:1379-1383 | a pick is N/A exactly when no shot of that range is credited to a roster player of the side in that role |
| DefenderPanel.DefenderShots | web_tool.py:1228-1235 | the defender list keeps exactly the shots whose defender slot resolves and that are selected, or all such shots when none is selected, each as many times as in the shot list |
| DefenderPanel.FilterShown | web_tool.py:1237-1241 | the shown shots are exactly the listed shots that pass the type and result filters, each as many times as listed; an empty filter passes everything |
| DefenderPanel.ListedDefendersResolve | web_tool.py:1228-1235 | every listed shot is a shot of the match whose defender names a roster player |
| DefenderPanel.NoFilterShowsAll | web_tool.py:1237-1241 | with no type or result filter, every listed shot is shown |
| DefenderPanel.CountResults | web_tool.py:1243-1246 | a count never exceeds the number of shown shots |
| DefenderPanel.Summary | web_tool.py:1243-1258 | the shown count is at most the listed count, which is at most the number of shots, and each result count is at most the shown count |
| DefenderPanel.SummaryConsistent | web_tool.py:1243-1246 | made + missed is at most the shown count; blocked is at most missed; fouls are at most the shown count; shown is at most the listed count |
| DefenderPanel.SummaryMadePlusMissed | web_tool.py:1243-1244 | when every shown result code is in 0..5, made + missed equals the shown count |

## Left out

- The Flask routes, form handling and `app.run`: web plumbing with no shot logic.
- `generate_report` and `serialize_game`. They log in and fetch XML over the network, and replay the game through `Game`, `Team` and `Player` classes from modules that are not part of this model. The model starts from the serialized event list and team lists.
- All HTML, CSS and DOM rendering: table markup, pie gradients, the dropdown widgets and their event listeners. The filters' selected values are parameters of the model.
- Floating-point percentages: `pct`, `pctRange`, `toFixed`, the pie cut points, and the FG% card of the defender panel.
- The `pct` field that `pickByFg` adds to its result. The model returns the picked entry without it.
- StrengthWeakness.PickByFg: assumes that two ratios compare as their exact rational values. The page compares the floating-point values `(m / a) * 100`, which could round two close ratios to the same number.
- The player table's team filter and its order by attempts and then `localeCompare` on names. This is display ordering only, and locale-dependent.
- Slot references and clock readings with a fraction. The event feed writes whole numbers, so both are modelled as integers.
- The `Number(...)` coercion of arbitrary JSON (strings, booleans, null). Its result is modelled directly as a finite integer or a non-finite value.
- The shot list's event types other than "shot", and event fields that the shot analysis does not read (comments, scores).
- `resolvePlayerName`, `formatFgCell`, `formatComments` and the other text helpers: they only build display strings.
