/**
 * The defender panel's selection and summary counts
 * (renderDefenderShotPanel): shots whose defender slot resolves, narrowed
 * by the selected defenders, shot types and results, then counted by
 * result.
 */
module DefenderPanel {
  import opened Slots
  import opened Events

  /** A defender option: side and roster index (the "side:idx" key). */
  datatype DefenderKey = DefenderKey(side: int, idx: nat)

  /**
   * A shot stays in the defender list when its defender slot resolves
   * against the roster of its defending side and, unless no defender is
   * selected, that side and index are selected.
   */
  predicate DefenderKept(e: Event, home: Team, away: Team, selected: set<DefenderKey>) {
    var idx := NormalizeSlot(e.defender, |TeamBySide(home, away, e.defendingTeam).players|);
    idx.Some? && (selected == {} || DefenderKey(e.defendingTeam, idx.value) in selected)
  }

  /** The defender list, in event order. */
  function DefenderShots(shots: seq<Event>, home: Team, away: Team, selected: set<DefenderKey>): (r: seq<Event>)
    ensures |r| <= |shots|
    ensures forall e :: e in r <==> e in shots && DefenderKept(e, home, away, selected)
    ensures forall e :: multiset(r)[e] == if DefenderKept(e, home, away, selected) then multiset(shots)[e] else 0
    decreases |shots|
  {
    if |shots| == 0 then []
    else
      var rest := DefenderShots(shots[..|shots| - 1], home, away, selected);
      var e := shots[|shots| - 1];
      assert shots == shots[..|shots| - 1] + [e];
      if DefenderKept(e, home, away, selected) then rest + [e] else rest
  }

  /** An empty selection of shot types or results filters nothing. */
  predicate Shown(e: Event, types: set<int>, results: set<int>) {
    (types == {} || e.shotType in types) && (results == {} || e.shotResult in results)
  }

  /** The shown shots: the defender list narrowed by type and result. */
  function FilterShown(shots: seq<Event>, types: set<int>, results: set<int>): (r: seq<Event>)
    ensures |r| <= |shots|
    ensures forall e :: e in r <==> e in shots && Shown(e, types, results)
    ensures forall e :: multiset(r)[e] == if Shown(e, types, results) then multiset(shots)[e] else 0
    decreases |shots|
  {
    if |shots| == 0 then []
    else
      var rest := FilterShown(shots[..|shots| - 1], types, results);
      var e := shots[|shots| - 1];
      assert shots == shots[..|shots| - 1] + [e];
      if Shown(e, types, results) then rest + [e] else rest
  }

  /** The number of shots whose result code is one of codes. */
  function CountResults(shots: seq<Event>, codes: set<int>): (n: nat)
    ensures n <= |shots|
    decreases |shots|
  {
    if |shots| == 0 then 0
    else CountResults(shots[..|shots| - 1], codes) + (if shots[|shots| - 1].shotResult in codes then 1 else 0)
  }

  /** The panel's result groups. */
  function MadeCodes(): set<int> { {1, 2, 5} }
  function MissedCodes(): set<int> { {0, 3, 4} }
  function BlockedCodes(): set<int> { {3} }
  function FoulCodes(): set<int> { {4, 5} }

  datatype DefenderSummary = DefenderSummary(shown: nat, total: nat, made: nat, missed: nat, blocked: nat, fouls: nat)

  /** The summary cards and the "shown (total)" line of the panel. */
  function Summary(shots: seq<Event>, home: Team, away: Team, selected: set<DefenderKey>, types: set<int>, results: set<int>): (s: DefenderSummary)
    ensures s.shown <= s.total <= |shots|
    ensures s.made <= s.shown && s.missed <= s.shown && s.blocked <= s.shown && s.fouls <= s.shown
  {
    var defenderShots := DefenderShots(shots, home, away, selected);
    var filtered := FilterShown(defenderShots, types, results);
    DefenderSummary(|filtered|, |defenderShots|,
      CountResults(filtered, MadeCodes()), CountResults(filtered, MissedCodes()),
      CountResults(filtered, BlockedCodes()), CountResults(filtered, FoulCodes()))
  }

  lemma {:induction false} CountDisjoint(shots: seq<Event>, p: set<int>, q: set<int>)
    requires p !! q
    ensures CountResults(shots, p) + CountResults(shots, q) == CountResults(shots, p + q)
    decreases |shots|
  {
    if |shots| > 0 {
      CountDisjoint(shots[..|shots| - 1], p, q);
    }
  }

  lemma {:induction false} CountMonotone(shots: seq<Event>, p: set<int>, q: set<int>)
    requires p <= q
    ensures CountResults(shots, p) <= CountResults(shots, q)
    decreases |shots|
  {
    if |shots| > 0 {
      CountMonotone(shots[..|shots| - 1], p, q);
    }
  }

  lemma {:induction false} CountAll(shots: seq<Event>, p: set<int>)
    requires forall k :: 0 <= k < |shots| ==> shots[k].shotResult in p
    ensures CountResults(shots, p) == |shots|
    decreases |shots|
  {
    if |shots| > 0 {
      CountAll(shots[..|shots| - 1], p);
    }
  }

  /**
   * The summary's counts fit together: made and missed are disjoint groups
   * of the shown shots, so they never add up to more than the shown count;
   * blocked shots are missed shots; fouls are among the shown shots; the
   * shown shots are among the listed ones.
   */
  lemma SummaryConsistent(shots: seq<Event>, home: Team, away: Team, selected: set<DefenderKey>, types: set<int>, results: set<int>)
    ensures
      var s := Summary(shots, home, away, selected, types, results);
      s.made + s.missed <= s.shown && s.blocked <= s.missed && s.fouls <= s.shown && s.shown <= s.total
  {
    var filtered := FilterShown(DefenderShots(shots, home, away, selected), types, results);
    CountDisjoint(filtered, MadeCodes(), MissedCodes());
    CountMonotone(filtered, BlockedCodes(), MissedCodes());
  }

  /** When every shown result code is one of 0..5, each shown shot is made or missed. */
  lemma SummaryMadePlusMissed(shots: seq<Event>, home: Team, away: Team, selected: set<DefenderKey>, types: set<int>, results: set<int>)
    requires ResultCodesKnown(FilterShown(DefenderShots(shots, home, away, selected), types, results))
    ensures
      var s := Summary(shots, home, away, selected, types, results);
      s.made + s.missed == s.shown
  {
    MadeAndMissedCoverCodes(FilterShown(DefenderShots(shots, home, away, selected), types, results));
  }

  /** Every result code is one of the six the feed defines, 0..5. */
  predicate ResultCodesKnown(shots: seq<Event>) {
    forall k :: 0 <= k < |shots| ==> 0 <= shots[k].shotResult <= 5
  }

  lemma MadeAndMissedCoverCodes(shots: seq<Event>)
    requires ResultCodesKnown(shots)
    ensures CountResults(shots, MadeCodes()) + CountResults(shots, MissedCodes()) == |shots|
  {
  }

  /** Every listed shot names a roster player of its defending side. */
  lemma ListedDefendersResolve(shots: seq<Event>, home: Team, away: Team, selected: set<DefenderKey>, e: Event)
    requires e in DefenderShots(shots, home, away, selected)
    ensures NormalizeSlot(e.defender, |TeamBySide(home, away, e.defendingTeam).players|).Some?
    ensures e in shots
  {
  }

  /** With no type or result selected, every listed shot is shown. */
  lemma {:induction false} NoFilterShowsAll(shots: seq<Event>)
    ensures FilterShown(shots, {}, {}) == shots
    decreases |shots|
  {
    if |shots| > 0 {
      NoFilterShowsAll(shots[..|shots| - 1]);
      assert shots == shots[..|shots| - 1] + [shots[|shots| - 1]];
    }
  }
}
