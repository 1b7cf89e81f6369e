/**
 * Offense tally cells of the shot profile: attempts `a`, made `m`, missed
 * `mi` and blocked `b`, as zeroOffCell, addOffStat and sumOffCells build them.
 */
module OffenseCells {
  import opened ShotCodes

  datatype Cell = Cell(a: nat, m: nat, mi: nat, b: nat)

  /** zeroOffCell: the empty tally. */
  function Zero(): Cell {
    Cell(0, 0, 0, 0)
  }

  /** Every attempt is made, missed or blocked, and exactly one of them. */
  predicate Balanced(c: Cell) {
    c.a == c.m + c.mi + c.b
  }

  /**
   * The tally after one more shot with result code rc: one more attempt,
   * and exactly one of made (codes 1, 2, 5), blocked (code 3) or missed
   * (codes 0, 4 and every unknown code) goes up by one.
   */
  function AddResult(c: Cell, rc: int): (r: Cell)
    ensures r.a == c.a + 1
    ensures r.m >= c.m && r.mi >= c.mi && r.b >= c.b
    ensures r.m + r.mi + r.b == c.m + c.mi + c.b + 1
    ensures r.m > c.m <==> IsMadeResult(rc)
    ensures r.b > c.b <==> IsBlockedResult(rc)
    ensures r.mi > c.mi <==> !IsMadeResult(rc) && !IsBlockedResult(rc)
  {
    if IsMadeResult(rc) then c.(a := c.a + 1, m := c.m + 1)
    else if IsBlockedResult(rc) then c.(a := c.a + 1, b := c.b + 1)
    else if IsMissedResult(rc) then c.(a := c.a + 1, mi := c.mi + 1)
    else c.(a := c.a + 1, mi := c.mi + 1)
  }

  /** Field-wise sum of two tallies. */
  function Plus(x: Cell, y: Cell): Cell {
    Cell(x.a + y.a, x.m + y.m, x.mi + y.mi, x.b + y.b)
  }

  lemma PlusRegroup(p: Cell, q: Cell, r: Cell, s: Cell)
    ensures Plus(Plus(p, q), Plus(r, s)) == Plus(Plus(p, r), Plus(q, s))
  {
  }

  lemma PlusZero(c: Cell)
    ensures Plus(c, Zero()) == c
  {
  }

  /** Recording a shot keeps a tally balanced. */
  lemma AddResultKeepsBalance(c: Cell, rc: int)
    requires Balanced(c)
    ensures Balanced(AddResult(c, rc))
  {
  }

  /** Recording a shot adds the one-shot tally of that result. */
  lemma AddResultIsPlusOne(c: Cell, rc: int)
    ensures AddResult(c, rc) == Plus(c, AddResult(Zero(), rc))
  {
  }

  /**
   * A mutable tally cell, updated in place by addOffStat exactly as the
   * page's `{ a, m, mi, b }` objects are.
   */
  class OffCell {
    var a: nat
    var m: nat
    var mi: nat
    var b: nat

    function Value(): Cell
      reads this
    {
      Cell(a, m, mi, b)
    }

    /** zeroOffCell */
    constructor ()
      ensures Value() == Zero()
    {
      a, m, mi, b := 0, 0, 0, 0;
    }

    /** addOffStat: record one shot with result code resultCode. */
    method AddOffStat(resultCode: int)
      modifies this
      ensures Value() == AddResult(old(Value()), resultCode)
      ensures Balanced(old(Value())) ==> Balanced(Value())
    {
      a := a + 1;
      if IsMadeResult(resultCode) {
        m := m + 1;
      } else if IsBlockedResult(resultCode) {
        b := b + 1;
      } else if IsMissedResult(resultCode) {
        mi := mi + 1;
      } else {
        mi := mi + 1;
      }
    }

    /** Adds each of c's four counts to the matching field of this cell. */
    method Accumulate(c: Cell)
      modifies this
      ensures Value() == Plus(old(Value()), c)
    {
      a := a + c.a;
      m := m + c.m;
      mi := mi + c.mi;
      b := b + c.b;
    }
  }

  /** Every listed type code has a cell. */
  predicate Covers(cells: map<int, Cell>, codes: seq<int>) {
    forall i :: 0 <= i < |codes| ==> codes[i] in cells
  }

  /** The cells of the listed type codes, added up field by field. */
  function SumCells(cells: map<int, Cell>, codes: seq<int>): Cell
    requires Covers(cells, codes)
    decreases |codes|
  {
    if |codes| == 0 then Zero()
    else Plus(SumCells(cells, codes[..|codes| - 1]), cells[codes[|codes| - 1]])
  }

  /** sumOffCells: accumulate the listed cells into a fresh tally. */
  method SumOffCells(cellsByType: map<int, Cell>, typeCodes: seq<int>) returns (out: Cell)
    requires Covers(cellsByType, typeCodes)
    ensures out == SumCells(cellsByType, typeCodes)
  {
    var cell := new OffCell();
    for i := 0 to |typeCodes|
      invariant cell.Value() == SumCells(cellsByType, typeCodes[..i])
    {
      assert typeCodes[..i + 1][..i] == typeCodes[..i];
      cell.Accumulate(cellsByType[typeCodes[i]]);
    }
    assert typeCodes[..|typeCodes|] == typeCodes;
    out := cell.Value();
  }

  /** A sum of balanced cells is balanced. */
  lemma {:induction false} SumCellsBalanced(cells: map<int, Cell>, codes: seq<int>)
    requires forall i :: 0 <= i < |codes| ==> codes[i] in cells && Balanced(cells[codes[i]])
    ensures Balanced(SumCells(cells, codes))
    decreases |codes|
  {
    if |codes| > 0 {
      SumCellsBalanced(cells, codes[..|codes| - 1]);
    }
  }

  /**
   * The game total of the shot profile can be read either way: when every
   * listed cell of w is the sum of the cells of x and y, the sum over w is
   * the sum over x plus the sum over y.
   */
  lemma {:induction false} SumOfPointwisePlus(w: map<int, Cell>, x: map<int, Cell>, y: map<int, Cell>, codes: seq<int>)
    requires Covers(w, codes) && Covers(x, codes) && Covers(y, codes)
    requires forall i :: 0 <= i < |codes| ==> w[codes[i]] == Plus(x[codes[i]], y[codes[i]])
    ensures SumCells(w, codes) == Plus(SumCells(x, codes), SumCells(y, codes))
    decreases |codes|
  {
    if |codes| > 0 {
      var init, last := codes[..|codes| - 1], codes[|codes| - 1];
      assert forall i :: 0 <= i < |init| ==> init[i] == codes[i];
      SumOfPointwisePlus(w, x, y, init);
      PlusRegroup(SumCells(x, init), SumCells(y, init), x[last], y[last]);
    } else {
      PlusZero(Zero());
    }
  }

  /** A sum of empty cells is empty. */
  lemma {:induction false} SumOfZeros(cells: map<int, Cell>, codes: seq<int>)
    requires Covers(cells, codes)
    requires forall i :: 0 <= i < |codes| ==> cells[codes[i]] == Zero()
    ensures SumCells(cells, codes) == Zero()
    decreases |codes|
  {
    if |codes| > 0 {
      var init, last := codes[..|codes| - 1], codes[|codes| - 1];
      assert Covers(cells, init) && forall i :: 0 <= i < |init| ==> cells[init[i]] == Zero() by {
        assert forall i :: 0 <= i < |init| ==> init[i] == codes[i];
      }
      SumOfZeros(cells, init);
      assert cells[last] == Zero();
      PlusZero(Zero());
    }
  }

  /**
   * Recording one shot in the cell of one code changes the sum over a list
   * of distinct codes by that shot exactly when the code is listed.
   */
  lemma {:induction false} SumCellsBump(after: map<int, Cell>, before: map<int, Cell>, codes: seq<int>, bump: bool, target: int, rc: int)
    requires Covers(after, codes) && Covers(before, codes)
    requires forall i, j :: 0 <= i < j < |codes| ==> codes[i] != codes[j]
    requires forall i :: 0 <= i < |codes| ==>
      after[codes[i]] == if bump && codes[i] == target then AddResult(before[codes[i]], rc) else before[codes[i]]
    ensures SumCells(after, codes) ==
      if bump && target in codes then AddResult(SumCells(before, codes), rc) else SumCells(before, codes)
    decreases |codes|
  {
    if |codes| > 0 {
      var init, last := codes[..|codes| - 1], codes[|codes| - 1];
      assert forall i :: 0 <= i < |init| ==> init[i] == codes[i];
      SumCellsBump(after, before, init, bump, target, rc);
      assert target in codes <==> target in init || target == last;
      assert target == last ==> target !in init;
      AddResultPlusLeft(SumCells(before, init), before[last], rc);
      AddResultPlusRight(SumCells(before, init), before[last], rc);
    }
  }

  lemma AddResultPlusLeft(x: Cell, y: Cell, rc: int)
    ensures Plus(AddResult(x, rc), y) == AddResult(Plus(x, y), rc)
  {
  }

  lemma AddResultPlusRight(x: Cell, y: Cell, rc: int)
    ensures Plus(x, AddResult(y, rc)) == AddResult(Plus(x, y), rc)
  {
  }
}
