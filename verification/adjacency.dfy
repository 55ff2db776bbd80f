/**
 * Adjacency facts: for every cell and each of its four neighbour offsets, the fact
 * `Adj(x, y, nx, ny)` is asserted when the neighbour lies on the grid.
 */
module AdjacencyRules {
  import opened Seqs
  import opened Propositions
  import opened Formulas
  import opened IndexSpace

  /** The fact for the neighbour of (x, y) at offset d, or nothing when that neighbour is off the grid. */
  function Neighbour(n: nat, x: nat, y: nat, d: (int, int)): seq<Formula> {
    var nx, ny := x + d.0, y + d.1;
    if 0 <= nx < n && 0 <= ny < n then [Var(Adj(x, y, nx, ny))] else []
  }

  function AtCell(n: nat, c: (nat, nat)): seq<Formula> {
    FlatMap(Deltas, (d: (int, int)) => Neighbour(n, c.0, c.1, d))
  }

  /** The loop body over cells as a function of the cell. */
  function AtCellOf(n: nat): ((nat, nat)) -> seq<Formula> {
    (c: (nat, nat)) => AtCell(n, c)
  }

  /** The adjacency facts in loop order: x, y, then the offsets left, right, down, up. */
  function Constraints(n: nat): seq<Formula> {
    FlatMap(Cells(n), AtCellOf(n))
  }

  lemma NeighbourSound(n: nat, x: nat, y: nat, d: (int, int), f: Formula)
    requires x < n && y < n && d in Deltas && f in Neighbour(n, x, y, d)
    ensures f.Var? && f.prop.Adj? && f.prop.x1 == x && f.prop.y1 == y
    ensures AreAdjacent(n, f.prop.x1, f.prop.y1, f.prop.x2, f.prop.y2)
  {
    assert f == Var(Adj(x, y, x + d.0, y + d.1));
    assert Abs(d.0) + Abs(d.1) == 1 by {
      assert d == (-1, 0) || d == (1, 0) || d == (0, -1) || d == (0, 1);
    }
  }

  /** Every emitted fact is a bare Adj proposition between two grid cells at Manhattan distance 1. */
  lemma Sound(n: nat, f: Formula)
    requires f in Constraints(n)
    ensures f.Var? && f.prop.Adj?
    ensures AreAdjacent(n, f.prop.x1, f.prop.y1, f.prop.x2, f.prop.y2)
  {
    FlatMapMembers(Cells(n), AtCellOf(n), f);
    var c: (nat, nat) :| c in Cells(n) && f in AtCell(n, c);
    FlatMapMembers(Deltas, (d: (int, int)) => Neighbour(n, c.0, c.1, d), f);
    var d: (int, int) :| d in Deltas && f in Neighbour(n, c.0, c.1, d);
    NeighbourSound(n, c.0, c.1, d, f);
  }

  /** Every pair of grid cells at Manhattan distance 1 has its fact emitted. */
  lemma Complete(n: nat, x1: nat, y1: nat, x2: nat, y2: nat)
    requires AreAdjacent(n, x1, y1, x2, y2)
    ensures Var(Adj(x1, y1, x2, y2)) in Constraints(n)
  {
    var f := Var(Adj(x1, y1, x2, y2));
    var d: (int, int) := (x2 - x1, y2 - y1);
    assert d in Deltas by {
      if x1 == x2 {
        assert d == (0, -1) || d == (0, 1);
      } else {
        assert d == (-1, 0) || d == (1, 0);
      }
    }
    var byDelta := (d: (int, int)) => Neighbour(n, x1, y1, d);
    assert f in byDelta(d);
    FlatMapMembers(Deltas, byDelta, f);
    assert (x1, y1) in Cells(n) && f in AtCellOf(n)((x1, y1));
    FlatMapMembers(Cells(n), AtCellOf(n), f);
  }

  /** The emitted adjacency is symmetric. */
  lemma Symmetric(n: nat, x1: nat, y1: nat, x2: nat, y2: nat)
    requires Var(Adj(x1, y1, x2, y2)) in Constraints(n)
    ensures Var(Adj(x2, y2, x1, y1)) in Constraints(n)
  {
    Sound(n, Var(Adj(x1, y1, x2, y2)));
    Complete(n, x2, y2, x1, y1);
  }

  /** No cell is asserted adjacent to itself. */
  lemma Irreflexive(n: nat, x: nat, y: nat)
    ensures Var(Adj(x, y, x, y)) !in Constraints(n)
  {
    if Var(Adj(x, y, x, y)) in Constraints(n) {
      Sound(n, Var(Adj(x, y, x, y)));
    }
  }

  /** Under the assignment, every pair of adjacent grid cells has its Adj proposition true. */
  ghost predicate AdjacencyHolds(a: Assignment, n: nat) {
    forall x1: nat, y1: nat, x2: nat, y2: nat :: AreAdjacent(n, x1, y1, x2, y2) ==> a(Adj(x1, y1, x2, y2))
  }

  /** An assignment satisfies the adjacency facts exactly when it makes every adjacent pair adjacent. */
  lemma SatIff(a: Assignment, n: nat)
    ensures Sat(a, Constraints(n)) <==> AdjacencyHolds(a, n)
  {
    if Sat(a, Constraints(n)) {
      forall x1: nat, y1: nat, x2: nat, y2: nat | AreAdjacent(n, x1, y1, x2, y2)
        ensures a(Adj(x1, y1, x2, y2))
      {
        Complete(n, x1, y1, x2, y2);
      }
    }
    if AdjacencyHolds(a, n) {
      forall f | f in Constraints(n) ensures Eval(a, f) {
        Sound(n, f);
      }
    }
  }

  /** The adjacency facts mention only in-range propositions. */
  lemma InRangeOnly(n: nat, turns: nat)
    ensures forall f, v :: f in Constraints(n) && v in Vars(f) ==> InRange(n, turns, v)
  {
    forall f, v | f in Constraints(n) && v in Vars(f) ensures InRange(n, turns, v) {
      Sound(n, f);
    }
  }

  function Indicator(b: bool): nat {
    if b then 1 else 0
  }

  /** How many of the two sides of index i, below and above, lie inside [0, n). */
  function InnerSides(n: nat, i: nat): nat {
    Indicator(i > 0) + Indicator(i + 1 < n)
  }

  /** The number of on-grid neighbours of (x, y): one for each side that is not on the grid's edge. */
  function NeighbourCount(n: nat, x: nat, y: nat): nat {
    InnerSides(n, x) + InnerSides(n, y)
  }

  /** The sum of `InnerSides(n, i)` over i < k, for k <= n, in closed form. */
  function InnerSidesUpTo(n: nat, k: nat): nat
    requires k <= n
  {
    var below := if k == 0 then 0 else k - 1;
    below + (if k < n then k else below)
  }

  lemma InnerSidesStep(n: nat, k: nat)
    requires 0 < k <= n
    ensures InnerSidesUpTo(n, k) == InnerSidesUpTo(n, k - 1) + InnerSides(n, k - 1)
  {
  }

  /** A cell of the grid gets one fact per on-grid neighbour. */
  lemma AtCellCount(n: nat, x: nat, y: nat)
    requires x < n && y < n
    ensures |AtCell(n, (x, y))| == NeighbourCount(n, x, y)
  {
    var h := (d: (int, int)) => Neighbour(n, x, y, d);
    var rest := Deltas[1..];
    assert rest[1..][1..][1..] == [];
    assert FlatMap(rest[1..][1..], h) == h((0, 1)) + FlatMap(rest[1..][1..][1..], h);
    assert FlatMap(rest[1..], h) == h((0, -1)) + FlatMap(rest[1..][1..], h);
    assert FlatMap(rest, h) == h((1, 0)) + FlatMap(rest[1..], h);
    assert FlatMap(Deltas, h) == h((-1, 0)) + FlatMap(rest, h);
  }

  /** The number of facts the inner `y` loop emits for the first m cells of column x. */
  lemma {:induction false} ColumnCount(n: nat, x: nat, m: nat)
    requires x < n && m <= n
    ensures |FlatMap(Column(x, m), AtCellOf(n))| == m * InnerSides(n, x) + InnerSidesUpTo(n, m)
  {
    if m > 0 {
      var last: seq<(nat, nat)> := [(x, m - 1)];
      ColumnCount(n, x, m - 1);
      FlatMapConcat(Column(x, m - 1), last, AtCellOf(n));
      assert FlatMap(last, AtCellOf(n)) == AtCell(n, (x, m - 1)) + FlatMap(last[1..], AtCellOf(n));
      AtCellCount(n, x, m - 1);
      InnerSidesStep(n, m);
      var e := InnerSides(n, x);
      assert m * e == (m - 1) * e + e;
    }
  }

  lemma RowsStep(n: int, k: int, total: int, before: int, e: int)
    ensures ((k - 1) * total + n * before) + (n * e + total) == k * total + n * (before + e)
  {
    assert k * total == (k - 1) * total + total;
    assert n * (before + e) == n * before + n * e;
  }

  /** The number of facts the first k iterations of the `x` loop emit, given each row's count. */
  lemma {:induction false} RowsCount(n: nat, k: nat, rows: nat -> seq<Formula>)
    requires k <= n
    requires forall x: nat :: x < n ==> |rows(x)| == n * InnerSides(n, x) + InnerSidesUpTo(n, n)
    ensures |FlatMap(Range(k), rows)| == k * InnerSidesUpTo(n, n) + n * InnerSidesUpTo(n, k)
  {
    if k > 0 {
      var last: seq<nat> := [k - 1];
      RowsCount(n, k - 1, rows);
      assert Range(k) == Range(k - 1) + last;
      FlatMapConcat(Range(k - 1), last, rows);
      assert FlatMap(last, rows) == rows(k - 1) + FlatMap(last[1..], rows);
      InnerSidesStep(n, k);
      RowsStep(n, k, InnerSidesUpTo(n, n), InnerSidesUpTo(n, k - 1), InnerSides(n, k - 1));
    }
  }

  /** An n by n grid has 2 n (n - 1) adjacent cell pairs, each emitted in both directions. */
  lemma Count(n: nat)
    ensures |Constraints(n)| == 4 * n * (n - 1)
  {
    var rows := (x: nat) => FlatMap(ColumnOf(n)(x), AtCellOf(n));
    assert Cells(n) == FlatMap(Range(n), ColumnOf(n));
    FlatMapFlatMap(Range(n), ColumnOf(n), AtCellOf(n), rows);
    assert Constraints(n) == FlatMap(Range(n), rows);
    forall x: nat | x < n
      ensures |rows(x)| == n * InnerSides(n, x) + InnerSidesUpTo(n, n)
    {
      ColumnCount(n, x, n);
    }
    RowsCount(n, n, rows);
    GridArith(n, InnerSidesUpTo(n, n));
  }

  lemma GridArith(n: nat, total: int)
    requires n > 0 ==> total == 2 * (n - 1)
    ensures n * total + n * total == 4 * n * (n - 1)
  {
  }
}
