/**
 * The finite index space the rules range over: the two players, the ship catalogue,
 * the square grid and the turns, with the grid's 4-neighbour adjacency.
 */
module IndexSpace {
  import opened Seqs
  import opened Propositions

  predicate IsPlayer(p: nat) {
    p == 1 || p == 2
  }

  /** The two players, numbered 1 and 2. */
  type Player = p: nat | IsPlayer(p) witness 1

  const Players: seq<Player> := [1, 2]
  const Ships: seq<ShipId> := [A, B]

  /** The player and ship lists enumerate their types completely. */
  lemma Enumerated()
    ensures forall p: Player :: p in Players
    ensures forall s: ShipId :: s in Ships
  {
    forall p: Player ensures p in Players {
      assert IsPlayer(p);
    }
    forall s: ShipId ensures s in Ships {
      assert s == A || s == B;
    }
  }

  /** The configuration the theory is built for: a 5 by 5 grid and `range(3)` turns. */
  const GridSize: nat := 5
  const TurnCount: nat := 3

  /** The other player, computed as `3 - p`. */
  function Opponent(p: Player): (q: Player)
    ensures q != p
  {
    assert IsPlayer(p);
    3 - p
  }

  lemma OpponentInvolutive(p: Player)
    ensures Opponent(Opponent(p)) == p
  {
  }

  /** The cells (x, 0), ..., (x, n-1): the inner `y` loop for one `x`. */
  function Column(x: nat, n: nat): (r: seq<(nat, nat)>)
    ensures |r| == n
    ensures forall c :: c in r <==> c.0 == x && c.1 < n
  {
    if n == 0 then [] else Column(x, n - 1) + [(x, n - 1)]
  }

  /** The inner loop body as a function of `x`. */
  function ColumnOf(n: nat): nat -> seq<(nat, nat)> {
    (x: nat) => Column(x, n)
  }

  /** Every cell of an n by n grid, row by row: the nested `x`, `y` loops. */
  function Cells(n: nat): (r: seq<(nat, nat)>)
    ensures forall c :: c in r <==> c.0 < n && c.1 < n
    ensures |r| == n * n
  {
    FlatMapConstLength(Range(n), ColumnOf(n), n);
    assert forall c: (nat, nat) :: c in FlatMap(Range(n), ColumnOf(n)) <==> c.0 < n && c.1 < n by {
      forall c: (nat, nat) ensures c in FlatMap(Range(n), ColumnOf(n)) <==> c.0 < n && c.1 < n {
        FlatMapMembers(Range(n), ColumnOf(n), c);
        if c.0 < n {
          assert c.0 in Range(n);
        }
      }
    }
    FlatMap(Range(n), ColumnOf(n))
  }

  /** The four neighbour offsets, in the order the adjacency loop visits them. */
  const Deltas: seq<(int, int)> := [(-1, 0), (1, 0), (0, -1), (0, 1)]

  function Abs(i: int): nat {
    if i < 0 then -i else i
  }

  function Manhattan(x1: nat, y1: nat, x2: nat, y2: nat): nat {
    Abs(x1 - x2) + Abs(y1 - y2)
  }

  /** Two cells of the n by n grid at Manhattan distance exactly 1. */
  predicate AreAdjacent(n: nat, x1: nat, y1: nat, x2: nat, y2: nat) {
    x1 < n && y1 < n && x2 < n && y2 < n && Manhattan(x1, y1, x2, y2) == 1
  }

  /** The proposition's indices lie in the configured index space. */
  predicate InRange(n: nat, turns: nat, p: Prop) {
    match p
    case Basic(_) => false
    case ShipAt(pl, _, x, y, t) => IsPlayer(pl) && x < n && y < n && t < turns
    case Bumped(pl, _, x, y, t) => IsPlayer(pl) && x < n && y < n && t < turns
    case Movable(pl, _, t) => IsPlayer(pl) && t < turns
    case Adj(x1, y1, x2, y2) => x1 < n && y1 < n && x2 < n && y2 < n
    case Shot(pl, x, y, t) => IsPlayer(pl) && x < n && y < n && t < turns
    case Hit(pl, x, y, t) => IsPlayer(pl) && x < n && y < n && t < turns
    case Miss(pl, x, y, t) => IsPlayer(pl) && x < n && y < n && t < turns
    case Sunk(pl, _, t) => IsPlayer(pl) && t < turns
    case Turn(pl, t) => IsPlayer(pl) && t < turns
  }
}
