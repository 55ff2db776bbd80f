/**
 * Shot constraints: a shot by player p at a cell is answered by a hit or a miss recorded
 * for the opponent `3 - p` at that cell and turn, and a hit on the opponent needs the
 * opponent's ship 'A' at that cell in that turn.
 */
module ShotRules {
  import opened Seqs
  import opened Propositions
  import opened Formulas
  import opened IndexSpace

  /** `Shot(p, x, y, t) >> (Hit(o, x, y, t) | Miss(o, x, y, t))` with `o` the opponent. */
  function ShotRule(p: Player, x: nat, y: nat, t: nat): Formula {
    var o := Opponent(p);
    Implies(Var(Shot(p, x, y, t)), Or(Var(Hit(o, x, y, t)), Var(Miss(o, x, y, t))))
  }

  /** `Hit(o, x, y, t) >> ShipAt(o, 'A', x, y, t)` with `o` the opponent. */
  function HitRule(p: Player, x: nat, y: nat, t: nat): Formula {
    var o := Opponent(p);
    Implies(Var(Hit(o, x, y, t)), Var(ShipAt(o, A, x, y, t)))
  }

  lemma ShotRuleMeaning(a: Assignment, p: Player, x: nat, y: nat, t: nat)
    ensures Eval(a, ShotRule(p, x, y, t)) <==>
      (a(Shot(p, x, y, t)) ==> a(Hit(Opponent(p), x, y, t)) || a(Miss(Opponent(p), x, y, t)))
  {
    var o := Opponent(p);
    assert Eval(a, Or(Var(Hit(o, x, y, t)), Var(Miss(o, x, y, t)))) == (a(Hit(o, x, y, t)) || a(Miss(o, x, y, t)));
  }

  lemma HitRuleMeaning(a: Assignment, p: Player, x: nat, y: nat, t: nat)
    ensures Eval(a, HitRule(p, x, y, t)) <==> (a(Hit(Opponent(p), x, y, t)) ==> a(ShipAt(Opponent(p), A, x, y, t)))
  {
  }

  lemma RuleVars(p: Player, x: nat, y: nat, t: nat)
    ensures Vars(ShotRule(p, x, y, t)) == {Shot(p, x, y, t), Hit(Opponent(p), x, y, t), Miss(Opponent(p), x, y, t)}
    ensures Vars(HitRule(p, x, y, t)) == {Hit(Opponent(p), x, y, t), ShipAt(Opponent(p), A, x, y, t)}
  {
    var o := Opponent(p);
    assert Vars(Or(Var(Hit(o, x, y, t)), Var(Miss(o, x, y, t)))) == {Hit(o, x, y, t), Miss(o, x, y, t)};
  }

  /** The two constraints the innermost loop body adds, in order. */
  function AtCell(p: Player, x: nat, y: nat, t: nat): seq<Formula> {
    [ShotRule(p, x, y, t), HitRule(p, x, y, t)]
  }

  function AtTurn(n: nat, p: Player, t: nat): seq<Formula> {
    FlatMap(Cells(n), (c: (nat, nat)) => AtCell(p, c.0, c.1, t))
  }

  function ForPlayer(n: nat, turns: nat, p: Player): seq<Formula> {
    FlatMap(Range(turns), (t: nat) => AtTurn(n, p, t))
  }

  /** The shot constraints in loop order: player, turn, x, y. */
  function Constraints(n: nat, turns: nat): seq<Formula> {
    FlatMap(Players, (p: Player) => ForPlayer(n, turns, p))
  }

  /** Both rules of every in-range index tuple are emitted. */
  lemma Complete(n: nat, turns: nat, p: Player, t: nat, x: nat, y: nat)
    requires t < turns && x < n && y < n
    ensures ShotRule(p, x, y, t) in Constraints(n, turns)
    ensures HitRule(p, x, y, t) in Constraints(n, turns)
  {
    Enumerated();
    var byCell := (c: (nat, nat)) => AtCell(p, c.0, c.1, t);
    var byTurn := (t: nat) => AtTurn(n, p, t);
    var byPlayer := (p: Player) => ForPlayer(n, turns, p);
    assert (x, y) in Cells(n) && t in Range(turns) && p in Players;
    forall f | f in AtCell(p, x, y, t) ensures f in Constraints(n, turns) {
      FlatMapMembers(Cells(n), byCell, f);
      assert f in byCell((x, y));
      FlatMapMembers(Range(turns), byTurn, f);
      assert f in byTurn(t);
      FlatMapMembers(Players, byPlayer, f);
      assert f in byPlayer(p);
    }
  }

  lemma AtTurnSound(n: nat, p: Player, t: nat, f: Formula)
    requires f in AtTurn(n, p, t)
    ensures exists x: nat, y: nat :: x < n && y < n && (f == ShotRule(p, x, y, t) || f == HitRule(p, x, y, t))
  {
    FlatMapMembers(Cells(n), (c: (nat, nat)) => AtCell(p, c.0, c.1, t), f);
    var c: (nat, nat) :| c in Cells(n) && f in AtCell(p, c.0, c.1, t);
    assert f == ShotRule(p, c.0, c.1, t) || f == HitRule(p, c.0, c.1, t);
  }

  /** Every emitted shot constraint is one of the two rules of some in-range index tuple. */
  lemma Sound(n: nat, turns: nat, f: Formula)
    requires f in Constraints(n, turns)
    ensures exists p: Player, t: nat, x: nat, y: nat ::
      t < turns && x < n && y < n && (f == ShotRule(p, x, y, t) || f == HitRule(p, x, y, t))
  {
    FlatMapMembers(Players, (p: Player) => ForPlayer(n, turns, p), f);
    var p: Player :| p in Players && f in ForPlayer(n, turns, p);
    FlatMapMembers(Range(turns), (t: nat) => AtTurn(n, p, t), f);
    var t: nat :| t in Range(turns) && f in AtTurn(n, p, t);
    AtTurnSound(n, p, t, f);
  }

  /**
   * Under the assignment, every in-range shot by p has a hit or a miss for the opponent,
   * and every hit recorded for the opponent has the opponent's ship 'A' on that cell.
   */
  ghost predicate ShotsResolved(a: Assignment, n: nat, turns: nat) {
    forall p: Player, t: nat, x: nat, y: nat :: t < turns && x < n && y < n ==>
      && (a(Shot(p, x, y, t)) ==> a(Hit(Opponent(p), x, y, t)) || a(Miss(Opponent(p), x, y, t)))
      && (a(Hit(Opponent(p), x, y, t)) ==> a(ShipAt(Opponent(p), A, x, y, t)))
  }

  /** An assignment satisfies the shot constraints exactly when every shot and every hit is resolved. */
  lemma SatIff(a: Assignment, n: nat, turns: nat)
    ensures Sat(a, Constraints(n, turns)) <==> ShotsResolved(a, n, turns)
  {
    if Sat(a, Constraints(n, turns)) {
      forall p: Player, t: nat, x: nat, y: nat | t < turns && x < n && y < n
        ensures && (a(Shot(p, x, y, t)) ==> a(Hit(Opponent(p), x, y, t)) || a(Miss(Opponent(p), x, y, t)))
                && (a(Hit(Opponent(p), x, y, t)) ==> a(ShipAt(Opponent(p), A, x, y, t)))
      {
        Complete(n, turns, p, t, x, y);
        ShotRuleMeaning(a, p, x, y, t);
        HitRuleMeaning(a, p, x, y, t);
      }
    }
    if ShotsResolved(a, n, turns) {
      forall f | f in Constraints(n, turns) ensures Eval(a, f) {
        Sound(n, turns, f);
        var p: Player, t: nat, x: nat, y: nat :| t < turns && x < n && y < n &&
          (f == ShotRule(p, x, y, t) || f == HitRule(p, x, y, t));
        ShotRuleMeaning(a, p, x, y, t);
        HitRuleMeaning(a, p, x, y, t);
      }
    }
  }

  /** A hit recorded for any player q needs q's ship 'A' on that cell in that turn. */
  lemma HitNeedsShipA(a: Assignment, n: nat, turns: nat, q: Player, t: nat, x: nat, y: nat)
    requires Sat(a, Constraints(n, turns))
    requires t < turns && x < n && y < n
    ensures a(Hit(q, x, y, t)) ==> a(ShipAt(q, A, x, y, t))
  {
    SatIff(a, n, turns);
    OpponentInvolutive(q);
    var p := Opponent(q);
    assert Opponent(p) == q;
  }

  lemma AtTurnCount(n: nat, p: Player, t: nat)
    ensures |AtTurn(n, p, t)| == 2 * (n * n)
  {
    FlatMapConstLength(Cells(n), (c: (nat, nat)) => AtCell(p, c.0, c.1, t), 2);
  }

  lemma ForPlayerCount(n: nat, turns: nat, p: Player)
    ensures |ForPlayer(n, turns, p)| == turns * (2 * (n * n))
  {
    forall t: nat ensures |AtTurn(n, p, t)| == 2 * (n * n) {
      AtTurnCount(n, p, t);
    }
    FlatMapConstLength(Range(turns), (t: nat) => AtTurn(n, p, t), 2 * (n * n));
  }

  /** Two players, `turns` turns, `n * n` cells, two constraints each. */
  lemma Count(n: nat, turns: nat)
    ensures |Constraints(n, turns)| == 4 * turns * (n * n)
  {
    var k := turns * (2 * (n * n));
    forall p: Player ensures |ForPlayer(n, turns, p)| == k {
      ForPlayerCount(n, turns, p);
    }
    FlatMapConstLength(Players, (p: Player) => ForPlayer(n, turns, p), k);
    CountArith(turns, n * n);
  }

  lemma CountArith(turns: nat, cells: nat)
    ensures 2 * (turns * (2 * cells)) == 4 * turns * cells
  {
  }

  /** The shot constraints mention only in-range propositions. */
  lemma InRangeOnly(n: nat, turns: nat)
    ensures forall f, v :: f in Constraints(n, turns) && v in Vars(f) ==> InRange(n, turns, v)
  {
    forall f, v | f in Constraints(n, turns) && v in Vars(f) ensures InRange(n, turns, v) {
      Sound(n, turns, f);
      var p: Player, t: nat, x: nat, y: nat :| t < turns && x < n && y < n &&
        (f == ShotRule(p, x, y, t) || f == HitRule(p, x, y, t));
      RuleInRange(n, turns, p, x, y, t);
    }
  }

  lemma RuleInRange(n: nat, turns: nat, p: Player, x: nat, y: nat, t: nat)
    requires t < turns && x < n && y < n
    ensures forall v :: v in Vars(ShotRule(p, x, y, t)) ==> InRange(n, turns, v)
    ensures forall v :: v in Vars(HitRule(p, x, y, t)) ==> InRange(n, turns, v)
  {
    RuleVars(p, x, y, t);
  }
}
