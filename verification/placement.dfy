/**
 * Ship placement constraints: for every player, ship, turn and cell, a ship that is
 * at the cell is not bumped there in the same turn.
 */
module PlacementRules {
  import opened Seqs
  import opened Propositions
  import opened Formulas
  import opened IndexSpace

  /** `ShipAt(p, s, x, y, t) >> ~Bumped(p, s, x, y, t)`. */
  function Rule(p: Player, s: ShipId, x: nat, y: nat, t: nat): Formula {
    Implies(Var(ShipAt(p, s, x, y, t)), Not(Var(Bumped(p, s, x, y, t))))
  }

  /** The rule holds exactly when the ship is not both at the cell and bumped there. */
  lemma RuleMeaning(a: Assignment, p: Player, s: ShipId, x: nat, y: nat, t: nat)
    ensures Eval(a, Rule(p, s, x, y, t)) <==> !(a(ShipAt(p, s, x, y, t)) && a(Bumped(p, s, x, y, t)))
  {
    assert Eval(a, Not(Var(Bumped(p, s, x, y, t)))) == !a(Bumped(p, s, x, y, t));
  }

  lemma RuleVars(p: Player, s: ShipId, x: nat, y: nat, t: nat)
    ensures Vars(Rule(p, s, x, y, t)) == {ShipAt(p, s, x, y, t), Bumped(p, s, x, y, t)}
  {
    assert Vars(Not(Var(Bumped(p, s, x, y, t)))) == {Bumped(p, s, x, y, t)};
  }

  function AtTurn(n: nat, p: Player, s: ShipId, t: nat): seq<Formula> {
    FlatMap(Cells(n), (c: (nat, nat)) => [Rule(p, s, c.0, c.1, t)])
  }

  function ForShip(n: nat, turns: nat, p: Player, s: ShipId): seq<Formula> {
    FlatMap(Range(turns), (t: nat) => AtTurn(n, p, s, t))
  }

  function ForPlayer(n: nat, turns: nat, p: Player): seq<Formula> {
    FlatMap(Ships, (s: ShipId) => ForShip(n, turns, p, s))
  }

  /** The placement constraints in loop order: player, ship, turn, x, y. */
  function Constraints(n: nat, turns: nat): seq<Formula> {
    FlatMap(Players, (p: Player) => ForPlayer(n, turns, p))
  }

  /** Every placement rule for an in-range index tuple is emitted. */
  lemma Complete(n: nat, turns: nat, p: Player, s: ShipId, t: nat, x: nat, y: nat)
    requires t < turns && x < n && y < n
    ensures Rule(p, s, x, y, t) in Constraints(n, turns)
  {
    var f := Rule(p, s, x, y, t);
    Enumerated();
    var byCell := (c: (nat, nat)) => [Rule(p, s, c.0, c.1, t)];
    FlatMapMembers(Cells(n), byCell, f);
    assert (x, y) in Cells(n) && f in byCell((x, y));
    var byTurn := (t: nat) => AtTurn(n, p, s, t);
    FlatMapMembers(Range(turns), byTurn, f);
    assert t in Range(turns) && f in byTurn(t);
    var byShip := (s: ShipId) => ForShip(n, turns, p, s);
    FlatMapMembers(Ships, byShip, f);
    assert s in Ships && f in byShip(s);
    var byPlayer := (p: Player) => ForPlayer(n, turns, p);
    FlatMapMembers(Players, byPlayer, f);
    assert p in Players && f in byPlayer(p);
  }

  lemma AtTurnSound(n: nat, p: Player, s: ShipId, t: nat, f: Formula)
    requires f in AtTurn(n, p, s, t)
    ensures exists x: nat, y: nat :: x < n && y < n && f == Rule(p, s, x, y, t)
  {
    FlatMapMembers(Cells(n), (c: (nat, nat)) => [Rule(p, s, c.0, c.1, t)], f);
    var c: (nat, nat) :| c in Cells(n) && f in [Rule(p, s, c.0, c.1, t)];
    assert f == Rule(p, s, c.0, c.1, t);
  }

  lemma ForShipSound(n: nat, turns: nat, p: Player, s: ShipId, f: Formula)
    requires f in ForShip(n, turns, p, s)
    ensures exists t: nat, x: nat, y: nat :: t < turns && x < n && y < n && f == Rule(p, s, x, y, t)
  {
    FlatMapMembers(Range(turns), (t: nat) => AtTurn(n, p, s, t), f);
    var t: nat :| t in Range(turns) && f in AtTurn(n, p, s, t);
    AtTurnSound(n, p, s, t, f);
  }

  /** Every emitted placement constraint is the rule of some in-range index tuple. */
  lemma Sound(n: nat, turns: nat, f: Formula)
    requires f in Constraints(n, turns)
    ensures exists p: Player, s: ShipId, t: nat, x: nat, y: nat ::
      t < turns && x < n && y < n && f == Rule(p, s, x, y, t)
  {
    FlatMapMembers(Players, (p: Player) => ForPlayer(n, turns, p), f);
    var p: Player :| p in Players && f in ForPlayer(n, turns, p);
    FlatMapMembers(Ships, (s: ShipId) => ForShip(n, turns, p, s), f);
    var s: ShipId :| s in Ships && f in ForShip(n, turns, p, s);
    ForShipSound(n, turns, p, s, f);
  }

  /** Under the assignment, no ship is both at a cell and bumped there, at any in-range index. */
  ghost predicate NeverBumpedWhereItIs(a: Assignment, n: nat, turns: nat) {
    forall p: Player, s: ShipId, t: nat, x: nat, y: nat :: t < turns && x < n && y < n ==>
      !(a(ShipAt(p, s, x, y, t)) && a(Bumped(p, s, x, y, t)))
  }

  /** An assignment satisfies the placement constraints exactly when it never has a ship both at and bumped from a cell. */
  lemma SatIff(a: Assignment, n: nat, turns: nat)
    ensures Sat(a, Constraints(n, turns)) <==> NeverBumpedWhereItIs(a, n, turns)
  {
    if Sat(a, Constraints(n, turns)) {
      forall p: Player, s: ShipId, t: nat, x: nat, y: nat | t < turns && x < n && y < n
        ensures !(a(ShipAt(p, s, x, y, t)) && a(Bumped(p, s, x, y, t)))
      {
        Complete(n, turns, p, s, t, x, y);
        RuleMeaning(a, p, s, x, y, t);
      }
    }
    if NeverBumpedWhereItIs(a, n, turns) {
      forall f | f in Constraints(n, turns) ensures Eval(a, f) {
        Sound(n, turns, f);
        var p: Player, s: ShipId, t: nat, x: nat, y: nat :|
          t < turns && x < n && y < n && f == Rule(p, s, x, y, t);
        RuleMeaning(a, p, s, x, y, t);
      }
    }
  }

  lemma AtTurnCount(n: nat, p: Player, s: ShipId, t: nat)
    ensures |AtTurn(n, p, s, t)| == n * n
  {
    FlatMapConstLength(Cells(n), (c: (nat, nat)) => [Rule(p, s, c.0, c.1, t)], 1);
  }

  lemma ForShipCount(n: nat, turns: nat, p: Player, s: ShipId)
    ensures |ForShip(n, turns, p, s)| == turns * (n * n)
  {
    forall t: nat ensures |AtTurn(n, p, s, t)| == n * n {
      AtTurnCount(n, p, s, t);
    }
    FlatMapConstLength(Range(turns), (t: nat) => AtTurn(n, p, s, t), n * n);
  }

  lemma ForPlayerCount(n: nat, turns: nat, p: Player)
    ensures |ForPlayer(n, turns, p)| == 2 * (turns * (n * n))
  {
    forall s: ShipId ensures |ForShip(n, turns, p, s)| == turns * (n * n) {
      ForShipCount(n, turns, p, s);
    }
    FlatMapConstLength(Ships, (s: ShipId) => ForShip(n, turns, p, s), turns * (n * n));
  }

  /** Two players, two ships, `turns` turns and `n * n` cells: one constraint each. */
  lemma Count(n: nat, turns: nat)
    ensures |Constraints(n, turns)| == 4 * turns * (n * n)
  {
    var k := 2 * (turns * (n * n));
    forall p: Player ensures |ForPlayer(n, turns, p)| == k {
      ForPlayerCount(n, turns, p);
    }
    PlayersCount(n, turns, k);
    CountArith(turns, n * n);
  }

  lemma PlayersCount(n: nat, turns: nat, k: nat)
    requires forall p: Player :: |ForPlayer(n, turns, p)| == k
    ensures |Constraints(n, turns)| == 2 * k
  {
    FlatMapConstLength(Players, (p: Player) => ForPlayer(n, turns, p), k);
  }

  lemma CountArith(turns: nat, cells: nat)
    ensures 2 * (2 * (turns * cells)) == 4 * turns * cells
  {
  }

  /** The placement constraints mention only in-range propositions. */
  lemma InRangeOnly(n: nat, turns: nat)
    ensures forall f, v :: f in Constraints(n, turns) && v in Vars(f) ==> InRange(n, turns, v)
  {
    forall f, v | f in Constraints(n, turns) && v in Vars(f) ensures InRange(n, turns, v) {
      Sound(n, turns, f);
      var p: Player, s: ShipId, t: nat, x: nat, y: nat :|
        t < turns && x < n && y < n && f == Rule(p, s, x, y, t);
      RuleInRange(n, turns, p, s, x, y, t);
    }
  }

  lemma RuleInRange(n: nat, turns: nat, p: Player, s: ShipId, x: nat, y: nat, t: nat)
    requires t < turns && x < n && y < n
    ensures forall v :: v in Vars(Rule(p, s, x, y, t)) ==> InRange(n, turns, v)
  {
    RuleVars(p, s, x, y, t);
  }
}
