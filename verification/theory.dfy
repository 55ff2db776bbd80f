/**
 * The whole theory: the four rule groups added in the order the script adds them, for a
 * grid of side n and `range(turns)` turns, and the instance the script builds (5 by 5, 3 turns).
 */
module Theory {
  import opened Propositions
  import opened Formulas
  import opened IndexSpace
  import PlacementRules
  import AdjacencyRules
  import ShotRules
  import TurnRules

  function Constraints(n: nat, turns: nat): seq<Formula> {
    PlacementRules.Constraints(n, turns)
      + AdjacencyRules.Constraints(n)
      + ShotRules.Constraints(n, turns)
      + TurnRules.Constraints(turns)
  }

  /** The theory the script builds. */
  function Example(): seq<Formula> {
    Constraints(GridSize, TurnCount)
  }

  /** What the four rule groups demand of an assignment. */
  ghost predicate RulesHold(a: Assignment, n: nat, turns: nat) {
    && PlacementRules.NeverBumpedWhereItIs(a, n, turns)
    && AdjacencyRules.AdjacencyHolds(a, n)
    && ShotRules.ShotsResolved(a, n, turns)
    && TurnRules.TurnsAlternate(a, turns)
  }

  /** An assignment satisfies the theory exactly when it meets every rule group's demand. */
  lemma SatIff(a: Assignment, n: nat, turns: nat)
    ensures Sat(a, Constraints(n, turns)) <==> RulesHold(a, n, turns)
  {
    PlacementRules.SatIff(a, n, turns);
    AdjacencyRules.SatIff(a, n);
    ShotRules.SatIff(a, n, turns);
    TurnRules.SatIff(a, turns);
  }

  /** The number of constraints, group by group: placement, adjacency, shots, turns. */
  lemma Count(n: nat, turns: nat)
    ensures |Constraints(n, turns)|
         == 4 * turns * (n * n) + 4 * n * (n - 1) + 4 * turns * (n * n) + (if turns == 0 then 0 else 2 * (turns - 1))
  {
    PlacementRules.Count(n, turns);
    AdjacencyRules.Count(n);
    ShotRules.Count(n, turns);
    TurnRules.Count(turns);
  }

  /** The script's theory holds 300 placement, 80 adjacency, 300 shot and 4 turn constraints. */
  lemma ExampleCount()
    ensures |Example()| == 684
  {
    Count(GridSize, TurnCount);
  }

  /** Every proposition the theory mentions lies in the configured index space. */
  lemma InRangeOnly(n: nat, turns: nat)
    ensures forall f, v :: f in Constraints(n, turns) && v in Vars(f) ==> InRange(n, turns, v)
  {
    PlacementRules.InRangeOnly(n, turns);
    AdjacencyRules.InRangeOnly(n, turns);
    ShotRules.InRangeOnly(n, turns);
    TurnRules.InRangeOnly(n, turns);
  }

  function Update(a: Assignment, v: Prop, b: bool): Assignment {
    (q: Prop) => if q == v then b else a(q)
  }

  /** A proposition outside the index space is unconstrained: changing its value keeps a model a model. */
  lemma OutOfRangeIsFree(a: Assignment, n: nat, turns: nat, v: Prop, b: bool)
    requires Sat(a, Constraints(n, turns))
    requires !InRange(n, turns, v)
    ensures Sat(Update(a, v, b), Constraints(n, turns))
  {
    InRangeOnly(n, turns);
    forall f | f in Constraints(n, turns) ensures Eval(Update(a, v, b), f) {
      EvalDependsOnlyOnVars(a, Update(a, v, b), f);
    }
  }

  /** The assignment that makes exactly the Adj propositions of grid-adjacent cell pairs true. */
  function GridAdjacency(n: nat): Assignment {
    (q: Prop) => q.Adj? && AreAdjacent(n, q.x1, q.y1, q.x2, q.y2)
  }

  /** The propositions GridAdjacency makes true are exactly the emitted adjacency facts. */
  lemma GridAdjacencyIsFacts(n: nat)
    ensures forall q :: GridAdjacency(n)(q) <==> Var(q) in AdjacencyRules.Constraints(n)
  {
    forall q ensures GridAdjacency(n)(q) <==> Var(q) in AdjacencyRules.Constraints(n) {
      if GridAdjacency(n)(q) {
        AdjacencyRules.Complete(n, q.x1, q.y1, q.x2, q.y2);
      }
      if Var(q) in AdjacencyRules.Constraints(n) {
        AdjacencyRules.Sound(n, Var(q));
      }
    }
  }

  /** The theory is consistent: making exactly the emitted adjacency facts true and every other proposition false satisfies it. */
  lemma Satisfiable(n: nat, turns: nat)
    ensures Sat(GridAdjacency(n), Constraints(n, turns))
  {
    SatIff(GridAdjacency(n), n, turns);
  }

  /** The assignment that makes every proposition true except the Bumped ones. */
  function AllButBumped(): Assignment {
    (q: Prop) => !q.Bumped?
  }

  /**
   * The theory holds only implications and unit adjacency facts, no exclusivity: on any grid of
   * side at least 2 with at least one turn, one model gives both players the first turn, answers a
   * shot with a hit and a miss at once, and has two shots by one player in one turn, all at
   * propositions inside the index space.
   */
  lemma NoExclusivity(n: nat, turns: nat)
    requires 2 <= n && 1 <= turns
    ensures Sat(AllButBumped(), Constraints(n, turns))
    ensures InRange(n, turns, Turn(1, 0)) && InRange(n, turns, Turn(2, 0))
    ensures InRange(n, turns, Hit(2, 0, 0, 0)) && InRange(n, turns, Miss(2, 0, 0, 0))
    ensures InRange(n, turns, Shot(1, 0, 0, 0)) && InRange(n, turns, Shot(1, 1, 0, 0))
    ensures AllButBumped()(Turn(1, 0)) && AllButBumped()(Turn(2, 0))
    ensures AllButBumped()(Hit(2, 0, 0, 0)) && AllButBumped()(Miss(2, 0, 0, 0))
    ensures AllButBumped()(Shot(1, 0, 0, 0)) && AllButBumped()(Shot(1, 1, 0, 0))
  {
    AllButBumpedIsModel(n, turns);
  }

  lemma AllButBumpedIsModel(n: nat, turns: nat)
    ensures Sat(AllButBumped(), Constraints(n, turns))
  {
    SatIff(AllButBumped(), n, turns);
  }
}
