/**
 * Turn constraints: for every turn that has a successor (`turns[:-1]`) and every player,
 * the player's turn is followed by the opponent's turn.
 */
module TurnRules {
  import opened Seqs
  import opened Propositions
  import opened Formulas
  import opened IndexSpace

  /** `Turn(p, t) >> Turn(o, t + 1)` with `o` the opponent. */
  function Rule(p: Player, t: nat): Formula {
    Implies(Var(Turn(p, t)), Var(Turn(Opponent(p), t + 1)))
  }

  lemma RuleMeaning(a: Assignment, p: Player, t: nat)
    ensures Eval(a, Rule(p, t)) <==> (a(Turn(p, t)) ==> a(Turn(Opponent(p), t + 1)))
  {
  }

  lemma RuleVars(p: Player, t: nat)
    ensures Vars(Rule(p, t)) == {Turn(p, t), Turn(Opponent(p), t + 1)}
  {
  }

  function AtTurn(t: nat): seq<Formula> {
    FlatMap(Players, (p: Player) => [Rule(p, t)])
  }

  /** The turn constraints in loop order: turn (all but the last), then player. */
  function Constraints(turns: nat): seq<Formula> {
    FlatMap(DropLast(Range(turns)), (t: nat) => AtTurn(t))
  }

  /** The rule of every player at every turn that has a successor is emitted. */
  lemma Complete(turns: nat, p: Player, t: nat)
    requires t + 1 < turns
    ensures Rule(p, t) in Constraints(turns)
  {
    Enumerated();
    DropLastRange(turns);
    var f := Rule(p, t);
    var byPlayer := (p: Player) => [Rule(p, t)];
    FlatMapMembers(Players, byPlayer, f);
    assert p in Players && f in byPlayer(p);
    var byTurn := (t: nat) => AtTurn(t);
    FlatMapMembers(DropLast(Range(turns)), byTurn, f);
    assert t in DropLast(Range(turns)) && f in byTurn(t);
  }

  /** Every emitted turn constraint is the rule of a player at a turn that has a successor. */
  lemma Sound(turns: nat, f: Formula)
    requires f in Constraints(turns)
    ensures exists p: Player, t: nat :: t + 1 < turns && f == Rule(p, t)
  {
    DropLastRange(turns);
    FlatMapMembers(DropLast(Range(turns)), (t: nat) => AtTurn(t), f);
    var t: nat :| t in DropLast(Range(turns)) && f in AtTurn(t);
    FlatMapMembers(Players, (p: Player) => [Rule(p, t)], f);
    var p: Player :| p in Players && f in [Rule(p, t)];
    assert f == Rule(p, t);
  }

  /** Under the assignment, a player's turn at any turn with a successor is followed by the opponent's turn. */
  ghost predicate TurnsAlternate(a: Assignment, turns: nat) {
    forall p: Player, t: nat :: t + 1 < turns ==> a(Turn(p, t)) ==> a(Turn(Opponent(p), t + 1))
  }

  /** An assignment satisfies the turn constraints exactly when turns alternate. */
  lemma SatIff(a: Assignment, turns: nat)
    ensures Sat(a, Constraints(turns)) <==> TurnsAlternate(a, turns)
  {
    if Sat(a, Constraints(turns)) {
      forall p: Player, t: nat | t + 1 < turns
        ensures a(Turn(p, t)) ==> a(Turn(Opponent(p), t + 1))
      {
        Complete(turns, p, t);
        RuleMeaning(a, p, t);
      }
    }
    if TurnsAlternate(a, turns) {
      forall f | f in Constraints(turns) ensures Eval(a, f) {
        Sound(turns, f);
        var p: Player, t: nat :| t + 1 < turns && f == Rule(p, t);
        RuleMeaning(a, p, t);
      }
    }
  }

  /** Two constraints for each of the `turns - 1` turns that have a successor, none without turns. */
  lemma Count(turns: nat)
    ensures |Constraints(turns)| == if turns == 0 then 0 else 2 * (turns - 1)
  {
    forall t: nat ensures |AtTurn(t)| == 2 {
      FlatMapConstLength(Players, (p: Player) => [Rule(p, t)], 1);
    }
    FlatMapConstLength(DropLast(Range(turns)), (t: nat) => AtTurn(t), 2);
  }

  /**
   * The turn constraints mention only Turn propositions of the two players at turns
   * inside the range: no proposition past the last turn.
   */
  lemma InRangeOnly(n: nat, turns: nat)
    ensures forall f, v :: f in Constraints(turns) && v in Vars(f) ==> v.Turn? && InRange(n, turns, v)
  {
    forall f | f in Constraints(turns) ensures forall v :: v in Vars(f) ==> v.Turn? && InRange(n, turns, v) {
      Sound(turns, f);
      var p: Player, t: nat :| t + 1 < turns && f == Rule(p, t);
      RuleInRange(n, turns, p, t);
    }
  }

  lemma RuleInRange(n: nat, turns: nat, p: Player, t: nat)
    requires t + 1 < turns
    ensures forall v :: v in Vars(Rule(p, t)) ==> v.Turn? && InRange(n, turns, v)
  {
    RuleVars(p, t);
    assert InRange(n, turns, Turn(p, t)) && InRange(n, turns, Turn(Opponent(p), t + 1));
  }

  /** The player who holds the turn k steps after p does, when turns alternate. */
  function Holder(p: Player, k: nat): Player {
    if k == 0 then p else Opponent(Holder(p, k - 1))
  }

  /** Alternation returns the turn to p every second step. */
  lemma {:induction false} HolderParity(p: Player, k: nat)
    ensures Holder(p, k) == if k % 2 == 0 then p else Opponent(p)
  {
    if k > 0 {
      HolderParity(p, k - 1);
      OpponentInvolutive(p);
    }
  }

  /**
   * Hand-over by parity: once player p holds the turn at t0, under any satisfying assignment the
   * turn k steps later is held by p when k is even and by the opponent when k is odd, possibly
   * together with the other player, since nothing makes the turn holder unique.
   */
  lemma {:induction false} Alternation(a: Assignment, turns: nat, p: Player, t0: nat, k: nat)
    requires Sat(a, Constraints(turns))
    requires a(Turn(p, t0))
    requires t0 + k < turns
    ensures a(Turn(if k % 2 == 0 then p else Opponent(p), t0 + k))
  {
    HolderParity(p, k);
    SatIff(a, turns);
    HolderHasTurn(a, turns, p, t0, k);
  }

  lemma {:induction false} HolderHasTurn(a: Assignment, turns: nat, p: Player, t0: nat, k: nat)
    requires TurnsAlternate(a, turns)
    requires a(Turn(p, t0))
    requires t0 + k < turns
    ensures a(Turn(Holder(p, k), t0 + k))
  {
    if k > 0 {
      var q, t := Holder(p, k - 1), t0 + (k - 1);
      HolderHasTurn(a, turns, p, t0, k - 1);
      assert a(Turn(q, t)) ==> a(Turn(Opponent(q), t + 1));
      assert Holder(p, k) == Opponent(q) && t + 1 == t0 + k;
    }
  }
}
