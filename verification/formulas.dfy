/**
 * Propositional formulas over the game's propositions, built from the operators the
 * rules use: a bare proposition, `~`, `|` and `>>`.
 */
module Formulas {
  import opened Propositions

  datatype Formula =
    | Var(prop: Prop)
    | Not(arg: Formula)
    | Or(left: Formula, right: Formula)
    | Implies(left: Formula, right: Formula)

  /** A truth value for every proposition. */
  type Assignment = Prop -> bool

  function Eval(a: Assignment, f: Formula): bool {
    match f
    case Var(p) => a(p)
    case Not(g) => !Eval(a, g)
    case Or(g, h) => Eval(a, g) || Eval(a, h)
    case Implies(g, h) => !Eval(a, g) || Eval(a, h)
  }

  /** The assignment satisfies every formula of the theory. */
  predicate Sat(a: Assignment, fs: seq<Formula>) {
    forall f :: f in fs ==> Eval(a, f)
  }

  /** The propositions a formula mentions. */
  function Vars(f: Formula): set<Prop> {
    match f
    case Var(p) => {p}
    case Not(g) => Vars(g)
    case Or(g, h) => Vars(g) + Vars(h)
    case Implies(g, h) => Vars(g) + Vars(h)
  }

  /** A formula's value depends only on the propositions it mentions. */
  lemma {:induction false} EvalDependsOnlyOnVars(a: Assignment, b: Assignment, f: Formula)
    requires forall p :: p in Vars(f) ==> a(p) == b(p)
    ensures Eval(a, f) == Eval(b, f)
  {
    match f
    case Var(p) =>
    case Not(g) => EvalDependsOnlyOnVars(a, b, g);
    case Or(g, h) =>
      EvalDependsOnlyOnVars(a, b, g);
      EvalDependsOnlyOnVars(a, b, h);
    case Implies(g, h) =>
      EvalDependsOnlyOnVars(a, b, g);
      EvalDependsOnlyOnVars(a, b, h);
  }
}
