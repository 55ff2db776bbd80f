# Battleship constraint theory

This project models the core of `run.py`, which encodes a two-player battleship game as a propositional theory for the bauhaus library. The model covers two things.

- **The proposition kinds and their names.** There are ten kinds: `BasicPropositions`, ship-at-cell, bumped, movable, adjacency, shot, hit, miss, sunk and turn. Each one's `_prop_name` renderer becomes `Propositions.Name`. The module also has a decoder that reads a name back into the typed proposition. The round trip through that decoder proves that no two propositions share a name.
- **The four rule-generation loops.** These are ship placement, adjacency facts, shots and turns. Each loop is written as a sequence of `Formulas.Formula`, built with a `FlatMap` per nested loop, in the script's own order. The configuration is a 5 by 5 grid, players `[1, 2]`, ships `['A', 'B']` and `range(3)` turns. The generators take the grid size and the turn count as parameters, and `Theory.Example` instantiates them with the script's values.

Each rule group has three lemmas:
- `Sound`: every emitted constraint is the rule of an in-range index tuple.
- `Complete`: every such rule is emitted.
- `SatIff`: an assignment satisfies the group exactly when a plain predicate over its indices holds.

Groups also have count lemmas and "mentions only in-range propositions" lemmas.

Assignments are total maps from typed propositions to booleans. bauhaus keys its variables by name. `Propositions.NameInjective` is why keying by the typed proposition gives the same theory.

Modules, in dependency order:
- `Options`, `Seqs`, `Decimal`: general-purpose helpers.
- `Propositions`: the kinds, names and decoder.
- `Formulas`: the formula language.
- `IndexSpace`: players, ships, grid, opponent, adjacency.
- `PlacementRules`, `AdjacencyRules`, `ShotRules`, `TurnRules`: the four rule groups.
- `Theory`: the whole theory.

The model follows the code where it departs from a full battleship rule set:

- **Hit rule.** A full rule set would resolve a hit against the opponent's position before the shooting turn, and against any of the opponent's ships. The code requires the opponent's ship `'A'` at the same cell in the same turn (`run.py:153`).
- **Exactly-one rules.** A full rule set would require exactly one turn holder per turn, at most one shot per player and turn, and exactly one outcome per shot. The code emits only implications and unit adjacency facts (`run.py:141`). `Theory.NoExclusivity` shows the consequence on any grid of side at least 2 with at least one turn: one model gives both players the same turn, answers one shot with both a hit and a miss, and has two shots by one player in one turn.

## Model

| member | source | states |
|---|---|---|
| Propositions.DecodeName | run.py:13-116 | The name of any proposition of any kind decodes back to that same proposition. |
| Propositions.NameInjective | run.py:13-116 | Two propositions with the same name are equal, within a kind and across kinds. |
| Propositions.DecodeBasicName | run.py:18-19 | A name `A.<data>` reads back to the basic proposition with that data. |
| Propositions.DecodeShipAtName | run.py:30-31 | A ship-at-cell name reads back to its player, ship, cell and turn. |
| Propositions.DecodeBumpedName | run.py:42-43 | A bumped name reads back to its player, ship, cell and turn. |
| Propositions.DecodeMovableName | run.py:52-53 | A movable name reads back to its player, ship and turn. |
| Propositions.DecodeAdjName | run.py:63-64 | An adjacency name reads back to its two cells, in order. |
| Propositions.DecodeShotName | run.py:74-75 | A shot name reads back to its player, cell and turn. |
| Propositions.DecodeHitName | run.py:85-86 | A hit name reads back to its player, cell and turn. |
| Propositions.DecodeMissName | run.py:96-97 | A miss name reads back to its player, cell and turn. |
| Propositions.DecodeSunkName | run.py:106-107 | A sunk name reads back to its player, ship and turn. |
| Propositions.DecodeTurnName | run.py:115-116 | A turn name reads back to its player and turn. |
| Decimal.ParseNatRoundTrip | run.py:31 | Reading a number from a rendered index followed by a non-digit gives back the index and leaves exactly the rest. |
| Decimal.NatStrInjective | run.py:31 | Different indices render to different digit strings. |
| IndexSpace.Enumerated | run.py:121-122 | The player list `[1, 2]` and the ship list `['A', 'B']` hold every player and every ship. |
| IndexSpace.Opponent | run.py:145 | `3 - p` is again a player (1 or 2), and it is never p. |
| IndexSpace.OpponentInvolutive | run.py:145 | The opponent of the opponent is the player. |
| IndexSpace.Cells | run.py:129-130 | The nested x, y loops visit exactly the cells with both coordinates below the grid size: n * n of them. |
| Seqs.DropLastRange | run.py:156 | `turns[:-1]` holds exactly the turns t for which t + 1 is still a turn. |
| PlacementRules.RuleMeaning | run.py:132 | A placement constraint holds exactly when the ship is not both at the cell and bumped there. |
| PlacementRules.RuleVars | run.py:132 | A placement constraint mentions exactly the ship-at and bumped propositions of its indices. |
| PlacementRules.Complete | run.py:126-133 | The rule of every player, ship, in-range turn and on-grid cell is emitted. |
| PlacementRules.Sound | run.py:126-133 | Every emitted placement constraint is the rule of some player, ship, in-range turn and on-grid cell. |
| PlacementRules.SatIff | run.py:126-133 | An assignment satisfies the placement constraints exactly when no ship is both at and bumped from a cell at any in-range index. |
| PlacementRules.Count | run.py:126-133 | The placement loop emits 4 * turns * n * n constraints. |
| PlacementRules.InRangeOnly | run.py:126-133 | Placement constraints mention only players 1 and 2, on-grid cells and in-range turns. |
| AdjacencyRules.Sound | run.py:136-141 | Every adjacency fact joins two on-grid cells at Manhattan distance 1. |
| AdjacencyRules.Complete | run.py:136-141 | Every ordered pair of on-grid cells at Manhattan distance 1 has its fact emitted. |
| AdjacencyRules.Symmetric | run.py:136-141 | If the fact for (a, b) is emitted, so is the fact for (b, a). |
| AdjacencyRules.Irreflexive | run.py:136-141 | No cell is asserted adjacent to itself. |
| AdjacencyRules.SatIff | run.py:136-141 | An assignment satisfies the adjacency facts exactly when it makes every adjacent on-grid pair true. |
| AdjacencyRules.Count | run.py:136-141 | The adjacency loop emits 4 * n * (n - 1) facts: each of the 2n(n-1) grid edges, once in each direction. |
| AdjacencyRules.InRangeOnly | run.py:136-141 | Adjacency facts mention only on-grid cells. |
| ShotRules.ShotRuleMeaning | run.py:149-152 | A shot constraint holds exactly when the shot by p has a hit or a miss recorded for the opponent at the same cell and turn. |
| ShotRules.HitRuleMeaning | run.py:150-153 | A hit constraint holds exactly when a hit recorded for the opponent has the opponent's ship `'A'` at that cell in that turn. |
| ShotRules.RuleVars | run.py:149-153 | The two constraints mention only the shot, the opponent's hit and miss, and the opponent's ship `'A'` at those indices. |
| ShotRules.Complete | run.py:144-153 | Both constraints of every player, in-range turn and on-grid cell are emitted. |
| ShotRules.Sound | run.py:144-153 | Every emitted shot constraint is one of the two rules of some player, in-range turn and on-grid cell. |
| ShotRules.SatIff | run.py:144-153 | An assignment satisfies the shot constraints exactly when every in-range shot has an outcome and every hit has ship `'A'` under it. |
| ShotRules.HitNeedsShipA | run.py:153 | In every model, a hit recorded for either player at an in-range index has that player's ship `'A'` on the cell in that turn. |
| ShotRules.Count | run.py:144-153 | The shot loop emits 4 * turns * n * n constraints. |
| ShotRules.InRangeOnly | run.py:144-153 | Shot constraints mention only players 1 and 2, on-grid cells and in-range turns. |
| TurnRules.RuleMeaning | run.py:159 | A turn constraint holds exactly when p's turn at t is followed by the opponent's turn at t + 1. |
| TurnRules.RuleVars | run.py:159 | A turn constraint mentions exactly p's turn at t and the opponent's turn at t + 1. |
| TurnRules.Complete | run.py:156-159 | The rule of every player at every turn that has a successor is emitted. |
| TurnRules.Sound | run.py:156-159 | Every emitted turn constraint belongs to a turn t with t + 1 still in range. |
| TurnRules.SatIff | run.py:156-159 | An assignment satisfies the turn constraints exactly when every turn holder before the last turn hands over to the opponent. |
| TurnRules.Count | run.py:156-159 | The turn loop emits 2 * (turns - 1) constraints, and none when there are no turns. |
| TurnRules.InRangeOnly | run.py:156-159 | Turn constraints mention only turn propositions, and t + 1 never passes the last turn. |
| TurnRules.HolderParity | run.py:158-159 | Handing the turn to the opponent k times gives p back when k is even, and the opponent when k is odd. |
| TurnRules.Alternation | run.py:156-159 | In every model, if p holds turn t0, then turn t0 + k is held by p for even k and by the opponent for odd k, possibly together with the other player (see `Theory.NoExclusivity`). |
| Theory.SatIff | run.py:125-159 | An assignment satisfies the whole theory exactly when it meets the placement, adjacency, shot and turn predicates together. |
| Theory.Count | run.py:125-159 | The theory's size is the sum of the four groups' sizes. |
| Theory.ExampleCount | run.py:120-162 | The script's theory has 684 constraints: 300 placement, 80 adjacency, 300 shot, 4 turn. |
| Theory.InRangeOnly | run.py:120-159 | Every proposition the theory mentions lies in the configured index space. |
| Theory.OutOfRangeIsFree | run.py:120-159 | Changing the value of a proposition outside the index space keeps any model a model. |
| Theory.GridAdjacencyIsFacts | run.py:136-141 | The witness assignment is true on a proposition exactly when that proposition is one of the emitted adjacency facts. |
| Theory.Satisfiable | run.py:161-172 | The theory is satisfiable for every grid size and turn count: making exactly the emitted adjacency facts true and every other proposition false is a model. |
| Theory.NoExclusivity | run.py:141-159 | On a grid of side at least 2 with at least one turn, one model makes both players hold the first turn, answers one shot with a hit and a miss, and has two shots by one player in one turn, all at in-range propositions. |

## Left out

- The bauhaus `Encoding`, the `@proposition` registration and `add_constraint` bookkeeping: the theory is modelled as the ordered sequence of the constraints the loops add.
- `compile()`, the kissat backend selection, `satisfiable()`, `solve()` and `count_solutions()`: these call into the solver library. In their place, `Theory.Satisfiable` and `Theory.NoExclusivity` each give an explicit model, and `Theory.SatIff` characterises every model.
- `likelihood` (imported at `run.py:3`, called at `run.py:180`): a floating-point query into the solver library. The script never reaches the call (see the next item).
- The reporting loop at `run.py:176-180`: it only prints. Its list `[a,b,c,x,y,z]` uses `a`, `b`, `c` and `z`, which the script never defines. `x` and `y` are left over at 4 from the shot loop at `run.py:147-148`, because Python loop variables outlive their loop. Building the list raises `NameError` on `a` right after the header line, so no likelihood is ever printed.
- `BasicPropositions`, the movable and the sunk kinds appear in no rule. Only their names are modelled.
- `BasicPropositions` data is modelled as the string it renders to, because the script gives it no type.
- Indices are unbounded naturals, because the loops only produce `range` values and `3 - p` of a player.
