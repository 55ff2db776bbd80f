/**
 * The typed propositions of the battleship encoding and the names they render to.
 * Each proposition class of the game is one constructor; its index tuple is the
 * constructor's fields. `Name` renders a proposition the way its `_prop_name` does,
 * and `Decode` reads a name back, so that distinct propositions never share a name.
 */
module Propositions {
  import opened Options
  import opened Decimal

  /** The ship identifiers used by the rules, rendered as the one-letter strings 'A' and 'B'. */
  datatype ShipId = A | B

  datatype Prop =
    | Basic(data: string)
    | ShipAt(player: nat, ship: ShipId, x: nat, y: nat, t: nat)
    | Bumped(player: nat, ship: ShipId, x: nat, y: nat, t: nat)
    | Movable(player: nat, ship: ShipId, t: nat)
    | Adj(x1: nat, y1: nat, x2: nat, y2: nat)
    | Shot(player: nat, x: nat, y: nat, t: nat)
    | Hit(player: nat, x: nat, y: nat, t: nat)
    | Miss(player: nat, x: nat, y: nat, t: nat)
    | Sunk(player: nat, ship: ShipId, t: nat)
    | Turn(player: nat, t: nat)

  function ShipLetter(s: ShipId): string {
    match s
    case A => "A"
    case B => "B"
  }

  // The renderers below nest `+` to the right, so that a name is always a literal
  // prefix followed by the rest of the name.

  /** The common tail `_(x,y)_Turn<t>` of the cell-and-turn kinds. */
  function CellTurnName(x: nat, y: nat, t: nat): string {
    "_(" + (NatStr(x) + ("," + (NatStr(y) + (")_Turn" + NatStr(t)))))
  }

  /** The name each proposition kind renders to. */
  function Name(p: Prop): string {
    match p
    case Basic(data) => "A." + data
    case ShipAt(pl, s, x, y, t) => "ship" + (NatStr(pl) + ("_" + (ShipLetter(s) + CellTurnName(x, y, t))))
    case Bumped(pl, s, x, y, t) => "Bumped" + (NatStr(pl) + ("_" + (ShipLetter(s) + CellTurnName(x, y, t))))
    case Movable(pl, s, t) => "Ship" + (NatStr(pl) + ("_Movable_" + (ShipLetter(s) + ("_Turn" + NatStr(t)))))
    case Adj(x1, y1, x2, y2) =>
      "Adj_" + (NatStr(x1) + ("," + (NatStr(y1) + ("_" + (NatStr(x2) + ("," + NatStr(y2)))))))
    case Shot(pl, x, y, t) => "Shot" + (NatStr(pl) + CellTurnName(x, y, t))
    case Hit(pl, x, y, t) => "Hit" + (NatStr(pl) + CellTurnName(x, y, t))
    case Miss(pl, x, y, t) => "Miss" + (NatStr(pl) + CellTurnName(x, y, t))
    case Sunk(pl, s, t) => "Sunk" + (NatStr(pl) + ("_" + (ShipLetter(s) + ("_Turn" + NatStr(t)))))
    case Turn(pl, t) => "Turn" + (NatStr(pl) + ("_t" + NatStr(t)))
  }

  /** Strips the literal `lit` from the front of `s`, failing when `s` does not start with it. */
  function Lit(s: string, lit: string): (r: Option<string>)
    ensures r.Some? ==> s == lit + r.value
  {
    if |lit| == 0 then Some(s)
    else if |s| > 0 && s[0] == lit[0] then
      var r := Lit(s[1..], lit[1..]);
      assert r.Some? ==> s == [s[0]] + s[1..] && lit == [lit[0]] + lit[1..];
      r
    else None
  }

  lemma {:induction false} LitRoundTrip(lit: string, rest: string)
    ensures Lit(lit + rest, lit) == Some(rest)
  {
    if |lit| > 0 {
      assert (lit + rest)[0] == lit[0];
      assert (lit + rest)[1..] == lit[1..] + rest;
      LitRoundTrip(lit[1..], rest);
    } else {
      assert lit + rest == rest;
    }
  }

  function ParseShip(s: string): Option<(ShipId, string)> {
    if |s| > 0 && s[0] == 'A' then Some((A, s[1..]))
    else if |s| > 0 && s[0] == 'B' then Some((B, s[1..]))
    else None
  }

  function ParseEnd(s: string): Option<()> {
    if s == [] then Some(()) else None
  }

  /** Reads back `CellTurnName`, which must end the string. */
  function DecodeCellTurn(s: string): Option<(nat, nat, nat)> {
    var s1 :- Lit(s, "_(");
    var x :- ParseNat(s1);
    var s2 :- Lit(x.1, ",");
    var y :- ParseNat(s2);
    var s3 :- Lit(y.1, ")_Turn");
    var t :- ParseNat(s3);
    var _ :- ParseEnd(t.1);
    Some((x.0, y.0, t.0))
  }

  /** Reads `<prefix><player>_<ship>_(x,y)_Turn<t>`. */
  function DecodePlayerShipCell(s: string, prefix: string): Option<(nat, ShipId, nat, nat, nat)> {
    var s1 :- Lit(s, prefix);
    var p :- ParseNat(s1);
    var s2 :- Lit(p.1, "_");
    var ship :- ParseShip(s2);
    var c :- DecodeCellTurn(ship.1);
    Some((p.0, ship.0, c.0, c.1, c.2))
  }

  /** Reads `<prefix><player>(x,y)_Turn<t>` with the cell tail. */
  function DecodePlayerCell(s: string, prefix: string): Option<(nat, nat, nat, nat)> {
    var s1 :- Lit(s, prefix);
    var p :- ParseNat(s1);
    var c :- DecodeCellTurn(p.1);
    Some((p.0, c.0, c.1, c.2))
  }

  /** Reads `<prefix><player><middle><ship>_Turn<t>`. */
  function DecodePlayerShipTurn(s: string, prefix: string, middle: string): Option<(nat, ShipId, nat)> {
    var s1 :- Lit(s, prefix);
    var p :- ParseNat(s1);
    var s2 :- Lit(p.1, middle);
    var ship :- ParseShip(s2);
    var s3 :- Lit(ship.1, "_Turn");
    var t :- ParseNat(s3);
    var _ :- ParseEnd(t.1);
    Some((p.0, ship.0, t.0))
  }

  function DecodeBasic(s: string): Option<Prop> {
    var data :- Lit(s, "A.");
    Some(Basic(data))
  }

  function DecodeShipAt(s: string): Option<Prop> {
    var r :- DecodePlayerShipCell(s, "ship");
    Some(ShipAt(r.0, r.1, r.2, r.3, r.4))
  }

  function DecodeBumped(s: string): Option<Prop> {
    var r :- DecodePlayerShipCell(s, "Bumped");
    Some(Bumped(r.0, r.1, r.2, r.3, r.4))
  }

  function DecodeMovable(s: string): Option<Prop> {
    var r :- DecodePlayerShipTurn(s, "Ship", "_Movable_");
    Some(Movable(r.0, r.1, r.2))
  }

  function DecodeAdj(s: string): Option<Prop> {
    var s1 :- Lit(s, "Adj_");
    var x1 :- ParseNat(s1);
    var s2 :- Lit(x1.1, ",");
    var y1 :- ParseNat(s2);
    var s3 :- Lit(y1.1, "_");
    var x2 :- ParseNat(s3);
    var s4 :- Lit(x2.1, ",");
    var y2 :- ParseNat(s4);
    var _ :- ParseEnd(y2.1);
    Some(Adj(x1.0, y1.0, x2.0, y2.0))
  }

  function DecodeShot(s: string): Option<Prop> {
    var r :- DecodePlayerCell(s, "Shot");
    Some(Shot(r.0, r.1, r.2, r.3))
  }

  function DecodeHit(s: string): Option<Prop> {
    var r :- DecodePlayerCell(s, "Hit");
    Some(Hit(r.0, r.1, r.2, r.3))
  }

  function DecodeMiss(s: string): Option<Prop> {
    var r :- DecodePlayerCell(s, "Miss");
    Some(Miss(r.0, r.1, r.2, r.3))
  }

  function DecodeSunk(s: string): Option<Prop> {
    var r :- DecodePlayerShipTurn(s, "Sunk", "_");
    Some(Sunk(r.0, r.1, r.2))
  }

  function DecodeTurn(s: string): Option<Prop> {
    var s1 :- Lit(s, "Turn");
    var p :- ParseNat(s1);
    var s2 :- Lit(p.1, "_t");
    var t :- ParseNat(s2);
    var _ :- ParseEnd(t.1);
    Some(Turn(p.0, t.0))
  }

  function OrElse(a: Option<Prop>, b: Option<Prop>): Option<Prop> {
    if a.Some? then a else b
  }

  /**
   * Reads a proposition name back into the proposition it names; fails on any other string.
   * The first letter of a name selects the kinds whose prefix starts with it.
   */
  function Decode(s: string): Option<Prop> {
    if |s| == 0 then None
    else match s[0]
      case 'A' => OrElse(DecodeBasic(s), DecodeAdj(s))
      case 's' => DecodeShipAt(s)
      case 'B' => DecodeBumped(s)
      case 'S' => OrElse(DecodeMovable(s), OrElse(DecodeShot(s), DecodeSunk(s)))
      case 'H' => DecodeHit(s)
      case 'M' => DecodeMiss(s)
      case 'T' => DecodeTurn(s)
      case _ => None
  }

  lemma CellTurnRoundTrip(x: nat, y: nat, t: nat)
    ensures DecodeCellTurn(CellTurnName(x, y, t)) == Some((x, y, t))
  {
    var tail := ")_Turn" + NatStr(t);
    var rest := "," + (NatStr(y) + tail);
    LitRoundTrip("_(", NatStr(x) + rest);
    ParseNatRoundTrip(x, rest);
    LitRoundTrip(",", NatStr(y) + tail);
    ParseNatRoundTrip(y, tail);
    LitRoundTrip(")_Turn", NatStr(t));
    ParseNatRoundTrip(t, []);
    assert NatStr(t) + [] == NatStr(t);
  }

  lemma PlayerShipCellRoundTrip(prefix: string, pl: nat, s: ShipId, x: nat, y: nat, t: nat)
    ensures DecodePlayerShipCell(prefix + (NatStr(pl) + ("_" + (ShipLetter(s) + CellTurnName(x, y, t)))), prefix)
         == Some((pl, s, x, y, t))
  {
    var cell := CellTurnName(x, y, t);
    var tail := "_" + (ShipLetter(s) + cell);
    LitRoundTrip(prefix, NatStr(pl) + tail);
    ParseNatRoundTrip(pl, tail);
    LitRoundTrip("_", ShipLetter(s) + cell);
    assert ParseShip(ShipLetter(s) + cell) == Some((s, cell)) by {
      assert (ShipLetter(s) + cell)[1..] == cell;
    }
    CellTurnRoundTrip(x, y, t);
  }

  lemma PlayerCellRoundTrip(prefix: string, pl: nat, x: nat, y: nat, t: nat)
    ensures DecodePlayerCell(prefix + (NatStr(pl) + CellTurnName(x, y, t)), prefix) == Some((pl, x, y, t))
  {
    var cell := CellTurnName(x, y, t);
    LitRoundTrip(prefix, NatStr(pl) + cell);
    ParseNatRoundTrip(pl, cell);
    CellTurnRoundTrip(x, y, t);
  }

  lemma PlayerShipTurnRoundTrip(prefix: string, middle: string, pl: nat, s: ShipId, t: nat)
    requires StopsNumber(middle)
    ensures DecodePlayerShipTurn(prefix + (NatStr(pl) + (middle + (ShipLetter(s) + ("_Turn" + NatStr(t))))), prefix, middle)
         == Some((pl, s, t))
  {
    var turn := "_Turn" + NatStr(t);
    var tail := middle + (ShipLetter(s) + turn);
    assert StopsNumber(tail) by {
      if middle == [] {
        assert tail == ShipLetter(s) + turn;
      } else {
        assert tail[0] == middle[0];
      }
    }
    LitRoundTrip(prefix, NatStr(pl) + tail);
    ParseNatRoundTrip(pl, tail);
    LitRoundTrip(middle, ShipLetter(s) + turn);
    assert ParseShip(ShipLetter(s) + turn) == Some((s, turn)) by {
      assert (ShipLetter(s) + turn)[1..] == turn;
    }
    LitRoundTrip("_Turn", NatStr(t));
    ParseNatRoundTrip(t, []);
    assert NatStr(t) + [] == NatStr(t);
  }

  lemma AdjRoundTrip(x1: nat, y1: nat, x2: nat, y2: nat)
    ensures DecodeAdj(Name(Adj(x1, y1, x2, y2))) == Some(Adj(x1, y1, x2, y2))
  {
    var r4 := "," + NatStr(y2);
    var r3 := "_" + (NatStr(x2) + r4);
    var r2 := "," + (NatStr(y1) + r3);
    LitRoundTrip("Adj_", NatStr(x1) + r2);
    ParseNatRoundTrip(x1, r2);
    LitRoundTrip(",", NatStr(y1) + r3);
    ParseNatRoundTrip(y1, r3);
    LitRoundTrip("_", NatStr(x2) + r4);
    ParseNatRoundTrip(x2, r4);
    LitRoundTrip(",", NatStr(y2));
    ParseNatRoundTrip(y2, []);
    assert NatStr(y2) + [] == NatStr(y2);
  }

  lemma TurnRoundTrip(pl: nat, t: nat)
    ensures DecodeTurn(Name(Turn(pl, t))) == Some(Turn(pl, t))
  {
    var tail := "_t" + NatStr(t);
    LitRoundTrip("Turn", NatStr(pl) + tail);
    ParseNatRoundTrip(pl, tail);
    LitRoundTrip("_t", NatStr(t));
    ParseNatRoundTrip(t, []);
    assert NatStr(t) + [] == NatStr(t);
  }

  /** Which decoder `Decode` hands a string to, by the string's first letters. */
  lemma DecodeSelects(s: string)
    ensures |s| > 0 && s[0] == 's' ==> Decode(s) == DecodeShipAt(s)
    ensures |s| > 0 && s[0] == 'B' ==> Decode(s) == DecodeBumped(s)
    ensures |s| > 0 && s[0] == 'H' ==> Decode(s) == DecodeHit(s)
    ensures |s| > 0 && s[0] == 'M' ==> Decode(s) == DecodeMiss(s)
    ensures |s| > 0 && s[0] == 'T' ==> Decode(s) == DecodeTurn(s)
    ensures |s| > 1 && s[0] == 'A' && s[1] == '.' ==> Decode(s) == DecodeBasic(s)
    ensures |s| > 1 && s[0] == 'A' && s[1] == 'd' ==> Decode(s) == DecodeAdj(s)
    ensures |s| > 2 && s[0] == 'S' && s[1] == 'h' && s[2] == 'i' ==> Decode(s) == DecodeMovable(s)
    ensures |s| > 2 && s[0] == 'S' && s[2] == 'o' ==> Decode(s) == DecodeShot(s)
    ensures |s| > 1 && s[0] == 'S' && s[1] == 'u' ==> Decode(s) == DecodeSunk(s)
  {
    if |s| > 1 && s[0] == 'A' && s[1] == 'd' {
      assert Lit(s, "A.") == None;
    }
    if |s| > 2 && s[0] == 'S' && s[2] == 'o' {
      assert Lit(s, "Ship") == None;
    }
    if |s| > 1 && s[0] == 'S' && s[1] == 'u' {
      assert Lit(s, "Ship") == None;
      assert Lit(s, "Shot") == None;
    }
  }

  lemma DecodeBasicName(data: string)
    ensures Decode(Name(Basic(data))) == Some(Basic(data))
  {
    var n := "A." + data;
    assert Name(Basic(data)) == n;
    DecodeSelects(n);
    LitRoundTrip("A.", data);
  }

  lemma DecodeShipAtName(pl: nat, s: ShipId, x: nat, y: nat, t: nat)
    ensures Decode(Name(ShipAt(pl, s, x, y, t))) == Some(ShipAt(pl, s, x, y, t))
  {
    var n := "ship" + (NatStr(pl) + ("_" + (ShipLetter(s) + CellTurnName(x, y, t))));
    assert Name(ShipAt(pl, s, x, y, t)) == n;
    DecodeSelects(n);
    PlayerShipCellRoundTrip("ship", pl, s, x, y, t);
  }

  lemma DecodeBumpedName(pl: nat, s: ShipId, x: nat, y: nat, t: nat)
    ensures Decode(Name(Bumped(pl, s, x, y, t))) == Some(Bumped(pl, s, x, y, t))
  {
    var n := "Bumped" + (NatStr(pl) + ("_" + (ShipLetter(s) + CellTurnName(x, y, t))));
    assert Name(Bumped(pl, s, x, y, t)) == n;
    DecodeSelects(n);
    PlayerShipCellRoundTrip("Bumped", pl, s, x, y, t);
  }

  lemma DecodeMovableName(pl: nat, s: ShipId, t: nat)
    ensures Decode(Name(Movable(pl, s, t))) == Some(Movable(pl, s, t))
  {
    var n := "Ship" + (NatStr(pl) + ("_Movable_" + (ShipLetter(s) + ("_Turn" + NatStr(t)))));
    assert Name(Movable(pl, s, t)) == n;
    DecodeSelects(n);
    PlayerShipTurnRoundTrip("Ship", "_Movable_", pl, s, t);
  }

  lemma DecodeAdjName(x1: nat, y1: nat, x2: nat, y2: nat)
    ensures Decode(Name(Adj(x1, y1, x2, y2))) == Some(Adj(x1, y1, x2, y2))
  {
    var n := Name(Adj(x1, y1, x2, y2));
    assert n[0] == 'A' && n[1] == 'd';
    DecodeSelects(n);
    AdjRoundTrip(x1, y1, x2, y2);
  }

  lemma DecodeShotName(pl: nat, x: nat, y: nat, t: nat)
    ensures Decode(Name(Shot(pl, x, y, t))) == Some(Shot(pl, x, y, t))
  {
    var n := "Shot" + (NatStr(pl) + CellTurnName(x, y, t));
    assert Name(Shot(pl, x, y, t)) == n;
    assert Decode(n) == DecodeShot(n) by { DecodeSelects(n); }
    assert DecodeShot(n) == Some(Shot(pl, x, y, t)) by { PlayerCellRoundTrip("Shot", pl, x, y, t); }
  }

  lemma DecodeHitName(pl: nat, x: nat, y: nat, t: nat)
    ensures Decode(Name(Hit(pl, x, y, t))) == Some(Hit(pl, x, y, t))
  {
    var n := "Hit" + (NatStr(pl) + CellTurnName(x, y, t));
    assert Name(Hit(pl, x, y, t)) == n;
    assert Decode(n) == DecodeHit(n) by { DecodeSelects(n); }
    assert DecodeHit(n) == Some(Hit(pl, x, y, t)) by { PlayerCellRoundTrip("Hit", pl, x, y, t); }
  }

  lemma DecodeMissName(pl: nat, x: nat, y: nat, t: nat)
    ensures Decode(Name(Miss(pl, x, y, t))) == Some(Miss(pl, x, y, t))
  {
    var n := "Miss" + (NatStr(pl) + CellTurnName(x, y, t));
    assert Name(Miss(pl, x, y, t)) == n;
    assert Decode(n) == DecodeMiss(n) by { DecodeSelects(n); }
    assert DecodeMiss(n) == Some(Miss(pl, x, y, t)) by { PlayerCellRoundTrip("Miss", pl, x, y, t); }
  }

  lemma DecodeSunkName(pl: nat, s: ShipId, t: nat)
    ensures Decode(Name(Sunk(pl, s, t))) == Some(Sunk(pl, s, t))
  {
    var n := "Sunk" + (NatStr(pl) + ("_" + (ShipLetter(s) + ("_Turn" + NatStr(t)))));
    assert Name(Sunk(pl, s, t)) == n;
    DecodeSelects(n);
    PlayerShipTurnRoundTrip("Sunk", "_", pl, s, t);
  }

  lemma DecodeTurnName(pl: nat, t: nat)
    ensures Decode(Name(Turn(pl, t))) == Some(Turn(pl, t))
  {
    var n := "Turn" + (NatStr(pl) + ("_t" + NatStr(t)));
    assert Name(Turn(pl, t)) == n;
    DecodeSelects(n);
    TurnRoundTrip(pl, t);
  }

  /** Every name reads back to the proposition that rendered it. */
  lemma DecodeName(p: Prop)
    ensures Decode(Name(p)) == Some(p)
  {
    match p
    case Basic(data) => DecodeBasicName(data);
    case ShipAt(pl, s, x, y, t) => DecodeShipAtName(pl, s, x, y, t);
    case Bumped(pl, s, x, y, t) => DecodeBumpedName(pl, s, x, y, t);
    case Movable(pl, s, t) => DecodeMovableName(pl, s, t);
    case Adj(x1, y1, x2, y2) => DecodeAdjName(x1, y1, x2, y2);
    case Shot(pl, x, y, t) => DecodeShotName(pl, x, y, t);
    case Hit(pl, x, y, t) => DecodeHitName(pl, x, y, t);
    case Miss(pl, x, y, t) => DecodeMissName(pl, x, y, t);
    case Sunk(pl, s, t) => DecodeSunkName(pl, s, t);
    case Turn(pl, t) => DecodeTurnName(pl, t);
  }

  /** Distinct propositions never share a name, within a kind or across kinds. */
  lemma NameInjective(p: Prop, q: Prop)
    ensures Name(p) == Name(q) ==> p == q
  {
    DecodeName(p);
    DecodeName(q);
  }
}
