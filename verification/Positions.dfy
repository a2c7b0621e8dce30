/** Orders, fills and the position they build up.  Quantities and prices are exact. */
module Positions {
  import opened Basics

  datatype Side = Buy | Sell

  datatype Liquidity = Maker | Taker

  datatype Fill = Fill(id: string, ts: int, side: Side, qty: real, price: real, fee: real, liquidity: Liquidity)

  datatype Fees = Fees(makerBps: real, takerBps: real)

  function FeeOf(fees: Fees, notional: real, liquidity: Liquidity): real {
    notional * (if liquidity == Maker then fees.makerBps else fees.takerBps) / 10000.0
  }

  /** Positive quantity is long, negative is short; `realized` leaves fees out. */
  datatype Pos = Pos(qty: real, entry: real, realized: real, fees: real)

  const FLAT := Pos(0.0, 0.0, 0.0, 0.0)

  function Signed(side: Side, qty: real): real {
    if side == Buy then qty else -qty
  }

  lemma SignedMoves(side: Side, qty: real)
    requires qty > 0.0
    ensures (side == Buy <==> Signed(side, qty) > 0.0) && Signed(side, qty) != 0.0
    ensures Abs(Signed(side, qty)) == qty
  {
  }

  predicate Adds(held: real, signed: real) {
    held == 0.0 || (held > 0.0) == (signed > 0.0)
  }

  function Min(a: real, b: real): real {
    if a < b then a else b
  }

  /** Average price of a position made of two parts. */
  function Average(entry: real, held: real, price: real, qty: real, total: real): real
    requires total != 0.0
  {
    (entry * held + price * qty) / total
  }

  /** What closing (part of) a position of signed size `held` realizes. */
  function Won(held: real, entry: real, qty: real, price: real): real {
    Min(qty, Abs(held)) * (price - entry) * (if held > 0.0 then 1.0 else -1.0)
  }

  function Applied(p: Pos, side: Side, qty: real, price: real, fee: real): Pos
    requires qty > 0.0
  {
    var signed := Signed(side, qty);
    var total := p.qty + signed;
    if Adds(p.qty, signed) then
      Pos(total, Average(p.entry, Abs(p.qty), price, qty, Abs(total)), p.realized, p.fees + fee)
    else
      Pos(total, if total == 0.0 then 0.0 else if (total > 0.0) == (signed > 0.0) then price else p.entry,
          p.realized + Won(p.qty, p.entry, qty, price), p.fees + fee)
  }

  ghost predicate RealFills(fills: seq<Fill>) {
    forall f :: f in fills ==> f.qty > 0.0
  }

  ghost function PositionOf(fills: seq<Fill>): Pos
    requires RealFills(fills)
  {
    if fills == [] then FLAT
    else
      var f := fills[|fills| - 1];
      assert f in fills;
      Applied(PositionOf(fills[..|fills| - 1]), f.side, f.qty, f.price, f.fee)
  }

  // ---- what the fills amount to, without any position -----------------------

  /** Money paid for a fill; negative when it is a sale. */
  function Paid(side: Side, qty: real, price: real): real {
    Signed(side, qty) * price
  }

  /** Money received for what was sold less money paid for what was bought. */
  ghost function CashOf(fills: seq<Fill>): real {
    if fills == [] then 0.0
    else
      var f := fills[|fills| - 1];
      CashOf(fills[..|fills| - 1]) - Paid(f.side, f.qty, f.price)
  }

  ghost function HeldOf(fills: seq<Fill>): real {
    if fills == [] then 0.0
    else
      var f := fills[|fills| - 1];
      HeldOf(fills[..|fills| - 1]) + Signed(f.side, f.qty)
  }

  ghost function FeesOf(fills: seq<Fill>): real {
    if fills == [] then 0.0 else FeesOf(fills[..|fills| - 1]) + fills[|fills| - 1].fee
  }

  // ---- accounting -----------------------------------------------------------

  /** Realized gains less what the open quantity cost. */
  function Book(p: Pos): real {
    p.realized - p.qty * p.entry
  }

  lemma Divides(x: real, y: real)
    requires y != 0.0
    ensures x / y * y == x
  {
  }

  lemma AddingBooks(q: real, entry: real, side: Side, qty: real, price: real)
    requires qty > 0.0 && Adds(q, Signed(side, qty))
    ensures var total := q + Signed(side, qty);
            && Abs(total) > 0.0
            && total * Average(entry, Abs(q), price, qty, Abs(total)) == q * entry + Signed(side, qty) * price
  {
    var total := q + Signed(side, qty);
    var avg := Average(entry, Abs(q), price, qty, Abs(total));
    Divides(entry * Abs(q) + price * qty, Abs(total));
    assert avg * Abs(total) == entry * Abs(q) + price * qty;
    hide Average;
    if side == Sell {
      assert total * avg == -(avg * Abs(total));
      assert entry * Abs(q) == -(q * entry);
    }
  }

  lemma ClosingBooks(q: real, entry: real, side: Side, qty: real, price: real)
    requires qty > 0.0 && !Adds(q, Signed(side, qty))
    ensures var left := q + Signed(side, qty);
            var entry' := if left == 0.0 then 0.0
                          else if (left > 0.0) == (Signed(side, qty) > 0.0) then price else entry;
            Won(q, entry, qty, price) - left * entry' == -(q * entry) - Signed(side, qty) * price
  {
  }

  lemma ApplyBooks(p: Pos, side: Side, qty: real, price: real, fee: real)
    requires qty > 0.0
    ensures Book(Applied(p, side, qty, price, fee)) == Book(p) - Paid(side, qty, price)
    ensures Applied(p, side, qty, price, fee).qty == p.qty + Signed(side, qty)
    ensures Applied(p, side, qty, price, fee).fees == p.fees + fee
    ensures Applied(p, side, qty, price, fee).qty == 0.0 ==> Applied(p, side, qty, price, fee).entry == 0.0
  {
    hide Won;
    hide Average;
    hide Signed;
    if Adds(p.qty, Signed(side, qty)) {
      AddingBooks(p.qty, p.entry, side, qty, price);
    } else {
      ClosingBooks(p.qty, p.entry, side, qty, price);
    }
  }

  /** What one fill does to a position: adding averages the entry and realizes nothing; closing a part realizes on
      that part and keeps the entry; closing all leaves none; turning over opens the rest at the new price. */
  lemma FillDoes(p: Pos, side: Side, qty: real, price: real, fee: real)
    requires qty > 0.0
    ensures var r, with := Applied(p, side, qty, price, fee), if side == Buy then p.qty >= 0.0 else p.qty <= 0.0;
            var gain := if side == Sell then price - p.entry else p.entry - price;
            && r.qty == (if side == Buy then p.qty + qty else p.qty - qty) && r.fees == p.fees + fee
            && (with ==> r.realized == p.realized && r.entry * Abs(r.qty) == p.entry * Abs(p.qty) + price * qty)
            && (!with && qty < Abs(p.qty) ==> r.realized == p.realized + qty * gain && r.entry == p.entry)
            && (!with && qty == Abs(p.qty) ==> r.realized == p.realized + qty * gain && r.entry == 0.0)
            && (!with && qty > Abs(p.qty) ==> r.realized == p.realized + Abs(p.qty) * gain && r.entry == price)
  {
    var total := p.qty + Signed(side, qty);
    if Adds(p.qty, Signed(side, qty)) {
      Divides(p.entry * Abs(p.qty) + price * qty, Abs(total));
    }
  }

  lemma FlatBooks()
    ensures Book(FLAT) == 0.0
  {
  }

  /** Accounting identity over any sequence of fills: adds, partial closes and reversals. */
  lemma {:induction false} FillsBook(fills: seq<Fill>)
    requires RealFills(fills)
    ensures Book(PositionOf(fills)) == CashOf(fills)
    ensures PositionOf(fills).qty == HeldOf(fills) && PositionOf(fills).fees == FeesOf(fills)
    ensures PositionOf(fills).qty == 0.0 ==> PositionOf(fills).entry == 0.0
  {
    hide Book;
    hide Paid;
    hide Applied;
    hide Signed;
    if fills == [] {
      FlatBooks();
    } else {
      var n := |fills| - 1;
      var f := fills[n];
      assert f in fills;
      FillsBook(fills[..n]);
      ApplyBooks(PositionOf(fills[..n]), f.side, f.qty, f.price, f.fee);
    }
  }

  function Unrealized(p: Pos, mark: real): real {
    p.qty * (mark - p.entry)
  }

  lemma Marked(p: Pos, mark: real)
    ensures p.realized + Unrealized(p, mark) == Book(p) + p.qty * mark
    ensures p.qty == 0.0 ==> Book(p) == p.realized
  {
    assert p.qty * (mark - p.entry) == p.qty * mark - p.qty * p.entry;
  }

  /** At every mark, realized plus unrealized gains are the cash flow plus the marked position. */
  lemma MarkedToMarket(fills: seq<Fill>, mark: real)
    requires RealFills(fills)
    ensures PositionOf(fills).realized + Unrealized(PositionOf(fills), mark) == CashOf(fills) + HeldOf(fills) * mark
    ensures HeldOf(fills) == 0.0 ==> PositionOf(fills).realized == CashOf(fills)
  {
    hide *;
    FillsBook(fills);
    Marked(PositionOf(fills), mark);
  }

  // ---- the position as it is kept -------------------------------------------

  class Position {
    var qty: real
    var entryPrice: real
    var realizedPnl: real
    var fees: real

    function View(): Pos
      reads this
    {
      Pos(qty, entryPrice, realizedPnl, fees)
    }

    constructor ()
      ensures View() == FLAT
    {
      qty, entryPrice, realizedPnl, fees := 0.0, 0.0, 0.0, 0.0;
    }

    /** Returns what this fill realized, fees left out. */
    method Apply(side: Side, amount: real, price: real, fee: real) returns (realized: real)
      requires amount > 0.0
      modifies this
      ensures View() == Applied(old(View()), side, amount, price, fee)
      ensures realized == realizedPnl - old(realizedPnl)
    {
      hide Signed;
      hide Average;
      hide Won;
      var signed := Signed(side, amount);
      var total := qty + signed;
      realized := 0.0;
      SignedMoves(side, amount);
      if qty == 0.0 || (qty > 0.0) == (signed > 0.0) {
        entryPrice := Average(entryPrice, Abs(qty), price, amount, Abs(total));
        qty := total;
      } else {
        realized := Won(qty, entryPrice, amount, price);
        qty := total;
        if qty == 0.0 {
          entryPrice := 0.0;
        } else if (qty > 0.0) == (signed > 0.0) {
          entryPrice := price;
        }
      }
      realizedPnl := realizedPnl + realized;
      fees := fees + fee;
    }
  }
}
