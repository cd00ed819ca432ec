/**
 * Positions: the net holding of each instrument, derived from a portfolio's trade log and never
 * stored on its own. `PositionsOf` folds the log left to right, keeping one running position per
 * symbol in order of first appearance, and then drops the symbols whose net holding is zero.
 */
module Positions {
  import opened Trades

  datatype Position = Position(symbol: string, quantity: int)

  /** `Position.fromTrade`: the holding that a single trade creates on its own. */
  function FromTrade(t: Trade): (p: Position)
    ensures p.symbol == t.symbol && p.quantity == NetQuantity([t], t.symbol)
    ensures IsValidTrade(t) ==> p.quantity != 0
  {
    assert [t][..0] == [];
    Position(t.symbol, SignedQuantity(t))
  }

  /** At most one position per symbol. */
  predicate UniqueSymbols(ps: seq<Position>) {
    forall i, j :: 0 <= i < j < |ps| ==> ps[i].symbol != ps[j].symbol
  }

  predicate Distinct(ss: seq<string>) {
    forall i, j :: 0 <= i < j < |ss| ==> ss[i] != ss[j]
  }

  /** The symbols the log mentions, each once, in the order they first appear. */
  function FirstAppearance(trades: seq<Trade>): seq<string> {
    if trades == [] then []
    else
      var seen := FirstAppearance(trades[..|trades| - 1]);
      var s := trades[|trades| - 1].symbol;
      if s in seen then seen else seen + [s]
  }

  /** One step of the fold: add the trade to its symbol's running position, or open a new one. */
  function Accumulate(acc: seq<Position>, t: Trade): seq<Position> {
    if acc == [] then [FromTrade(t)]
    else if acc[0].symbol == t.symbol then [Position(t.symbol, acc[0].quantity + SignedQuantity(t))] + acc[1..]
    else [acc[0]] + Accumulate(acc[1..], t)
  }

  /** The running positions after the whole log, zero holdings included. */
  function Tally(trades: seq<Trade>): seq<Position> {
    if trades == [] then [] else Accumulate(Tally(trades[..|trades| - 1]), trades[|trades| - 1])
  }

  /** Drops the positions whose net holding is zero, keeping the order of the rest. */
  function NonZero(ps: seq<Position>): seq<Position> {
    if ps == [] then []
    else (if ps[0].quantity != 0 then [ps[0]] else []) + NonZero(ps[1..])
  }

  /**
   * `positionsOf(portfolio)`: the positions derived from a trade log. They are the reference positions
   * in first-appearance order of their symbols, with zero holdings left out.
   */
  function PositionsOf(trades: seq<Trade>): (r: seq<Position>)
    ensures r == NonZero(NetBySymbol(trades))
  {
    TallyIsNetBySymbol(trades);
    NonZero(Tally(trades))
  }

  /** Reference definition: each first-appearing symbol paired with its net holding over the log. */
  function NetBySymbol(trades: seq<Trade>): seq<Position> {
    var symbols := FirstAppearance(trades);
    seq(|symbols|, i requires 0 <= i < |symbols| => Position(symbols[i], NetQuantity(trades, symbols[i])))
  }

  lemma {:induction false} FirstAppearanceSpec(trades: seq<Trade>)
    ensures Distinct(FirstAppearance(trades))
    ensures forall s :: s in FirstAppearance(trades) <==> Mentions(trades, s)
  {
    if trades != [] {
      var pre := trades[..|trades| - 1];
      var last := trades[|trades| - 1];
      FirstAppearanceSpec(pre);
      forall s ensures Mentions(trades, s) <==> Mentions(pre, s) || last.symbol == s {
        if Mentions(pre, s) {
          var i :| 0 <= i < |pre| && pre[i].symbol == s;
          assert trades[i] == pre[i];
        }
        if Mentions(trades, s) && last.symbol != s {
          var i :| 0 <= i < |trades| && trades[i].symbol == s;
          assert pre[i] == trades[i];
        }
      }
    }
  }

  /** Adding a trade to a symbol that already has a running position updates that position in place. */
  lemma {:induction false} AccumulateExisting(acc: seq<Position>, t: Trade, k: nat)
    requires k < |acc| && acc[k].symbol == t.symbol
    requires forall j :: 0 <= j < k ==> acc[j].symbol != t.symbol
    ensures Accumulate(acc, t) == acc[k := Position(t.symbol, acc[k].quantity + SignedQuantity(t))]
  {
    if k > 0 {
      AccumulateExisting(acc[1..], t, k - 1);
      assert [acc[0]] + acc[1..][k - 1 := Position(t.symbol, acc[k].quantity + SignedQuantity(t))]
          == acc[k := Position(t.symbol, acc[k].quantity + SignedQuantity(t))];
    }
  }

  /** Adding a trade to a symbol with no running position appends a new position at the end. */
  lemma {:induction false} AccumulateNew(acc: seq<Position>, t: Trade)
    requires forall j :: 0 <= j < |acc| ==> acc[j].symbol != t.symbol
    ensures Accumulate(acc, t) == acc + [FromTrade(t)]
  {
    if acc != [] {
      AccumulateNew(acc[1..], t);
      assert [acc[0]] + (acc[1..] + [FromTrade(t)]) == acc + [FromTrade(t)];
    }
  }

  /** One trade more: the reference result for the longer log is one fold step from the shorter one's. */
  lemma NetBySymbolStep(trades: seq<Trade>)
    requires trades != []
    ensures NetBySymbol(trades) == Accumulate(NetBySymbol(trades[..|trades| - 1]), trades[|trades| - 1])
  {
    var pre := trades[..|trades| - 1];
    var t := trades[|trades| - 1];
    FirstAppearanceSpec(pre);
    var seen := FirstAppearance(pre);
    var acc := NetBySymbol(pre);
    if t.symbol in seen {
      var k :| 0 <= k < |seen| && seen[k] == t.symbol;
      AccumulateExisting(acc, t, k);
    } else {
      AccumulateNew(acc, t);
      NetQuantityOfUnmentioned(pre, t.symbol);
    }
  }

  /** The fold computes exactly the reference: one position per first-appearing symbol, holding its net. */
  lemma {:induction false} TallyIsNetBySymbol(trades: seq<Trade>)
    ensures Tally(trades) == NetBySymbol(trades)
  {
    if trades != [] {
      TallyIsNetBySymbol(trades[..|trades| - 1]);
      NetBySymbolStep(trades);
    }
  }

  lemma {:induction false} NonZeroSpec(ps: seq<Position>)
    ensures forall p :: p in NonZero(ps) <==> p in ps && p.quantity != 0
    ensures UniqueSymbols(ps) ==> UniqueSymbols(NonZero(ps))
  {
    if ps != [] {
      var rest := ps[1..];
      NonZeroSpec(rest);
      assert ps == [ps[0]] + rest;
      if UniqueSymbols(ps) {
        assert UniqueSymbols(rest) by {
          forall i, j | 0 <= i < j < |rest| ensures rest[i].symbol != rest[j].symbol {
            assert rest[i] == ps[i + 1] && rest[j] == ps[j + 1];
          }
        }
        forall p | p in NonZero(rest) ensures p.symbol != ps[0].symbol {
          var i :| 0 <= i < |rest| && rest[i] == p;
          assert ps[i + 1] == p;
        }
      }
    }
  }

  /**
   * A position is reported exactly when it holds its symbol's nonzero net quantity, and no symbol is
   * reported twice.
   */
  lemma PositionsOfNetQuantities(trades: seq<Trade>)
    ensures forall p :: p in PositionsOf(trades) <==> p.quantity != 0 && p.quantity == NetQuantity(trades, p.symbol)
    ensures UniqueSymbols(PositionsOf(trades))
  {
    TallyIsNetBySymbol(trades);
    FirstAppearanceSpec(trades);
    var net := NetBySymbol(trades);
    NonZeroSpec(net);
    forall p: Position | p.quantity != 0 && p.quantity == NetQuantity(trades, p.symbol) ensures p in PositionsOf(trades) {
      if !Mentions(trades, p.symbol) {
        NetQuantityOfUnmentioned(trades, p.symbol);
      }
      var symbols := FirstAppearance(trades);
      var i :| 0 <= i < |symbols| && symbols[i] == p.symbol;
      assert net[i] == p;
    }
  }

  /** A log of one trade yields exactly the position `Position.fromTrade` builds from it. */
  lemma PositionsOfSingleTrade(t: Trade)
    requires IsValidTrade(t)
    ensures PositionsOf([t]) == [FromTrade(t)]
  {
    assert [t][..0] == [];
    assert Tally([t]) == [FromTrade(t)];
    assert FromTrade(t).quantity != 0;
    assert [FromTrade(t)][1..] == [];
    assert NonZero([FromTrade(t)]) == [FromTrade(t)] + NonZero([]);
  }
}
