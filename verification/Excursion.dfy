/** What a closed position's price path and risk say about its result. Prices and money are exact reals. */
module Excursion {
  import opened Lists
  import opened Protocol

  /** The part of a built position the enrichment reads. A price of 0 stands for a missing one, as in the source. */
  datatype Trade = Trade(
    id: int, pair: string, long: bool, amount: real, entryPrice: real, exitPrice: real,
    pnl: real, netPnl: real, sl: Option<real>, tp: Option<real>,
    createdAt: Option<int>, closedAt: Option<int>)
  {
    /** How far the price moved in the position's favour. */
    function Move(): real { if long then exitPrice - entryPrice else entryPrice - exitPrice }
  }

  function Abs(x: real): real { if x < 0.0 then -x else x }

  function Min(x: real, y: real): real { if y < x then y else x }

  function Max(x: real, y: real): real { if y > x then y else x }

  /** A missing price, or one that is 0, counts as absent. */
  predicate Present(price: Option<real>) { price.Some? && price.value != 0.0 }

  // Money per unit of price.

  function OwnUnit(t: Trade): Option<real> {
    if t.Move() != 0.0 && t.pnl != 0.0 then Some(Abs(t.pnl / t.Move())) else None
  }

  predicate Rates(t: Trade) { t.pair != "" && t.amount != 0.0 && OwnUnit(t).Some? }

  function Telling(pair: string): Trade -> bool { (t: Trade) => Rates(t) && t.pair == pair }

  /** What a lot is worth by the first position of the pair that says so. */
  function RateOf(trades: seq<Trade>, pair: string): Option<real> {
    var i := First(trades, Telling(pair));
    if i == |trades| then None else Some(LotOf(trades[i]))
  }

  /** What the position says a lot is worth. */
  function LotOf(t: Trade): real
    requires Rates(t)
  {
    OwnUnit(t).value / t.amount
  }

  ghost predicate Tells(rates: map<string, real>, trades: seq<Trade>) {
    forall pair :: Known(rates, pair) == RateOf(trades, pair)
  }

  lemma TellsMore(rates: map<string, real>, trades: seq<Trade>, t: Trade)
    requires Tells(rates, trades)
    ensures Tells(if Rates(t) && t.pair !in rates then rates[t.pair := LotOf(t)] else rates, trades + [t])
  {
    forall pair ensures RateOf(trades + [t], pair)
      == if RateOf(trades, pair).Some? then RateOf(trades, pair)
         else if Rates(t) && t.pair == pair then Some(LotOf(t)) else None {
      FirstGrows(trades, t, Telling(pair));
    }
  }

  method ValuePerLot(trades: seq<Trade>) returns (rates: map<string, real>)
    ensures Tells(rates, trades)
  {
    rates := map[];
    for i := 0 to |trades|
      invariant Tells(rates, trades[..i])
    {
      var t := trades[i];
      assert trades[..i + 1] == trades[..i] + [t];
      TellsMore(rates, trades[..i], t);
      if t.pair == "" || t.pair in rates || t.amount == 0.0 {
        continue;
      }
      var unit := OwnUnit(t);
      if unit.Some? {
        rates := rates[t.pair := unit.value / t.amount];
      }
    }
    assert trades[..|trades|] == trades;
  }

  function ByRate(t: Trade, rate: Option<real>): Option<real> {
    if rate.None? || t.amount == 0.0 then None else Some(rate.value * t.amount)
  }

  function Known(rates: map<string, real>, pair: string): Option<real> {
    if pair in rates then Some(rates[pair]) else None
  }

  function ResolveUnit(t: Trade, rates: map<string, real>): Option<real> {
    if OwnUnit(t).Some? then OwnUnit(t) else ByRate(t, Known(rates, t.pair))
  }

  /** What a price unit is worth to a position: by its own result, or by its pair's rate. */
  function UnitIn(t: Trade, trades: seq<Trade>): Option<real> {
    if OwnUnit(t).Some? then OwnUnit(t) else ByRate(t, RateOf(trades, t.pair))
  }

  lemma ResolveIsUnitIn(t: Trade, trades: seq<Trade>, rates: map<string, real>)
    requires Tells(rates, trades)
    ensures ResolveUnit(t, rates) == UnitIn(t, trades)
  {
    assert Known(rates, t.pair) == RateOf(trades, t.pair);
  }

  /** The position tells what a lot of its pair is worth: it moved, earned or lost something, and has a volume. */
  predicate TellsLot(o: Trade, pair: string) {
    o.pair == pair && pair != "" && o.amount != 0.0 && o.exitPrice != o.entryPrice && o.pnl != 0.0
  }

  /** The first of the positions that tells. */
  predicate FirstToTell(trades: seq<Trade>, pair: string, i: nat) {
    i < |trades| && TellsLot(trades[i], pair) && forall j :: 0 <= j < i ==> !TellsLot(trades[j], pair)
  }

  /**
   What a price unit is worth: what the position's own result over its own move says; else, for a position with a volume,
   what the first telling position of its pair says of a lot, times the volume; else nothing.
   */
  lemma UnitExactly(t: Trade, trades: seq<Trade>)
    ensures t.exitPrice != t.entryPrice && t.pnl != 0.0 ==>
              UnitIn(t, trades) == Some(Abs(t.pnl / (t.exitPrice - t.entryPrice)))
    ensures (t.exitPrice == t.entryPrice || t.pnl == 0.0) && t.amount == 0.0 ==> UnitIn(t, trades).None?
    ensures (t.exitPrice == t.entryPrice || t.pnl == 0.0) && t.amount != 0.0 ==>
              && (UnitIn(t, trades).Some? <==> exists i: nat :: FirstToTell(trades, t.pair, i))
              && forall i: nat :: FirstToTell(trades, t.pair, i) ==>
                   var o := trades[i];
                   UnitIn(t, trades).Some? &&
                   UnitIn(t, trades).value == Abs(o.pnl / (o.exitPrice - o.entryPrice)) / o.amount * t.amount
  {
    OwnUnitExactly(t);
    RateExactly(trades, t.pair);
    if OwnUnit(t).None? && t.amount != 0.0 {
      assert UnitIn(t, trades) == ByRate(t, RateOf(trades, t.pair));
      forall i: nat | FirstToTell(trades, t.pair, i)
        ensures var o := trades[i];
                UnitIn(t, trades).Some? &&
                UnitIn(t, trades).value == Abs(o.pnl / (o.exitPrice - o.entryPrice)) / o.amount * t.amount
      {
        ByTheRate(t, Abs(trades[i].pnl / (trades[i].exitPrice - trades[i].entryPrice)) / trades[i].amount);
      }
    }
  }

  lemma ByTheRate(t: Trade, rate: real)
    requires t.amount != 0.0
    ensures ByRate(t, Some(rate)).Some? && ByRate(t, Some(rate)).value == rate * t.amount
  {
    var known := Some(rate);
    SameProduct(known.value, rate, t.amount);
    assert ByRate(t, known).Some? && ByRate(t, known).value == known.value * t.amount;
  }

  lemma SameProduct(x: real, y: real, k: real)
    requires x == y
    ensures x * k == y * k
  {
  }

  lemma RateExactly(trades: seq<Trade>, pair: string)
    ensures RateOf(trades, pair).Some? <==> exists i: nat :: FirstToTell(trades, pair, i)
    ensures forall i: nat :: FirstToTell(trades, pair, i) ==>
              var o := trades[i];
              RateOf(trades, pair) == Some(Abs(o.pnl / (o.exitPrice - o.entryPrice)) / o.amount)
  {
    var i := First(trades, Telling(pair));
    FirstFound(trades, Telling(pair));
    forall o ensures Telling(pair)(o) <==> TellsLot(o, pair) { OwnUnitExactly(o); }
    if i < |trades| {
      OwnUnitExactly(trades[i]);
      assert FirstToTell(trades, pair, i);
    }
    forall k: nat | FirstToTell(trades, pair, k) ensures i == k {
      assert Telling(pair)(trades[k]);
    }
  }

  lemma OwnUnitExactly(t: Trade)
    ensures OwnUnit(t) == if t.exitPrice != t.entryPrice && t.pnl != 0.0
                          then Some(Abs(t.pnl / (t.exitPrice - t.entryPrice))) else None
  {
    if t.exitPrice != t.entryPrice && t.pnl != 0.0 {
      Quotient(t.pnl, t.Move());
      Quotient(t.pnl, t.exitPrice - t.entryPrice);
    }
  }

  /** Without a move of its own a position of twice the volume has twice the unit, and half the ratio for the same result. */
  lemma TwiceTheVolume(t: Trade, trades: seq<Trade>)
    requires (t.exitPrice == t.entryPrice || t.pnl == 0.0) && UnitIn(t, trades).Some?
    ensures var twice := t.(amount := 2.0 * t.amount);
            && UnitIn(twice, trades).Some? && UnitIn(twice, trades).value == 2.0 * UnitIn(t, trades).value
            && (RR(t, UnitIn(t, trades)).Some? ==>
                  && RR(twice, UnitIn(twice, trades)).Some?
                  && RR(twice, UnitIn(twice, trades)).value == RR(t, UnitIn(t, trades)).value / 2.0)
  {
    var twice := t.(amount := 2.0 * t.amount);
    var rate, unit := RateOf(trades, t.pair).value, UnitIn(t, trades).value;
    TwiceByRate(t, rate);
    assert UnitIn(t, trades) == ByRate(t, Some(rate)) && UnitIn(twice, trades) == ByRate(twice, Some(rate));
    TwiceRR(t, twice, unit, UnitIn(twice, trades).value);
  }

  lemma TwiceByRate(t: Trade, rate: real)
    requires t.amount != 0.0
    ensures var twice := t.(amount := 2.0 * t.amount);
            && ByRate(t, Some(rate)).Some? && ByRate(twice, Some(rate)).Some?
            && ByRate(twice, Some(rate)).value == 2.0 * ByRate(t, Some(rate)).value
  {
    var twice := t.(amount := 2.0 * t.amount);
    TwiceProduct(rate, t.amount);
    ByTheRate(t, rate);
    ByTheRate(twice, rate);
  }

  lemma TwiceProduct(x: real, y: real)
    ensures x * (2.0 * y) == 2.0 * (x * y)
  {
  }

  lemma TwiceRR(t: Trade, twice: Trade, unit: real, more: real)
    requires twice == t.(amount := 2.0 * t.amount) && more == 2.0 * unit
    ensures RR(t, Some(unit)).Some? ==>
              && RR(twice, Some(more)).Some?
              && RR(twice, Some(more)).value == RR(t, Some(unit)).value / 2.0
  {
    if RR(t, Some(unit)).Some? {
      var money := RiskMoney(t, unit);
      assert RiskMoney(twice, more) == 2.0 * money;
      HalfQuotient(t.netPnl, money);
    }
  }

  lemma HalfQuotient(x: real, y: real)
    requires y > 0.0
    ensures x / (2.0 * y) == x / y / 2.0
  {
    var q := x / y;
    assert q * y == x;
    assert (q / 2.0) * (2.0 * y) == x;
  }

  // The order of the positions.

  /** All positions of a pair that tell what a lot is worth say the same. */
  ghost predicate Agree(trades: seq<Trade>, pair: string) {
    forall o, p :: o in trades && p in trades && Telling(pair)(o) && Telling(pair)(p) ==> LotOf(o) == LotOf(p)
  }

  lemma RateIsSomeones(trades: seq<Trade>, pair: string)
    ensures RateOf(trades, pair).Some? <==> exists o :: o in trades && Telling(pair)(o)
    ensures RateOf(trades, pair).Some? ==>
              exists o :: o in trades && Telling(pair)(o) && RateOf(trades, pair) == Some(LotOf(o))
  {
    FirstFound(trades, Telling(pair));
    var i := First(trades, Telling(pair));
    if i < |trades| {
      assert trades[i] in trades;
    }
  }

  lemma SameTrades(a: seq<Trade>, b: seq<Trade>, t: Trade)
    requires multiset(a) == multiset(b)
    ensures t in a <==> t in b
  {
    assert t in multiset(a) <==> t in multiset(b);
  }

  lemma AgreedRate(a: seq<Trade>, b: seq<Trade>, pair: string)
    requires multiset(a) == multiset(b) && Agree(a, pair)
    ensures RateOf(a, pair) == RateOf(b, pair)
  {
    forall t { SameTrades(a, b, t); }
    RateIsSomeones(a, pair);
    RateIsSomeones(b, pair);
  }

  /** The positions with one of them put first. */
  function WithFirst(trades: seq<Trade>, i: nat): seq<Trade>
    requires i < |trades|
  {
    [trades[i]] + trades[..i] + trades[i + 1..]
  }

  lemma FirstTells(trades: seq<Trade>, i: nat, pair: string)
    requires i < |trades| && Telling(pair)(trades[i])
    ensures multiset(WithFirst(trades, i)) == multiset(trades)
    ensures RateOf(WithFirst(trades, i), pair) == Some(LotOf(trades[i]))
  {
    assert trades == trades[..i] + [trades[i]] + trades[i + 1..];
  }

  /** What a price unit is worth to a position does not depend on the order of the positions. */
  ghost predicate UnitIgnoresOrder(t: Trade, trades: seq<Trade>) {
    forall other :: multiset(other) == multiset(trades) ==> UnitIn(t, other) == UnitIn(t, trades)
  }

  /** It does not, exactly if the position has a unit of its own, no amount, or a pair on whose lots all agree. */
  lemma UnitIgnoresOrderExactly(t: Trade, trades: seq<Trade>)
    ensures UnitIgnoresOrder(t, trades) <==> OwnUnit(t).Some? || t.amount == 0.0 || Agree(trades, t.pair)
  {
    if OwnUnit(t).None? && t.amount != 0.0 {
      if Agree(trades, t.pair) {
        forall other | multiset(other) == multiset(trades) ensures UnitIn(t, other) == UnitIn(t, trades) {
          AgreedRate(trades, other, t.pair);
        }
      } else {
        var o, p :| o in trades && p in trades && Telling(t.pair)(o) && Telling(t.pair)(p) && LotOf(o) != LotOf(p);
        var i :| 0 <= i < |trades| && trades[i] == o;
        var k :| 0 <= k < |trades| && trades[k] == p;
        UnitByFirst(t, trades, i, LotOf(o));
        UnitByFirst(t, trades, k, LotOf(p));
        Disagree(t, trades, WithFirst(trades, i), WithFirst(trades, k), LotOf(o), LotOf(p));
      }
    }
  }

  lemma UnitByFirst(t: Trade, trades: seq<Trade>, i: nat, lot: real)
    requires OwnUnit(t).None? && t.amount != 0.0
    requires i < |trades| && Telling(t.pair)(trades[i]) && LotOf(trades[i]) == lot
    ensures multiset(WithFirst(trades, i)) == multiset(trades)
    ensures UnitIn(t, WithFirst(trades, i)) == ByRate(t, Some(lot))
  {
    FirstTells(trades, i, t.pair);
  }

  lemma Disagree(t: Trade, trades: seq<Trade>, a: seq<Trade>, b: seq<Trade>, x: real, y: real)
    requires multiset(a) == multiset(b) == multiset(trades) && x != y && t.amount != 0.0
    requires UnitIn(t, a) == ByRate(t, Some(x)) && UnitIn(t, b) == ByRate(t, Some(y))
    ensures !UnitIgnoresOrder(t, trades)
  {
    OtherProduct(x, y, t.amount);
    assert UnitIn(t, a) != UnitIn(t, b);
  }

  lemma OtherProduct(x: real, y: real, k: real)
    requires x != y && k != 0.0
    ensures x * k != y * k
  {
    if k > 0.0 { Scaled(x, y, k); } else { Scaled(x, y, -k); }
  }

  // Risk and reward.

  function RiskPrice(t: Trade): real
    requires t.sl.Some?
  {
    Abs(t.entryPrice - t.sl.value)
  }

  function RiskMoney(t: Trade, unit: real): real
    requires t.sl.Some?
  {
    RiskPrice(t) * unit
  }

  predicate HasRisk(t: Trade) { Present(t.sl) && t.entryPrice != 0.0 && t.sl.value != t.entryPrice }

  function RRPlanned(t: Trade): Option<real> {
    if HasRisk(t) && Present(t.tp) then Some(Abs(t.tp.value - t.entryPrice) / RiskPrice(t)) else None
  }

  function RR(t: Trade, unit: Option<real>): Option<real> {
    if HasRisk(t) && unit.Some? && RiskMoney(t, unit.value) > 0.0
    then Some(t.netPnl / RiskMoney(t, unit.value)) else None
  }

  /**
   The ratio is the net result over what the position risked: the distance from entry to stop, in money; the planned one is
   the distance to the target over it. Without a stop, an entry price or a distance between them there is none.
   */
  lemma RatiosExactly(t: Trade, unit: Option<real>)
    ensures var risks := t.sl.Some? && t.sl.value != 0.0 && t.entryPrice != 0.0 && t.sl.value != t.entryPrice;
            && (RRPlanned(t).Some? <==> risks && t.tp.Some? && t.tp.value != 0.0)
            && (RRPlanned(t).Some? ==> RRPlanned(t).value == Abs(t.tp.value - t.entryPrice) / Abs(t.entryPrice - t.sl.value))
            && (RR(t, unit).Some? <==> risks && unit.Some? && Abs(t.entryPrice - t.sl.value) * unit.value > 0.0)
            && (RR(t, unit).Some? ==> RR(t, unit).value == t.netPnl / (Abs(t.entryPrice - t.sl.value) * unit.value))
  {
  }

  /** The risk-reward ratio of a position does not depend on the order of the positions. */
  ghost predicate RRIgnoresOrder(t: Trade, trades: seq<Trade>) {
    forall other :: multiset(other) == multiset(trades) ==> RR(t, UnitIn(t, other)) == RR(t, UnitIn(t, trades))
  }

  lemma RROfUnits(t: Trade, u: real, v: real)
    requires HasRisk(t) && u > 0.0 && v > 0.0 && t.netPnl != 0.0
    ensures RR(t, Some(u)).Some? && RR(t, Some(v)).Some?
    ensures RR(t, Some(u)) == RR(t, Some(v)) <==> u == v
  {
    ProductPositive(RiskPrice(t), u);
    ProductPositive(RiskPrice(t), v);
    if u != v {
      Scaled(u, v, RiskPrice(t));
      QuotientsDiffer(t.netPnl, RiskMoney(t, u), RiskMoney(t, v));
    }
  }

  lemma QuotientsDiffer(x: real, a: real, b: real)
    requires x != 0.0 && a > 0.0 && b > 0.0 && a != b
    ensures x / a != x / b
  {
    var q, r := x / a, x / b;
    assert q * a == x && r * b == x && q != 0.0;
    NoZeroProduct(q, a - b);
    assert q * (a - b) == q * a - q * b;
  }

  lemma NoZeroProduct(x: real, y: real)
    requires x != 0.0 && y != 0.0
    ensures x * y != 0.0
  {
  }

  /** Where volumes are positive and a position at risk earned or lost something, its ratio is as its unit. */
  lemma RRIgnoresOrderExactly(t: Trade, trades: seq<Trade>)
    requires HasRisk(t) && t.netPnl != 0.0 && t.amount > 0.0
    requires forall o :: o in trades ==> o.amount > 0.0
    ensures RRIgnoresOrder(t, trades) <==> OwnUnit(t).Some? || Agree(trades, t.pair)
  {
    UnitIgnoresOrderExactly(t, trades);
    if OwnUnit(t).None? && !Agree(trades, t.pair) {
      var other :| multiset(other) == multiset(trades) && UnitIn(t, other) != UnitIn(t, trades);
      forall o { SameTrades(other, trades, o); }
      RateIsSomeones(other, t.pair);
      RateIsSomeones(trades, t.pair);
      UnitIsPositive(t, other);
      UnitIsPositive(t, trades);
      if UnitIn(t, other).Some? && UnitIn(t, trades).Some? {
        RROfUnits(t, UnitIn(t, other).value, UnitIn(t, trades).value);
      }
    }
  }

  lemma UnitIsPositive(t: Trade, trades: seq<Trade>)
    requires t.amount > 0.0 && OwnUnit(t).None? && forall o :: o in trades ==> o.amount > 0.0
    ensures UnitIn(t, trades).Some? <==> RateOf(trades, t.pair).Some?
    ensures UnitIn(t, trades).Some? ==> UnitIn(t, trades).value > 0.0
  {
    RateIsSomeones(trades, t.pair);
    if o :| o in trades && Telling(t.pair)(o) && RateOf(trades, t.pair) == Some(LotOf(o)) {
      UnitTimesMove(o);
      var lot := LotOf(o);
      assert lot * o.amount == OwnUnit(o).value;
      if lot <= 0.0 { Scale(lot, 0.0, o.amount); }
      ProductPositive(lot, t.amount);
    }
  }

  function Priced(id: int, exitPrice: real, pnl: real, netPnl: real, sl: Option<real>): Trade {
    Trade(id, "XAUUSD", true, 1.0, 100.0, exitPrice, pnl, netPnl, sl, None, None, None)
  }

  /** Three positions of one pair, two of which disagree what a lot is worth: the order of those two decides the third's ratio. */
  lemma OrderDecidesRR()
    ensures exists a, b, t :: RR(t, UnitIn(t, [a, b, t])) != RR(t, UnitIn(t, [b, a, t]))
  {
    var a, b := Priced(1, 101.0, 10.0, 10.0, None), Priced(2, 101.0, 20.0, 20.0, None);
    var t := Priced(3, 100.0, 0.0, -5.0, Some(99.0));
    assert Telling("XAUUSD")(a) && Telling("XAUUSD")(b);
    assert [a, b, t][0] == a && [b, a, t][0] == b;
    assert First([a, b, t], Telling("XAUUSD")) == 0 && First([b, a, t], Telling("XAUUSD")) == 0;
    assert UnitIn(t, [a, b, t]) == Some(10.0) && UnitIn(t, [b, a, t]) == Some(20.0);
    RROfUnits(t, 10.0, 20.0);
  }

  lemma UnitTimesMove(t: Trade)
    requires t.Move() != 0.0 && t.pnl != 0.0
    ensures OwnUnit(t) == Some(Abs(t.pnl) / Abs(t.Move()))
    ensures OwnUnit(t).value > 0.0
    ensures Abs(t.Move()) * OwnUnit(t).value == Abs(t.pnl)
  {
    var p, m := Abs(t.pnl), Abs(t.Move());
    assert Abs(t.pnl / t.Move()) == p / m by { Quotient(t.pnl, t.Move()); }
    assert m * (p / m) == p;
  }

  lemma Quotient(x: real, y: real)
    requires y != 0.0
    ensures Abs(x / y) == Abs(x) / Abs(y)
  {
    if y > 0.0 {
      QuotientOver(x, y);
    } else {
      QuotientOver(x, -y);
      assert x / y == -(x / -y);
    }
  }

  lemma QuotientOver(x: real, y: real)
    requires y > 0.0
    ensures Abs(x / y) == Abs(x) / y
  {
    var q := x / y;
    assert q * y == x;
    assert (-x) / y == -q;
    if x >= 0.0 {
      assert q >= 0.0;
    } else {
      assert q < 0.0;
    }
  }

  /** A loss taken at the stop is one unit of risk, exactly if the position cost nothing. */
  lemma LosingStopIsMinusOne(t: Trade, rates: map<string, real>)
    requires HasRisk(t) && t.exitPrice == t.sl.value && t.pnl < 0.0
    ensures RR(t, ResolveUnit(t, rates)) == Some(t.netPnl / -t.pnl)
    ensures RR(t, ResolveUnit(t, rates)) == Some(-1.0) <==> t.netPnl == t.pnl
  {
    assert RiskPrice(t) == Abs(t.Move()) && t.Move() != 0.0;
    UnitTimesMove(t);
    assert RiskMoney(t, OwnUnit(t).value) == -t.pnl;
    MinusOne(t.netPnl, -t.pnl);
  }

  lemma MinusOne(x: real, y: real)
    requires y > 0.0
    ensures x / y == -1.0 <==> x == -y
  {
    var q := x / y;
    assert q * y == x;
  }

  /** A gain taken at the target is the planned reward, exactly if the position cost nothing. */
  lemma WinningTargetIsPlanned(t: Trade, rates: map<string, real>)
    requires HasRisk(t) && Present(t.tp) && t.exitPrice == t.tp.value && t.pnl > 0.0 && t.Move() != 0.0
    ensures RR(t, ResolveUnit(t, rates)).Some?
    ensures RR(t, ResolveUnit(t, rates)) == RRPlanned(t) <==> t.netPnl == t.pnl
  {
    UnitTimesMove(t);
    AtTarget(t, OwnUnit(t).value);
  }

  lemma AtTarget(t: Trade, unit: real)
    requires HasRisk(t) && Present(t.tp) && t.exitPrice == t.tp.value && t.Move() != 0.0
    requires unit > 0.0 && Abs(t.Move()) * unit == t.pnl
    ensures RR(t, Some(unit)).Some?
    ensures RR(t, Some(unit)) == RRPlanned(t) <==> t.netPnl == t.pnl
  {
    var reward := Abs(t.tp.value - t.entryPrice);
    assert reward == Abs(t.Move());
    ProductPositive(RiskPrice(t), unit);
    TargetArithmetic(RiskPrice(t), reward, unit, RiskMoney(t, unit), t.pnl, t.netPnl);
    assert RR(t, Some(unit)).value == t.netPnl / RiskMoney(t, unit);
    assert RRPlanned(t).value == reward / RiskPrice(t);
  }

  lemma ProductPositive(x: real, y: real)
    requires x > 0.0 && y > 0.0
    ensures x * y > 0.0
  {
  }

  lemma TargetArithmetic(risk: real, reward: real, unit: real, money: real, pnl: real, net: real)
    requires risk > 0.0 && reward * unit == pnl && money == risk * unit && money > 0.0
    ensures net / money == reward / risk <==> net == pnl
  {
    var planned := reward / risk;
    assert planned * risk == reward;
    assert planned * money == (planned * risk) * unit == pnl;
    var q := net / money;
    assert q * money == net;
    if q != planned {
      Scaled(q, planned, money);
    }
  }

  lemma Scaled(x: real, y: real, k: real)
    requires k > 0.0 && x != y
    ensures x * k != y * k
  {
    assert (x - y) * k != 0.0;
    assert (x - y) * k == x * k - y * k;
  }

  // Adverse and favourable excursion.

  /** How far candles may miss the traded prices before they are taken for another symbol's: 1% of the higher one. */
  function Slack(t: Trade): real { Max(t.entryPrice, t.exitPrice) * 0.01 }

  predicate Accepted(t: Trade, high: real, low: real) {
    low <= Max(t.entryPrice, t.exitPrice) + Slack(t) && high >= Min(t.entryPrice, t.exitPrice) - Slack(t)
  }

  /** The candles' extremes, stretched to the prices the position traded at. */
  function Top(t: Trade, high: real): real { Max(high, Max(t.entryPrice, t.exitPrice)) }

  function Bottom(t: Trade, low: real): real { Min(low, Min(t.entryPrice, t.exitPrice)) }

  function WorstMove(t: Trade, high: real, low: real): real {
    if t.long then Bottom(t, low) - t.entryPrice else t.entryPrice - Top(t, high)
  }

  function BestMove(t: Trade, high: real, low: real): real {
    if t.long then Top(t, high) - t.entryPrice else t.entryPrice - Bottom(t, low)
  }

  function Worth(move: real, unit: real): real { move * unit }

  function Worst(t: Trade, high: real, low: real, unit: real): real { Min(0.0, Worth(WorstMove(t, high, low), unit)) }

  function Best(t: Trade, high: real, low: real, unit: real): real { Max(0.0, Worth(BestMove(t, high, low), unit)) }

  /** What the position would have earned at a price. */
  function GainAt(t: Trade, price: real, unit: real): real { Worth(MoveTo(t, price), unit) }

  function MoveTo(t: Trade, price: real): real { if t.long then price - t.entryPrice else t.entryPrice - price }

  /** A price the position is known to have seen: a candle's extreme, or one it traded at. */
  predicate Seen(t: Trade, high: real, low: real, price: real) {
    price == high || price == low || price == t.entryPrice || price == t.exitPrice
  }

  /** The excursions are the worst and the best the position would have earned at a price it saw; never better than nothing, never worse. */
  lemma ExcursionsAreExtremes(t: Trade, high: real, low: real, unit: real)
    requires low <= high && unit >= 0.0
    ensures Worst(t, high, low, unit) <= 0.0 <= Best(t, high, low, unit)
    ensures forall price :: Seen(t, high, low, price) ==>
              Worst(t, high, low, unit) <= GainAt(t, price, unit) <= Best(t, high, low, unit)
    ensures exists price :: Seen(t, high, low, price) && Worst(t, high, low, unit) == GainAt(t, price, unit)
    ensures exists price :: Seen(t, high, low, price) && Best(t, high, low, unit) == GainAt(t, price, unit)
  {
    var worst := if t.long then Bottom(t, low) else Top(t, high);
    var best := if t.long then Top(t, high) else Bottom(t, low);
    assert MoveTo(t, worst) == WorstMove(t, high, low) && MoveTo(t, best) == BestMove(t, high, low);
    assert Seen(t, high, low, worst) && Seen(t, high, low, best) && Seen(t, high, low, t.entryPrice);
    assert GainAt(t, t.entryPrice, unit) == 0.0;
    forall price | Seen(t, high, low, price)
      ensures Worth(WorstMove(t, high, low), unit) <= GainAt(t, price, unit) <= Worth(BestMove(t, high, low), unit)
    {
      GainsOrdered(t, high, low, unit, price);
    }
    assert Worst(t, high, low, unit) == GainAt(t, worst, unit) && Best(t, high, low, unit) == GainAt(t, best, unit);
  }

  lemma GainsOrdered(t: Trade, high: real, low: real, unit: real, price: real)
    requires low <= high && unit >= 0.0 && Seen(t, high, low, price)
    ensures Worth(WorstMove(t, high, low), unit) <= GainAt(t, price, unit) <= Worth(BestMove(t, high, low), unit)
  {
    SeenBetween(t, high, low, price);
    MoreWorth(WorstMove(t, high, low), MoveTo(t, price), unit);
    MoreWorth(MoveTo(t, price), BestMove(t, high, low), unit);
  }

  lemma SeenBetween(t: Trade, high: real, low: real, price: real)
    requires low <= high && Seen(t, high, low, price)
    ensures WorstMove(t, high, low) <= MoveTo(t, price) <= BestMove(t, high, low)
  {
  }

  lemma MoreWorth(x: real, y: real, unit: real)
    requires x <= y && unit >= 0.0
    ensures Worth(x, unit) <= Worth(y, unit)
  {
    Scale(x, y, unit);
  }

  /** The result has the sign of the price move, or there is none. */
  predicate Coherent(t: Trade) { t.pnl == 0.0 || t.pnl * t.Move() > 0.0 }

  predicate Between(t: Trade, high: real, low: real, unit: real) {
    && Worst(t, high, low, unit) <= t.pnl <= Best(t, high, low, unit)
    && Worst(t, high, low, unit) <= 0.0 <= Best(t, high, low, unit)
  }

  lemma CoherentIsBetween(t: Trade, rates: map<string, real>, high: real, low: real)
    requires Coherent(t) && ResolveUnit(t, rates).Some?
    ensures Between(t, high, low, ResolveUnit(t, rates).value)
  {
    if t.pnl != 0.0 {
      SameSign(t.pnl, t.Move());
      UnitTimesMove(t);
      PaidIsBetween(t, OwnUnit(t).value, high, low);
    }
  }

  lemma PaidIsBetween(t: Trade, unit: real, high: real, low: real)
    requires unit >= 0.0 && t.Move() * unit == t.pnl
    ensures Between(t, high, low, unit)
  {
    MovesOrdered(t, high, low);
    InBand(WorstMove(t, high, low), t.Move(), BestMove(t, high, low), unit, t.pnl);
  }

  lemma MovesOrdered(t: Trade, high: real, low: real)
    ensures WorstMove(t, high, low) <= t.Move() <= BestMove(t, high, low)
  {
  }

  lemma InBand(worst: real, move: real, best: real, unit: real, pnl: real)
    requires worst <= move <= best && unit >= 0.0 && move * unit == pnl
    ensures Min(0.0, worst * unit) <= pnl <= Max(0.0, best * unit)
  {
    Scale(worst, move, unit);
    Scale(move, best, unit);
  }

  lemma SameSign(x: real, y: real)
    requires x * y > 0.0
    ensures (x > 0.0 && y > 0.0) || (x < 0.0 && y < 0.0)
  {
  }

  lemma Scale(x: real, y: real, k: real)
    requires x <= y && k >= 0.0
    ensures x * k <= y * k
  {
    assert (y - x) * k >= 0.0;
    assert (y - x) * k == y * k - x * k;
  }

  lemma OppositeSign(x: real, y: real)
    requires x * y <= 0.0 && x != 0.0 && y != 0.0
    ensures (x > 0.0 && y < 0.0) || (x < 0.0 && y > 0.0)
  {
    if x > 0.0 && y > 0.0 {
      ProductPositive(x, y);
      assert false;
    } else if x < 0.0 && y < 0.0 {
      ProductPositive(-x, -y);
      assert false;
    }
  }

  /** How far every accepted candle must reach beyond the traded prices: below zero the margin turns inward. */
  function Reach(t: Trade): real { -Slack(t) - Abs(t.Move()) }

  /** Accepted candles reach so far that they cover even a result with the wrong sign. */
  predicate Overreached(t: Trade, unit: real) {
    Slack(t) < 0.0 && Abs(t.pnl) <= Worth(Reach(t), unit)
  }

  lemma MovesReach(t: Trade, high: real, low: real)
    requires Accepted(t, high, low)
    ensures WorstMove(t, high, low) <= -Reach(t) && Reach(t) <= BestMove(t, high, low)
  {
  }

  lemma OverreachedIsBetween(t: Trade, unit: real, high: real, low: real)
    requires Overreached(t, unit) && t.pnl != 0.0 && Accepted(t, high, low)
    requires unit > 0.0
    ensures Between(t, high, low, unit)
  {
    MovesReach(t, high, low);
    Covers(WorstMove(t, high, low), Reach(t), BestMove(t, high, low), unit, t.pnl);
  }

  lemma Covers(worst: real, reach: real, best: real, unit: real, pnl: real)
    requires worst <= -reach && reach <= best && unit > 0.0 && Abs(pnl) <= Worth(reach, unit)
    ensures Min(0.0, Worth(worst, unit)) <= pnl <= Max(0.0, Worth(best, unit))
  {
    Scale(worst, -reach, unit);
    Scale(reach, best, unit);
    assert (-reach) * unit == -(reach * unit);
  }

  /** The least candles that are accepted. */
  function LeastHigh(t: Trade): real {
    Min(t.entryPrice, t.exitPrice) + if Slack(t) < 0.0 then -Slack(t) else Abs(t.Move())
  }

  function LeastLow(t: Trade): real {
    Max(t.entryPrice, t.exitPrice) - if Slack(t) < 0.0 then -Slack(t) else Abs(t.Move())
  }

  lemma LeastMoves(t: Trade)
    ensures Accepted(t, LeastHigh(t), LeastLow(t))
    ensures var beyond := if Slack(t) < 0.0 then Max(0.0, Reach(t)) else 0.0;
            && (t.Move() >= 0.0 ==> WorstMove(t, LeastHigh(t), LeastLow(t)) == -beyond)
            && (t.Move() <= 0.0 ==> BestMove(t, LeastHigh(t), LeastLow(t)) == beyond)
  {
  }

  lemma IncoherentIsNot(t: Trade, unit: real)
    requires !Coherent(t) && !Overreached(t, unit)
    requires t.Move() != 0.0 ==> unit > 0.0 && Abs(t.Move()) * unit == Abs(t.pnl)
    ensures Accepted(t, LeastHigh(t), LeastLow(t)) && !Between(t, LeastHigh(t), LeastLow(t), unit)
  {
    LeastMoves(t);
    var beyond := if Slack(t) < 0.0 then Max(0.0, Reach(t)) else 0.0;
    assert -beyond * unit == -(beyond * unit);
    assert 0.0 * unit == 0.0;
    if t.Move() != 0.0 {
      OppositeSign(t.pnl, t.Move());
    }
  }

  /**
   The result and zero lie between the excursions for every accepted pair of extremes, exactly if the result has the sign
   of the price move or is zero; for negative prices also if the margin alone covers it.
   */
  lemma BetweenExactly(t: Trade, rates: map<string, real>)
    requires ResolveUnit(t, rates).Some?
    ensures var unit := ResolveUnit(t, rates).value;
            (forall high, low :: Accepted(t, high, low) ==> Between(t, high, low, unit))
            <==> Coherent(t) || Overreached(t, unit)
  {
    var unit := ResolveUnit(t, rates).value;
    if t.Move() != 0.0 && t.pnl != 0.0 { UnitTimesMove(t); }
    if Coherent(t) {
      forall high, low | Accepted(t, high, low) ensures Between(t, high, low, unit) {
        CoherentIsBetween(t, rates, high, low);
      }
    } else if Overreached(t, unit) {
      ReachPays(t, unit);
      forall high, low | Accepted(t, high, low) ensures Between(t, high, low, unit) {
        OverreachedIsBetween(t, unit, high, low);
      }
    } else {
      IncoherentIsNot(t, unit);
    }
  }

  lemma ReachPays(t: Trade, unit: real)
    requires Overreached(t, unit) && t.pnl != 0.0
    requires t.Move() != 0.0 ==> unit > 0.0
    ensures unit > 0.0
  {
    if t.Move() == 0.0 {
      assert Reach(t) > 0.0 && Reach(t) * unit > 0.0;
      if unit <= 0.0 { Scale(unit, 0.0, Reach(t)); }
    }
  }
}
