// Exchange rates (internal/ledger/rates.go): the last price quoted by a day,
// either way round, or the two legs over the dollar when there is none.
module Rates {
  import opened Decimals
  import opened Core

  const PIVOT := "USD"
  const RATE_PLACES: nat := 18

  datatype Path = Same | Direct | Inverse | Crossed
  datatype Rate = Rate(value: real, date: int, path: Path)

  predicate Quotes(p: Price, commodity: string, quote: string, on: int) {
    p.commodity == commodity && p.quote == quote && p.date <= on
  }

  // The later day is newer; on one day a price entered by hand is.
  predicate Newer(p: Price, q: Price) {
    p.date > q.date || (p.date == q.date && p.manual && !q.manual)
  }

  function LatestPrice(prices: seq<Price>, commodity: string, quote: string, on: int): Option<Price> {
    if |prices| == 0 then None else
      var best := LatestPrice(prices[..|prices| - 1], commodity, quote, on);
      var p := prices[|prices| - 1];
      if Quotes(p, commodity, quote, on) && (best.None? || Newer(p, best.value)) then Some(p) else best
  }

  function DirectOrInverse(prices: seq<Price>, from: string, to: string, on: int): Option<Rate> {
    match LatestPrice(prices, from, to, on)
    case Some(p) => Some(Rate(p.rate, p.date, Direct))
    case None =>
      match LatestPrice(prices, to, from, on)
      case Some(p) => Some(Rate(DivRound(1.0, p.rate, RATE_PLACES), p.date, Inverse))
      case None => None
  }

  function RateDetail(prices: seq<Price>, from: string, to: string, on: int): Option<Rate> {
    if from == to then Some(Rate(1.0, on, Same)) else
      match DirectOrInverse(prices, from, to, on)
      case Some(r) => Some(r)
      case None =>
        if from == PIVOT || to == PIVOT then None else
          var r1 := DirectOrInverse(prices, from, PIVOT, on);
          var r2 := DirectOrInverse(prices, PIVOT, to, on);
          if r1.None? || r2.None? then None else
            var date := if r2.value.date < r1.value.date then r2.value.date else r1.value.date;
            Some(Rate(Times(r1.value.value, r2.value.value), date, Crossed))
  }

  function RateOn(w: World, from: string, to: string, on: int): Option<real> {
    match RateDetail(w.prices, from, to, on)
    case Some(r) => Some(r.value)
    case None => None
  }

  /** The chosen price is quoted on or before the day, and none is newer. */
  lemma {:induction false} LatestIsNewest(prices: seq<Price>, commodity: string, quote: string, on: int)
    ensures LatestPrice(prices, commodity, quote, on).None? <==>
      forall p :: p in prices ==> !Quotes(p, commodity, quote, on)
    ensures LatestPrice(prices, commodity, quote, on).Some? ==>
      var best := LatestPrice(prices, commodity, quote, on).value;
      best in prices && Quotes(best, commodity, quote, on) &&
      forall p :: p in prices && Quotes(p, commodity, quote, on) ==> !Newer(p, best)
  {
    if |prices| > 0 {
      var front := prices[..|prices| - 1];
      LatestIsNewest(front, commodity, quote, on);
      assert forall p :: p in prices <==> p in front || p == prices[|prices| - 1];
    }
  }

  // ----- what a rate is, in terms of the quotes -----

  /** Some price of the pair is quoted by the day. */
  predicate Quoted(prices: seq<Price>, commodity: string, quote: string, on: int) {
    exists p :: p in prices && p.commodity == commodity && p.quote == quote && p.date <= on
  }

  /** A price of the pair, quoted by the day: of the others none is of a later
      day, and on its day none is by hand unless it is. */
  predicate Newest(prices: seq<Price>, commodity: string, quote: string, on: int, p: Price) {
    p in prices && p.commodity == commodity && p.quote == quote && p.date <= on &&
    forall q :: q in prices && q.commodity == commodity && q.quote == quote && q.date <= on ==>
      q.date <= p.date && (q.date == p.date && q.manual ==> p.manual)
  }

  /** r turns one currency into the other: the newest quote, or, where only the
      opposite pair is quoted, what undoes the newest one of that to within half
      a unit of the eighteenth place. */
  ghost predicate Turns(prices: seq<Price>, from: string, to: string, on: int, r: Rate) {
    if Quoted(prices, from, to, on) then
      exists p :: Newest(prices, from, to, on, p) && r.value == p.rate && r.date == p.date
    else
      exists p :: Newest(prices, to, from, on, p) && r.date == p.date &&
        Abs(Times(r.value, p.rate) - 1.0) <= Times(p.rate, Unit(18) / 2.0)
  }

  predicate EitherWay(prices: seq<Price>, from: string, to: string, on: int) {
    Quoted(prices, from, to, on) || Quoted(prices, to, from, on)
  }

  lemma InverseUndoes(x: real)
    requires x > 0.0
    ensures Abs(Times(DivRound(1.0, x, 18), x) - 1.0) <= Times(x, Unit(18) / 2.0)
  {
    hide Round, Unit;
    var r, h := DivRound(1.0, x, 18), Unit(18) / 2.0;
    RoundHalfUnit(1.0 / x, 18);
    Rescale(1.0, x);
    Distribute(r, 1.0 / x, x);
    MulMonotone(r - 1.0 / x, h, x);
    MulMonotone(-h, r - 1.0 / x, x);
    Distribute(h, 0.0, x);
  }

  lemma LegTurns(prices: seq<Price>, from: string, to: string, on: int)
    ensures DirectOrInverse(prices, from, to, on).Some? <==> EitherWay(prices, from, to, on)
    ensures DirectOrInverse(prices, from, to, on).Some? ==> Turns(prices, from, to, on, DirectOrInverse(prices, from, to, on).value)
  {
    hide Round, Times, Unit, LatestPrice;
    LatestIsNewest(prices, from, to, on);
    LatestIsNewest(prices, to, from, on);
    if LatestPrice(prices, from, to, on).Some? {
      assert Newest(prices, from, to, on, LatestPrice(prices, from, to, on).value);
    } else if LatestPrice(prices, to, from, on).Some? {
      var p := LatestPrice(prices, to, from, on).value;
      assert Newest(prices, to, from, on, p);
      InverseUndoes(p.rate);
    }
  }

  predicate Crosses(prices: seq<Price>, from: string, to: string, on: int) {
    !EitherWay(prices, from, to, on) && from != "USD" && to != "USD" &&
    EitherWay(prices, from, "USD", on) && EitherWay(prices, "USD", to, on)
  }

  /** There is a rate exactly for a currency in itself, for a pair quoted either
      way round, and for one whose two legs over the dollar are; it is one, what
      turns the one into the other, or the product of the legs. */
  lemma RateIs(w: World, from: string, to: string, on: int)
    ensures RateOn(w, from, to, on).Some? <==>
      from == to || EitherWay(w.prices, from, to, on) || Crosses(w.prices, from, to, on)
    ensures from == to ==> RateOn(w, from, to, on) == Some(1.0)
    ensures from != to && EitherWay(w.prices, from, to, on) ==>
      exists r :: Turns(w.prices, from, to, on, r) && RateOn(w, from, to, on) == Some(r.value)
    ensures from != to && Crosses(w.prices, from, to, on) ==>
      exists r, s :: Turns(w.prices, from, "USD", on, r) && Turns(w.prices, "USD", to, on, s) &&
        RateOn(w, from, to, on) == Some(Times(r.value, s.value))
  {
    hide DirectOrInverse, Turns, EitherWay, Times;
    LegTurns(w.prices, from, to, on);
    LegTurns(w.prices, from, "USD", on);
    LegTurns(w.prices, "USD", to, on);
  }

  lemma DirectSign(w: World, from: string, to: string, on: int)
    ensures var r := DirectOrInverse(w.prices, from, to, on); r.Some? ==> r.value.value >= 0.0
  {
    LatestIsNewest(w.prices, from, to, on);
    LatestIsNewest(w.prices, to, from, on);
    match LatestPrice(w.prices, to, from, on) {
      case None =>
      case Some(p) =>
        assert 1.0 / p.rate >= 0.0;
        RoundSign(1.0 / p.rate, RATE_PLACES);
    }
  }

  lemma TimesSign(x: real, y: real)
    requires x >= 0.0 && y >= 0.0
    ensures Times(x, y) >= 0.0
  {
  }

  /** Positive prices never give a negative rate (an inverse may round to zero). */
  lemma RateSign(w: World, from: string, to: string, on: int)
    ensures RateOn(w, from, to, on).Some? ==> RateOn(w, from, to, on).value >= 0.0
  {
    hide DirectOrInverse, Times;
    DirectSign(w, from, to, on);
    DirectSign(w, from, PIVOT, on);
    DirectSign(w, PIVOT, to, on);
    var r1 := DirectOrInverse(w.prices, from, PIVOT, on);
    var r2 := DirectOrInverse(w.prices, PIVOT, to, on);
    if r1.Some? && r2.Some? {
      TimesSign(r1.value.value, r2.value.value);
    }
  }
}
