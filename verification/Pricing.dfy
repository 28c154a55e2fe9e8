/**
 * What a booking costs: coupon, loyalty points, service fee and commission. Money is integer
 * cents and points are integer hundredths; rates are exact reals and every rounding is explicit.
 */
module Pricing {
  import opened Common

  /** A percentage with an optional cap (a stored cap of zero is a cap), or a fixed amount. */
  datatype Discount = Percentage(percent: real, maxDiscount: Option<int>) | Fixed(amount: int)

  predicate ValidDiscount(d: Discount) {
    match d
    case Percentage(p, m) => 0.0 <= p <= 100.0 && (m.Some? ==> m.value >= 0)
    case Fixed(amount) => amount >= 0
  }

  function CouponDiscount(total: int, d: Option<Discount>): int {
    match d
    case None => 0
    case Some(Fixed(amount)) => Min(amount, total)
    case Some(Percentage(p, m)) =>
      var raw := total as real * p / 100.0;
      Round(if m.Some? && m.value as real < raw then m.value as real else raw)
  }

  /** The platform's conversion settings: QAR per point and the smallest redemption. */
  datatype PointsConfig = PointsConfig(qarPerPoint: real, minRedemption: int)

  datatype Quote = Quote(
    couponDiscount: int,
    price: int,            // after the coupon; what the vendor earned
    fee: int,              // service fee actually charged
    pointsRedeemed: int,
    pointsDiscount: int,
    payable: int,          // cash due
    commission: int,
    confirmed: bool)       // nothing due: no checkout

  datatype QuoteResult = Quoted(quote: Quote) | BelowMinimum | RedemptionDisabled

  /** Hundredths of a point asked for, after rounding the request to two decimals. */
  function Requested(redeemPoints: real): int {
    Round(redeemPoints * 100.0)
  }

  /** Points taken, their value, and the fee that remains. */
  function Redeem(price: int, serviceFee: int, requested: int, q: real): (int, int, int)
    requires q > 0.0
  {
    var raw := requested as real * q;
    if raw >= price as real then (Round(price as real / q), price, 0)
    else (requested, Round(raw), serviceFee)
  }

  function Finish(couponDiscount: int, price: int, points: (int, int, int), commissionPct: real): Quote {
    var payable := Max(0, price + points.2 - points.1);
    Quote(couponDiscount, price, points.2, points.0, points.1, payable,
          Round(price as real * commissionPct / 100.0), payable <= 0)
  }

  /** The money part of createBooking. */
  function Price(total: int, d: Option<Discount>, serviceFee: int, commissionPct: real,
                 redeemPoints: real, cfg: PointsConfig): QuoteResult
  {
    var couponDiscount := CouponDiscount(total, d);
    var price := total - couponDiscount;
    if redeemPoints <= 0.0 then Quoted(Finish(couponDiscount, price, (0, 0, serviceFee), commissionPct))
    else if Requested(redeemPoints) < cfg.minRedemption then BelowMinimum
    else if cfg.qarPerPoint <= 0.0 then RedemptionDisabled
    else Quoted(Finish(couponDiscount, price, Redeem(price, serviceFee, Requested(redeemPoints), cfg.qarPerPoint), commissionPct))
  }

  lemma DiscountWithinTotal(total: int, d: Option<Discount>)
    requires total >= 0 && (d.Some? ==> ValidDiscount(d.value))
    ensures 0 <= CouponDiscount(total, d) <= total
  {
    if d.Some? && d.value.Percentage? {
      var p := d.value.percent;
      var raw := total as real * p / 100.0;
      assert 0.0 <= total as real * p;
      assert total as real * p <= total as real * 100.0;
      assert 0.0 <= raw <= total as real;
      RoundMonotone(raw, 0);
      RoundMonotone(raw, total);
      if d.value.maxDiscount.Some? {
        var m := d.value.maxDiscount.value;
        RoundMonotone(m as real, 0);
        RoundMonotone(m as real, m);
      }
    }
  }

  /** Points never cost more than asked, and are worth what they pay for up to one rounding. */
  lemma RedeemIsFair(price: int, serviceFee: int, requested: int, q: real)
    requires price >= 0 && serviceFee >= 0 && requested >= 0 && q > 0.0
    ensures var (points, value, fee) := Redeem(price, serviceFee, requested, q);
            && 0 <= points <= requested && 0 <= value <= price
            && (if PointsCover(price, requested, q)
                then fee == 0 && value == price
                     && points as real - 0.5 <= price as real / q < points as real + 0.5
                else fee == serviceFee && points == requested
                     && value as real - 0.5 <= points as real * q < value as real + 0.5)
  {
    var raw := requested as real * q;
    assert 0.0 <= raw;
    if raw >= price as real {
      QuotientBound(price as real, q, requested as real);
      QuotientNonNegative(price as real, q);
      RoundMonotone(price as real / q, requested);
      RoundMonotone(price as real / q, 0);
    } else {
      RoundMonotone(raw, price);
      RoundMonotone(raw, 0);
    }
  }

  /** The requested points are worth at least the price. */
  predicate PointsCover(price: int, requested: int, q: real) {
    requested as real * q >= price as real
  }

  /**
   * A quote that adds up: cash plus points discount is the post-coupon price plus the fee charged,
   * no part is negative, the points debited never exceed the request, the fee is waived exactly
   * when the points cover the price, and the commission stays within the price.
   */
  predicate AddsUp(q: Quote, total: int, serviceFee: int, requested: int, covers: bool) {
    && q.payable + q.pointsDiscount == q.price + q.fee
    && q.price + q.couponDiscount == total
    && 0 <= q.couponDiscount && 0 <= q.price && 0 <= q.payable && 0 <= q.pointsDiscount <= q.price
    && 0 <= q.commission <= q.price
    && 0 <= q.pointsRedeemed <= requested
    && q.fee == (if covers then 0 else serviceFee)
    && (covers ==> q.pointsDiscount == q.price)
    && (q.confirmed <==> q.payable == 0)
  }

  lemma FinishAddsUp(total: int, price: int, points: (int, int, int), pct: real, serviceFee: int, requested: int, covers: bool)
    requires 0 <= price <= total && 0.0 <= pct <= 100.0 && serviceFee >= 0
    requires 0 <= points.0 <= requested && 0 <= points.1 <= price
    requires points.2 == (if covers then 0 else serviceFee) && (covers ==> points.1 == price)
    ensures AddsUp(Finish(total - price, price, points, pct), total, serviceFee, requested, covers)
  {
    CommissionWithinPrice(price, pct);
  }

  lemma RequestedNonNegative(redeemPoints: real)
    requires redeemPoints > 0.0
    ensures Requested(redeemPoints) >= 0
  {
    RoundMonotone(redeemPoints * 100.0, 0);
  }

  /** Every quote createBooking accepts adds up, for every price, valid coupon and points request. */
  lemma QuoteAddsUp(total: int, d: Option<Discount>, serviceFee: int, commissionPct: real, redeemPoints: real, cfg: PointsConfig)
    requires total >= 0 && serviceFee >= 0 && 0.0 <= commissionPct <= 100.0
    requires d.Some? ==> ValidDiscount(d.value)
    ensures var r := Price(total, d, serviceFee, commissionPct, redeemPoints, cfg);
            r.Quoted? ==>
              if redeemPoints <= 0.0 then AddsUp(r.quote, total, serviceFee, 0, false)
              else AddsUp(r.quote, total, serviceFee, Requested(redeemPoints),
                          PointsCover(r.quote.price, Requested(redeemPoints), cfg.qarPerPoint))
  {
    DiscountWithinTotal(total, d);
    var price, requested := total - CouponDiscount(total, d), Requested(redeemPoints);
    if redeemPoints <= 0.0 {
      FinishAddsUp(total, price, (0, 0, serviceFee), commissionPct, serviceFee, 0, false);
    } else if Price(total, d, serviceFee, commissionPct, redeemPoints, cfg).Quoted? {
      RequestedNonNegative(redeemPoints);
      RedeemIsFair(price, serviceFee, requested, cfg.qarPerPoint);
      FinishAddsUp(total, price, Redeem(price, serviceFee, requested, cfg.qarPerPoint), commissionPct, serviceFee,
                   requested, PointsCover(price, requested, cfg.qarPerPoint));
    }
  }

  lemma CommissionWithinPrice(price: int, pct: real)
    requires price >= 0 && 0.0 <= pct <= 100.0
    ensures 0 <= Round(price as real * pct / 100.0) <= price
  {
    var raw := price as real * pct / 100.0;
    assert 0.0 <= price as real * pct;
    assert price as real * pct <= price as real * 100.0;
    RoundMonotone(raw, 0);
    RoundMonotone(raw, price);
  }

  /**
   * The two ways out of createBooking: a booking that goes to checkout still owes the full
   * service fee, and one confirmed on the spot is either covered by points or costs no fee.
   */
  lemma CheckoutKeepsTheFee(total: int, d: Option<Discount>, serviceFee: int, commissionPct: real, redeemPoints: real, cfg: PointsConfig)
    requires total >= 0 && serviceFee >= 0 && 0.0 <= commissionPct <= 100.0
    requires d.Some? ==> ValidDiscount(d.value)
    ensures var r := Price(total, d, serviceFee, commissionPct, redeemPoints, cfg);
            r.Quoted? ==>
              && (!r.quote.confirmed ==> r.quote.fee == serviceFee && r.quote.payable > 0)
              && (r.quote.confirmed <==> r.quote.pointsDiscount == r.quote.price && r.quote.fee == 0)
  {
    QuoteAddsUp(total, d, serviceFee, commissionPct, redeemPoints, cfg);
  }

  // ----- the amounts -----

  /**
   * What a coupon takes: a fixed amount up to the price, or the rounded percentage of it, but never
   * more than its cap; a cap of zero is a cap.
   */
  lemma CouponTakes(total: int, d: Option<Discount>, discount: int)
    requires d.Some? && d.value.Percentage? ==> Nearest(discount, total as real * d.value.percent / 100.0)
    ensures CouponDiscount(total, d)
         == match d
            case None => 0
            case Some(Fixed(amount)) => if amount <= total then amount else total
            case Some(Percentage(p, m)) =>
              if m.Some? && m.value as real < total as real * p / 100.0 then m.value else discount
  {
    if d.Some? && d.value.Percentage? {
      NearestIsRound(discount, total as real * d.value.percent / 100.0);
      if d.value.maxDiscount.Some? {
        NearestIsRound(d.value.maxDiscount.value, d.value.maxDiscount.value as real);
      }
    }
  }

  /**
   * A request for points is refused below the minimum, then if redemption is switched off; all others
   * are quoted. `asked` is the request in hundredths of a point, rounded.
   */
  lemma RequestsRefused(total: int, d: Option<Discount>, serviceFee: int, commissionPct: real, redeemPoints: real, cfg: PointsConfig, asked: int)
    requires Nearest(asked, redeemPoints * 100.0)
    ensures match Price(total, d, serviceFee, commissionPct, redeemPoints, cfg)
            case BelowMinimum => redeemPoints > 0.0 && asked < cfg.minRedemption
            case RedemptionDisabled => redeemPoints > 0.0 && asked >= cfg.minRedemption && cfg.qarPerPoint <= 0.0
            case Quoted(q) => redeemPoints <= 0.0 || (asked >= cfg.minRedemption && cfg.qarPerPoint > 0.0)
  {
    NearestIsRound(asked, redeemPoints * 100.0);
  }

  /** Points come off at their worth, unless they are worth the price or more: then just enough are taken and the fee is waived. */
  lemma PointsTaken(price: int, serviceFee: int, asked: int, q: real, worth: int, enough: int)
    requires q > 0.0 && Nearest(worth, asked as real * q) && Nearest(enough, price as real / q)
    ensures Redeem(price, serviceFee, asked, q)
         == if asked as real * q >= price as real then (enough, price, 0) else (asked, worth, serviceFee)
  {
    NearestIsRound(worth, asked as real * q);
    NearestIsRound(enough, price as real / q);
  }

  /** The parts a quote is made of: points, their value, the fee left. */
  function Parts(q: Quote): (int, int, int) {
    (q.pointsRedeemed, q.pointsDiscount, q.fee)
  }

  /**
   * Every quote: the coupon comes off first, then the points as PointsTaken says; commission is the
   * rounded percentage of the price after the coupon, and what is left to pay is never negative.
   */
  lemma QuoteAmounts(total: int, d: Option<Discount>, serviceFee: int, commissionPct: real, redeemPoints: real, cfg: PointsConfig,
                     asked: int, commission: int)
    requires Price(total, d, serviceFee, commissionPct, redeemPoints, cfg).Quoted?
    requires Nearest(commission, (total - CouponDiscount(total, d)) as real * commissionPct / 100.0)
    requires Nearest(asked, redeemPoints * 100.0)
    ensures var q := Price(total, d, serviceFee, commissionPct, redeemPoints, cfg).quote;
            && q.couponDiscount == CouponDiscount(total, d) && q.price == total - q.couponDiscount && q.commission == commission
            && Parts(q) == (if redeemPoints <= 0.0 then (0, 0, serviceFee) else Redeem(q.price, serviceFee, asked, cfg.qarPerPoint))
            && q.payable == (if q.price + q.fee >= q.pointsDiscount then q.price + q.fee - q.pointsDiscount else 0)
            && (q.confirmed <==> q.payable == 0)
  {
    NearestIsRound(commission, (total - CouponDiscount(total, d)) as real * commissionPct / 100.0);
    NearestIsRound(asked, redeemPoints * 100.0);
  }
}
