/** From shop options and specs to the final price and the platform's commission, in integer paise. */
module Pricing {
  import opened Options
  import opened Numbers
  import opened Commission
  import PageRange

  datatype Paper = Paper(id: string, title: string, bwPaise: nat, colorPaise: Option<nat>)
  datatype Binding = Binding(id: string, title: string, paise: nat)
  datatype PrintOptions = PrintOptions(papers: seq<Paper>, bindings: seq<Binding>)
  datatype JobSpecs = JobSpecs(paperSize: string, color: bool, pageRange: Option<string>, copies: nat, binding: Option<string>)

  datatype PriceBreakdown = PriceBreakdown(
    paperLabel: string, pagesPerCopy: int, copies: nat, perPagePaise: int, pagesTotalPaise: int,
    bindingLabel: Option<string>, bindingPaise: int, discountPaise: int, totalPaise: int)

  datatype PriceError = PaperNotOffered | BlackAndWhiteOnly | RangeRejected | BindingNotOffered | MarkupOutOfRange | BelowMinimumOrder
  datatype Result<T> = Ok(value: T) | Err(error: PriceError)

  function FindPaper(papers: seq<Paper>, id: string): Option<Paper> {
    if papers == [] then None else if papers[0].id == id then Some(papers[0]) else FindPaper(papers[1..], id)
  }

  function FindBinding(bindings: seq<Binding>, id: string): Option<Binding> {
    if bindings == [] then None else if bindings[0].id == id then Some(bindings[0]) else FindBinding(bindings[1..], id)
  }

  function ComputePrice(specs: JobSpecs, totalPages: int, options: PrintOptions): Result<PriceBreakdown> {
    var paper := FindPaper(options.papers, specs.paperSize);
    if paper.None? then Err(PaperNotOffered)
    else
      var perPage := if specs.color then paper.value.colorPaise else Some(paper.value.bwPaise);
      if perPage.None? then Err(BlackAndWhiteOnly)
      else
        var pagesPerCopy := PageRange.CountSelected(specs.pageRange, totalPages);
        if pagesPerCopy.None? then Err(RangeRejected)
        else
          var wanted := specs.binding.Some? && specs.binding.value != [];
          var binding := if wanted then FindBinding(options.bindings, specs.binding.value) else None;
          if wanted && binding.None? then Err(BindingNotOffered)
          else
            var bindingPaise := if wanted then binding.value.paise else 0;
            var pagesTotal := perPage.value * pagesPerCopy.value * specs.copies;
            Ok(PriceBreakdown(paper.value.title, pagesPerCopy.value, specs.copies, perPage.value, pagesTotal,
                              if wanted then Some(binding.value.title) else None, bindingPaise, 0, pagesTotal + bindingPaise))
  }

  /** `Math.round(numerator / denominator)`: halves go up. */
  function Round(numerator: int, denominator: int): int
    requires denominator > 0
  {
    (2 * numerator + denominator) / (2 * denominator)
  }

  const BASIS := 10_000
  const MIN_ORDER_PAISE := 100

  function ApplyPlatformMarkup(base: PriceBreakdown, markupBps: int): Result<PriceBreakdown> {
    if markupBps < 0 || markupBps > BASIS then Err(MarkupOutOfRange)
    else
      var perPage := Round(base.perPagePaise * (BASIS + markupBps), BASIS);
      var pagesTotal := perPage * base.pagesPerCopy * base.copies;
      var binding := Round(base.bindingPaise * (BASIS + markupBps), BASIS);
      Ok(base.(perPagePaise := perPage, pagesTotalPaise := pagesTotal, bindingPaise := binding, discountPaise := 0, totalPaise := pagesTotal + binding))
  }

  datatype ResolvedCoupon = ResolvedCoupon(percentOff: Option<nat>, paiseOff: Option<nat>)

  function RawDiscount(pre: int, coupon: ResolvedCoupon): int {
    if coupon.percentOff.Some? && coupon.percentOff.value != 0 then Round(pre * coupon.percentOff.value, 100)
    else if coupon.paiseOff.Some? then coupon.paiseOff.value
    else 0
  }

  function ApplyCoupon(breakdown: PriceBreakdown, coupon: ResolvedCoupon): PriceBreakdown {
    var pre := breakdown.pagesTotalPaise + breakdown.bindingPaise;
    var discount := Min(RawDiscount(pre, coupon), Max(0, pre - MIN_ORDER_PAISE));
    breakdown.(discountPaise := discount, totalPaise := pre - discount)
  }

  /** What an order records: the shop's base, the platform markup and the final breakdown. */
  datatype Quote = Quote(shopBase: PriceBreakdown, markupPaise: int, breakdown: PriceBreakdown)

  function QuoteOrder(specs: JobSpecs, totalPages: int, options: PrintOptions, markupBps: int, coupon: Option<ResolvedCoupon>): Result<Quote> {
    var base := ComputePrice(specs, totalPages, options);
    if base.Err? then Err(base.error)
    else
      var marked := ApplyPlatformMarkup(base.value, markupBps);
      if marked.Err? then Err(marked.error)
      else
        var final := if coupon.Some? then ApplyCoupon(marked.value, coupon.value) else marked.value;
        if final.totalPaise < MIN_ORDER_PAISE then Err(BelowMinimumOrder)
        else Ok(Quote(base.value, marked.value.totalPaise - base.value.totalPaise, final))
  }

  // ---------- properties ----------

  predicate FirstPaper(papers: seq<Paper>, k: nat, id: string) {
    k < |papers| && papers[k].id == id && forall i :: 0 <= i < k ==> papers[i].id != id
  }

  predicate FirstBinding(bindings: seq<Binding>, k: nat, id: string) {
    k < |bindings| && bindings[k].id == id && forall i :: 0 <= i < k ==> bindings[i].id != id
  }

  lemma {:induction false} FindPaperIsFirst(papers: seq<Paper>, id: string, k: nat)
    requires FirstPaper(papers, k, id)
    ensures FindPaper(papers, id) == Some(papers[k])
  {
    if k > 0 { FindPaperIsFirst(papers[1..], id, k - 1); }
  }

  lemma {:induction false} FindBindingIsFirst(bindings: seq<Binding>, id: string, k: nat)
    requires FirstBinding(bindings, k, id)
    ensures FindBinding(bindings, id) == Some(bindings[k])
  {
    if k > 0 { FindBindingIsFirst(bindings[1..], id, k - 1); }
  }

  /**
   * The price is the first matching paper's rate for the chosen ink, once per selected page and copy,
   * plus the first matching binding once; colour on a black-and-white paper is refused.
   */
  lemma {:induction false} PriceFollowsOffer(specs: JobSpecs, totalPages: int, options: PrintOptions, k: nat)
    requires FirstPaper(options.papers, k, specs.paperSize)
    requires PageRange.CountSelected(specs.pageRange, totalPages).Some?
    requires specs.binding.Some? && specs.binding.value != [] ==> exists j :: FirstBinding(options.bindings, j, specs.binding.value)
    ensures var r, paper, pages := ComputePrice(specs, totalPages, options), options.papers[k], PageRange.CountSelected(specs.pageRange, totalPages).value;
      && (r.Err? <==> specs.color && paper.colorPaise.None?) && (r.Err? ==> r.error == BlackAndWhiteOnly)
      && (r.Ok? ==> r.value.paperLabel == paper.title && r.value.pagesPerCopy == pages && r.value.copies == specs.copies && r.value.discountPaise == 0)
      && (r.Ok? ==> r.value.pagesTotalPaise == r.value.perPagePaise * pages * specs.copies)
      && (r.Ok? ==> (r.value.bindingLabel.Some? <==> specs.binding.Some? && specs.binding.value != []))
      && (r.Ok? && !specs.color ==> r.value.perPagePaise == paper.bwPaise)
      && (r.Ok? && specs.color ==> Some(r.value.perPagePaise) == paper.colorPaise)
      && (r.Ok? ==> r.value.totalPaise == r.value.perPagePaise * pages * specs.copies + r.value.bindingPaise)
      && (r.Ok? && (specs.binding.None? || specs.binding.value == []) ==> r.value.bindingPaise == 0)
      && (r.Ok? ==> forall j: nat :: specs.binding.Some? && specs.binding.value != [] && FirstBinding(options.bindings, j, specs.binding.value)
                      ==> r.value.bindingPaise == options.bindings[j].paise && r.value.bindingLabel == Some(options.bindings[j].title))
  {
    hide PageRange.CountSelected, FindPaper, FindBinding;
    FindPaperIsFirst(options.papers, specs.paperSize, k);
    if specs.binding.Some? && specs.binding.value != [] {
      var j :| FirstBinding(options.bindings, j, specs.binding.value);
      FindBindingIsFirst(options.bindings, specs.binding.value, j);
      forall i: nat | FirstBinding(options.bindings, i, specs.binding.value) ensures i == j {
      }
    }
  }

  lemma {:induction false} FindNothing(papers: seq<Paper>, bindings: seq<Binding>, id: string)
    ensures FindPaper(papers, id).None? <==> forall p :: p in papers ==> p.id != id
    ensures FindBinding(bindings, id).None? <==> forall b :: b in bindings ==> b.id != id
    decreases |papers| + |bindings|
  {
    if papers != [] {
      FindNothing(papers[1..], [], id);
      assert papers == [papers[0]] + papers[1..];
    }
    if bindings != [] {
      FindNothing([], bindings[1..], id);
      assert bindings == [bindings[0]] + bindings[1..];
    }
  }

  /** Why a price is refused: first no such paper, then a range that selects nothing, then no such binding; colour apart. */
  lemma {:induction false} PriceRefusedIff(specs: JobSpecs, totalPages: int, options: PrintOptions)
    ensures var r, counted := ComputePrice(specs, totalPages, options), PageRange.CountSelected(specs.pageRange, totalPages);
      && (r == Err(PaperNotOffered) <==> forall p :: p in options.papers ==> p.id != specs.paperSize)
      && (r == Err(RangeRejected) ==> counted.None?)
      && (counted.None? ==> r.Err? && r.error in {PaperNotOffered, BlackAndWhiteOnly, RangeRejected})
      && (r == Err(BindingNotOffered) ==> specs.binding.Some? && specs.binding.value != [] && forall b :: b in options.bindings ==> b.id != specs.binding.value)
      && (specs.binding.Some? && specs.binding.value != [] && (forall b :: b in options.bindings ==> b.id != specs.binding.value) ==> r.Err?)
      && (r.Err? ==> r.error !in {MarkupOutOfRange, BelowMinimumOrder})
  {
    hide PageRange.CountSelected, FindPaper, FindBinding;
    FindNothing(options.papers, options.bindings, specs.paperSize);
    if specs.binding.Some? { FindNothing(options.papers, options.bindings, specs.binding.value); }
  }

  predicate Sane(b: PriceBreakdown) {
    0 <= b.perPagePaise && 0 <= b.pagesPerCopy && 0 <= b.bindingPaise
    && b.pagesTotalPaise == b.perPagePaise * (b.pagesPerCopy * b.copies) && b.totalPaise == b.pagesTotalPaise + b.bindingPaise
  }

  lemma Cancel(a: int, b: int, d: int)
    requires d > 0 && a * d < b * d
    ensures a < b
  {
    assert (b - a) * d > 0;
  }

  /** Rounding is within half a unit, and never loses value that was whole. */
  lemma RoundIsNearest(numerator: int, denominator: int, whole: int)
    requires denominator > 0
    ensures var r := Round(numerator, denominator);
      -denominator <= 2 * (r * denominator - numerator) <= denominator
    ensures whole * denominator <= numerator ==> whole <= Round(numerator, denominator)
  {
    var r := Round(numerator, denominator);
    var d2 := 2 * denominator;
    assert r * d2 <= 2 * numerator + denominator < r * d2 + d2;
    assert r * d2 == 2 * (r * denominator);
    if whole * denominator <= numerator {
      assert whole * d2 == 2 * (whole * denominator);
      assert (r + 1) * d2 == r * d2 + d2;
      Cancel(whole, r + 1, d2);
    }
  }

  lemma CountIsNonNegative(range: Option<string>, totalPages: int)
    requires 0 <= totalPages && PageRange.CountSelected(range, totalPages).Some?
    ensures 0 <= PageRange.CountSelected(range, totalPages).value
  {
  }

  lemma Associates(a: int, b: int, c: int)
    ensures a * b * c == a * (b * c)
  {
  }

  lemma ComputedIsSane(specs: JobSpecs, totalPages: int, options: PrintOptions)
    requires 0 <= totalPages && ComputePrice(specs, totalPages, options).Ok?
    ensures Sane(ComputePrice(specs, totalPages, options).value)
  {
    hide PageRange.CountSelected, FindPaper, FindBinding;
    var b := ComputePrice(specs, totalPages, options).value;
    CountIsNonNegative(specs.pageRange, totalPages);
    Associates(b.perPagePaise, b.pagesPerCopy, b.copies);
  }

  /** `units` copies of one rounded price stay within half a paisa per unit, and at or above the unrounded base. */
  lemma UnitsRounded(units: nat, price: nat, markupBps: nat)
    ensures var marked := Round(price * (BASIS + markupBps), BASIS);
      && price <= marked && price * units <= marked * units
      && (markupBps == 0 ==> marked == price)
      && -BASIS * units <= 2 * (marked * units * BASIS - price * units * (BASIS + markupBps)) <= BASIS * units
  {
    hide Round;
    var m := BASIS + markupBps;
    var marked := Round(price * m, BASIS);
    Monotone(price, BASIS, m);
    RoundIsNearest(price * m, BASIS, price);
    var gap := 2 * (marked * BASIS - price * m);
    Monotone(units, gap, BASIS);
    Monotone(units, -BASIS, gap);
    Monotone(units, price, marked);
    Regroup(units, marked, price, m);
  }

  lemma Monotone(factor: nat, a: int, b: int)
    requires a <= b
    ensures factor * a <= factor * b
  {
  }

  lemma Regroup(units: int, marked: int, price: int, m: int)
    ensures units * (2 * (marked * BASIS - price * m)) == 2 * (marked * units * BASIS - price * units * m)
  {
    assert units * (marked * BASIS) == marked * units * BASIS;
    assert units * (price * m) == price * units * m;
    assert units * (marked * BASIS - price * m) == units * (marked * BASIS) - units * (price * m);
  }

  /**
   * The marked-up total is at least the base, equals it at 0 %, and is within half a paisa per printed
   * page, plus half a paisa for the binding, of the exact percentage.
   */
  lemma MarkupIsNearExact(base: PriceBreakdown, markupBps: int)
    requires Sane(base) && ApplyPlatformMarkup(base, markupBps).Ok?
    ensures var marked := ApplyPlatformMarkup(base, markupBps).value;
      var printed := base.pagesPerCopy * base.copies;
      && Sane(marked)
      && base.totalPaise <= marked.totalPaise
      && (markupBps == 0 ==> marked.totalPaise == base.totalPaise)
      && -10_000 * (printed + 1) <= 2 * (marked.totalPaise * 10_000 - base.totalPaise * (10_000 + markupBps)) <= 10_000 * (printed + 1)
  {
    hide Round;
    var marked := ApplyPlatformMarkup(base, markupBps).value;
    var printed: nat := base.pagesPerCopy * base.copies;
    UnitsRounded(printed, base.perPagePaise, markupBps);
    UnitsRounded(1, base.bindingPaise, markupBps);
    Associates(marked.perPagePaise, base.pagesPerCopy, base.copies);
    Distributes(base.pagesTotalPaise, base.bindingPaise, BASIS + markupBps);
  }

  lemma Distributes(a: int, b: int, m: int)
    ensures (a + b) * m == a * m + b * m
  {
  }

  /** A coupon takes off its face value, but never below the order floor nor below a price already under it. */
  lemma CouponRespectsFloor(breakdown: PriceBreakdown, coupon: ResolvedCoupon)
    requires Sane(breakdown)
    ensures var after := ApplyCoupon(breakdown, coupon);
      && Min(MIN_ORDER_PAISE, breakdown.totalPaise) <= after.totalPaise <= breakdown.totalPaise
      && after.totalPaise == Max(breakdown.totalPaise - RawDiscount(breakdown.totalPaise, coupon), Min(MIN_ORDER_PAISE, breakdown.totalPaise))
      && after.totalPaise + after.discountPaise == breakdown.totalPaise
  {
    var pre := breakdown.totalPaise;
    assert 0 <= breakdown.perPagePaise * (breakdown.pagesPerCopy * breakdown.copies);
    if coupon.percentOff.Some? {
      assert 0 <= pre * coupon.percentOff.value;
      RoundIsNearest(pre * coupon.percentOff.value, 100, 0);
    }
  }

  /**
   * What the coupon takes off, unless the floor caps it: within half a paisa of its percentage when it carries a non-zero
   * one, else its fixed amount, else nothing; the cap is what the price has above the floor.
   */
  lemma {:induction false} CouponTakesItsValue(breakdown: PriceBreakdown, coupon: ResolvedCoupon)
    requires Sane(breakdown)
    ensures var after, total := ApplyCoupon(breakdown, coupon), breakdown.totalPaise;
      var off, cap := after.discountPaise, Max(0, total - 100);
      && after == breakdown.(discountPaise := off, totalPaise := total - off) && 0 <= off <= cap
      && (coupon.percentOff.Some? && coupon.percentOff.value > 0 ==>
            (off < cap ==> -100 <= 2 * (100 * off - total * coupon.percentOff.value) <= 100)
            && (off == cap ==> 200 * cap <= 2 * total * coupon.percentOff.value + 100))
      && ((coupon.percentOff.None? || coupon.percentOff.value == 0) && coupon.paiseOff.Some? ==> off == Min(coupon.paiseOff.value, cap))
      && ((coupon.percentOff.None? || coupon.percentOff.value == 0) && coupon.paiseOff.None? ==> off == 0)
  {
    hide Round;
    var total := breakdown.totalPaise;
    assert 0 <= breakdown.perPagePaise * (breakdown.pagesPerCopy * breakdown.copies);
    if coupon.percentOff.Some? {
      assert 0 <= total * coupon.percentOff.value;
      RoundIsNearest(total * coupon.percentOff.value, 100, 0);
    }
  }

  /**
   * The price chain: final total = shop base + commission - shop-funded discount, only one of the two
   * being non-zero; the commission is what the coupon leaves of the markup.
   */
  lemma PriceChainReconciles(specs: JobSpecs, totalPages: int, options: PrintOptions, markupBps: int, coupon: Option<ResolvedCoupon>)
    requires 0 <= totalPages && QuoteOrder(specs, totalPages, options, markupBps, coupon).Ok?
    ensures var q := QuoteOrder(specs, totalPages, options, markupBps, coupon).value;
      var snapshot := DeriveCommissionSnapshot(q.breakdown.totalPaise, q.shopBase.totalPaise);
      && snapshot.Some? && 0 <= q.markupPaise
      && q.breakdown.totalPaise == q.shopBase.totalPaise + snapshot.value.commissionPaise - snapshot.value.shopFundedDiscountPaise
      && snapshot.value.commissionPaise == Max(0, q.markupPaise - q.breakdown.discountPaise)
      && snapshot.value.shopFundedDiscountPaise == Max(0, q.breakdown.discountPaise - q.markupPaise)
      && (coupon.None? ==> snapshot.value.commissionPaise == q.markupPaise)
  {
    hide ComputePrice, ApplyPlatformMarkup, ApplyCoupon, Sane;
    ComputedIsSane(specs, totalPages, options);
    var base := ComputePrice(specs, totalPages, options).value;
    MarkupIsNearExact(base, markupBps);
    var marked := ApplyPlatformMarkup(base, markupBps).value;
    assert 0 <= base.totalPaise && marked.discountPaise == 0 by { SaneIsNonNegative(base); MarkupHasNoDiscount(base, markupBps); }
    if coupon.Some? { CouponRespectsFloor(marked, coupon.value); }
  }

  /**
   * The quote: the base price, its markup within 0 to 100 %, and the coupon on top; an order is refused exactly when the
   * price is, the markup is out of range, or the marked-up price is below one rupee.
   */
  lemma {:induction false} QuoteIs(specs: JobSpecs, totalPages: int, options: PrintOptions, markupBps: int, coupon: Option<ResolvedCoupon>)
    requires 0 <= totalPages
    ensures var r, base := QuoteOrder(specs, totalPages, options, markupBps, coupon), ComputePrice(specs, totalPages, options);
      var inRange := 0 <= markupBps <= 10_000;
      && (base.Err? ==> r == Err(base.error))
      && (base.Ok? ==> (ApplyPlatformMarkup(base.value, markupBps).Ok? <==> inRange) && (!inRange ==> r == Err(MarkupOutOfRange)))
      && (base.Ok? && inRange ==>
            var marked := ApplyPlatformMarkup(base.value, markupBps).value;
            r == if marked.totalPaise < 100 then Err(BelowMinimumOrder)
                 else Ok(Quote(base.value, marked.totalPaise - base.value.totalPaise, match coupon case None => marked case Some(c) => ApplyCoupon(marked, c))))
  {
    hide ComputePrice, ApplyCoupon, Sane, Round;
    if ComputePrice(specs, totalPages, options).Ok? && 0 <= markupBps <= BASIS {
      ComputedIsSane(specs, totalPages, options);
      var base := ComputePrice(specs, totalPages, options).value;
      MarkupIsNearExact(base, markupBps);
      if coupon.Some? { CouponRespectsFloor(ApplyPlatformMarkup(base, markupBps).value, coupon.value); }
    }
  }

  lemma SaneIsNonNegative(b: PriceBreakdown)
    requires Sane(b)
    ensures 0 <= b.totalPaise
  {
    assert 0 <= b.perPagePaise * (b.pagesPerCopy * b.copies);
  }

  lemma MarkupHasNoDiscount(base: PriceBreakdown, markupBps: int)
    requires ApplyPlatformMarkup(base, markupBps).Ok?
    ensures ApplyPlatformMarkup(base, markupBps).value.discountPaise == 0
  {
  }

  /** A coupon never turns an order away: the one-rupee minimum is met with it exactly when it is met without. */
  lemma CouponNeverRefuses(specs: JobSpecs, totalPages: int, options: PrintOptions, markupBps: int, coupon: ResolvedCoupon)
    requires 0 <= totalPages
    ensures QuoteOrder(specs, totalPages, options, markupBps, Some(coupon)).Ok? <==> QuoteOrder(specs, totalPages, options, markupBps, None).Ok?
  {
    hide ComputePrice, ApplyPlatformMarkup, ApplyCoupon, Sane;
    if ComputePrice(specs, totalPages, options).Ok? {
      ComputedIsSane(specs, totalPages, options);
      var base := ComputePrice(specs, totalPages, options).value;
      if ApplyPlatformMarkup(base, markupBps).Ok? {
        MarkupIsNearExact(base, markupBps);
        CouponRespectsFloor(ApplyPlatformMarkup(base, markupBps).value, coupon);
      }
    }
  }
}
