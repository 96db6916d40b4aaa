/** The quote calculation of server/routes.ts: main-service hours from a
    per-room rate with a per-service minimum, catalogue and custom add-ons,
    the discount, GST, labour cost, profit, margin and deposit; and the
    add-on name formatter. Amounts are exact reals. */
module Quote {
  import opened Wrappers
  import opened Schema
  import opened AsciiText
  import opened Sequences

  datatype CustomAddon = CustomAddon(name: string, price: real)

  /** The request as `calculateQuote` reads it. */
  datatype QuoteRequest = QuoteRequest(
    service: Service,
    bedrooms: real,
    bathrooms: real,
    addons: seq<string>,
    customAddons: seq<CustomAddon>,
    discountApplied: bool,
    discountPercentage: real,
    discountAmount: real,
    hourlyRate: real,
    cleanerRate: real,
    customerName: Option<string>,
    customerPhone: Option<string>,
    customerEmail: Option<string>,
    depositPercentage: real)

  /** One line of the add-on breakdown. */
  datatype AddonItem = AddonItem(name: string, hours: real, cost: real)

  datatype QuoteResult = QuoteResult(
    service: Service,
    bedrooms: real,
    bathrooms: real,
    addons: seq<AddonItem>,
    customAddons: seq<CustomAddon>,
    mainServiceHours: real,
    mainServiceCost: real,
    subtotal: real,
    discountApplied: bool,
    discountPercentage: real,
    discountAmount: real,
    netRevenue: real,
    gst: real,
    total: real,
    cleanerPay: real,
    profit: real,
    margin: real,
    hourlyRate: real,
    cleanerRate: real,
    totalHours: real,
    customerName: Option<string>,
    customerPhone: Option<string>,
    customerEmail: Option<string>,
    depositPercentage: real,
    depositAmount: real)

  /** The one exception: "Invalid add-on service: <name>". */
  datatype QuoteError = InvalidAddon(name: string)

  function ErrorMessage(e: QuoteError): string {
    "Invalid add-on service: " + e.name
  }

  /** The schema fields of a request. */
  function AsCalculation(req: QuoteRequest): QuoteCalculation {
    QuoteCalculation(req.service, req.bedrooms, req.bathrooms, req.addons,
                     req.discountApplied, req.hourlyRate, req.cleanerRate)
  }

  /** The validator's bounds, plus the bounds the calculation assumes of the
      fields the validator does not declare. */
  predicate ValidRequest(req: QuoteRequest) {
    && WithinBounds(AsCalculation(req))
    && (forall i :: 0 <= i < |req.customAddons| ==> req.customAddons[i].price >= 0.0)
    && 0.0 <= req.discountPercentage <= 100.0
    && req.discountAmount >= 0.0
    && 0.0 <= req.depositPercentage <= 100.0
  }

  // ---------------------------------------------------------------------
  // Main service

  /** Hours per room. */
  function TimePerRoom(s: Service): real {
    match s
    case General => 0.8
    case Deep => 1.2
    case Move => 1.5
  }

  /** Minimum hours per job. */
  function MinTime(s: Service): real {
    match s
    case General => 1.5
    case Deep => 2.0
    case Move => 2.5
  }

  /** `Math.max(totalRooms * timePerRoom, minTime)`: the least value that is
      at least both the per-room estimate and the service minimum. */
  function MainServiceHours(s: Service, bedrooms: real, bathrooms: real): (h: real)
    ensures h >= MinTime(s) && h >= (bedrooms + bathrooms) * TimePerRoom(s)
    ensures h == MinTime(s) || h == (bedrooms + bathrooms) * TimePerRoom(s)
  {
    var perRoom := (bedrooms + bathrooms) * TimePerRoom(s);
    if perRoom >= MinTime(s) then perRoom else MinTime(s)
  }

  /** More rooms never shorten the job. */
  lemma MainServiceHoursMonotone(s: Service, bedrooms: real, bathrooms: real, bedrooms': real, bathrooms': real)
    requires bedrooms + bathrooms <= bedrooms' + bathrooms'
    ensures MainServiceHours(s, bedrooms, bathrooms) <= MainServiceHours(s, bedrooms', bathrooms')
  {
  }

  /** A more thorough service takes strictly longer for the same rooms. */
  lemma ServicesOrderedByHours(bedrooms: real, bathrooms: real)
    requires bedrooms + bathrooms >= 0.0
    ensures MainServiceHours(General, bedrooms, bathrooms) < MainServiceHours(Deep, bedrooms, bathrooms)
    ensures MainServiceHours(Deep, bedrooms, bathrooms) < MainServiceHours(Move, bedrooms, bathrooms)
  {
  }

  /** The formula does not reproduce the `SERVICES` table: at one bedroom and
      one bathroom a general clean is 1.6 hours by the formula, 2 by the table. */
  lemma FormulaDiffersFromTable()
    ensures MainServiceHours(General, 1.0, 1.0) == 1.6
    ensures ServiceTable(General)[(1, 1)] == 2.0
  {
  }

  // ---------------------------------------------------------------------
  // Catalogue add-ons

  /** `ADD_ONS[addonName]`, absent when the key is not in the catalogue. */
  function LookupAddon(name: string): Option<real> {
    if name in AddOns then Some(AddOns[name]) else None
  }

  /** JavaScript's `!hours` on a looked-up value: absent or zero. */
  predicate Falsy(h: Option<real>) {
    h.None? || h.value == 0.0
  }

  /** Because every catalogue entry is positive, the falsy test rejects
      exactly the keys missing from the catalogue. */
  lemma FalsyIffUnknown(name: string)
    ensures Falsy(LookupAddon(name)) <==> name !in AddOns
  {
    if name in AddOns {
      AddOnHoursPositive(name);
    }
  }

  /** The add-ons the falsy test rejects. */
  predicate Rejected(name: string) {
    Falsy(LookupAddon(name))
  }

  /** `addons.map(...)`: the breakdown in request order, or the error the
      mapping throws at the first name the falsy test rejects. */
  function AddonItems(addons: seq<string>, hourlyRate: real): (r: Result<seq<AddonItem>, QuoteError>)
    ensures r.Success? <==> forall i :: 0 <= i < |addons| ==> addons[i] in AddOns
    ensures r.Success? ==> |r.value| == |addons|
    ensures r.Success? ==> forall i :: 0 <= i < |addons| ==>
      && r.value[i].name == addons[i]
      && r.value[i].hours == AddOns[addons[i]]
      && r.value[i].cost == r.value[i].hours * hourlyRate
    ensures r.Failure? ==>
      exists i :: 0 <= i < |addons| && addons[i] == r.error.name && addons[i] !in AddOns
        && (forall j :: 0 <= j < i ==> addons[j] in AddOns)
  {
    match FindFirst(addons, Rejected)
    case Some(i) =>
      FalsyIffUnknown(addons[i]);
      assert forall j :: 0 <= j < i ==> addons[j] in AddOns by {
        forall j | 0 <= j < i ensures addons[j] in AddOns {
          FalsyIffUnknown(addons[j]);
        }
      }
      Failure(InvalidAddon(addons[i]))
    case None =>
      assert forall j :: 0 <= j < |addons| ==> addons[j] in AddOns by {
        forall j | 0 <= j < |addons| ensures addons[j] in AddOns {
          FalsyIffUnknown(addons[j]);
        }
      }
      Success(seq(|addons|, i requires 0 <= i < |addons| =>
        AddonItem(addons[i], AddOns[addons[i]], AddOns[addons[i]] * hourlyRate)))
  }

  // ---------------------------------------------------------------------
  // Sums, as left folds from 0 (`reduce((sum, x) => sum + x, 0)`)

  function Sum(xs: seq<real>): real {
    if xs == [] then 0.0 else Sum(xs[..|xs| - 1]) + xs[|xs| - 1]
  }

  function Costs(items: seq<AddonItem>): (r: seq<real>)
    ensures |r| == |items| && forall i :: 0 <= i < |items| ==> r[i] == items[i].cost
  {
    seq(|items|, i requires 0 <= i < |items| => items[i].cost)
  }

  function HoursOf(items: seq<AddonItem>): (r: seq<real>)
    ensures |r| == |items| && forall i :: 0 <= i < |items| ==> r[i] == items[i].hours
  {
    seq(|items|, i requires 0 <= i < |items| => items[i].hours)
  }

  function Prices(customAddons: seq<CustomAddon>): (r: seq<real>)
    ensures |r| == |customAddons| && forall i :: 0 <= i < |customAddons| ==> r[i] == customAddons[i].price
  {
    seq(|customAddons|, i requires 0 <= i < |customAddons| => customAddons[i].price)
  }

  lemma {:induction false} SumNonNegative(xs: seq<real>)
    requires forall i :: 0 <= i < |xs| ==> xs[i] >= 0.0
    ensures Sum(xs) >= 0.0
  {
    if xs != [] {
      SumNonNegative(xs[..|xs| - 1]);
    }
  }

  /** Scaling every term scales the sum. */
  lemma {:induction false} SumScaled(xs: seq<real>, ys: seq<real>, c: real)
    requires |xs| == |ys|
    requires forall i :: 0 <= i < |xs| ==> ys[i] == xs[i] * c
    ensures Sum(ys) == Sum(xs) * c
  {
    if xs != [] {
      SumScaled(xs[..|xs| - 1], ys[..|ys| - 1], c);
    }
  }

  /** The catalogue add-on cost is the catalogue add-on hours at the hourly rate. */
  lemma AddonCostIsHoursAtRate(items: seq<AddonItem>, hourlyRate: real)
    requires forall i :: 0 <= i < |items| ==> items[i].cost == items[i].hours * hourlyRate
    ensures Sum(Costs(items)) == Sum(HoursOf(items)) * hourlyRate
  {
    SumScaled(HoursOf(items), Costs(items), hourlyRate);
  }

  // ---------------------------------------------------------------------
  // Discount, margin

  /** The discount: none unless applied; a positive fixed amount capped at
      the subtotal; otherwise the percentage of the subtotal. */
  function ResolveDiscount(applied: bool, amount: real, percentage: real, subtotal: real): (d: real)
    ensures !applied ==> d == 0.0
    ensures applied && amount > 0.0 ==> d <= amount && d <= subtotal && (d == amount || d == subtotal)
    ensures applied && amount <= 0.0 ==> d * 100.0 == subtotal * percentage
  {
    if !applied then 0.0
    else if amount > 0.0 then (if amount <= subtotal then amount else subtotal)
    else subtotal * (percentage / 100.0)
  }

  /** Scaling a non-negative amount by a fraction in 0..1 cannot increase it. */
  lemma ScaleWithin(x: real, f: real)
    requires x >= 0.0 && 0.0 <= f <= 1.0
    ensures 0.0 <= x * f <= x
  {
    assert x * (1.0 - f) >= 0.0;
  }

  /** Multiplication distributes over a difference. */
  lemma Distribute(a: real, b: real, f: real)
    ensures (a - b) * f == a * f - b * f
  {
  }

  /** Taking the same fraction off a larger amount leaves more. */
  lemma PercentageNetMonotone(x: real, x': real, f: real)
    requires 0.0 <= x <= x' && 0.0 <= f <= 1.0
    ensures x - x * f <= x' - x' * f
  {
    Distribute(x', x, f);
    ScaleWithin(x' - x, f);
  }

  /** A non-negative subtotal with a percentage in 0..100 gives a discount
      between zero and the subtotal. */
  lemma DiscountWithinSubtotal(applied: bool, amount: real, percentage: real, subtotal: real)
    requires subtotal >= 0.0 && 0.0 <= percentage <= 100.0
    ensures 0.0 <= ResolveDiscount(applied, amount, percentage, subtotal) <= subtotal
  {
    if applied && amount <= 0.0 {
      ScaleWithin(subtotal, percentage / 100.0);
    }
  }

  /** Net revenue after the discount never decreases as the subtotal grows. */
  lemma NetRevenueMonotone(applied: bool, amount: real, percentage: real, subtotal: real, subtotal': real)
    requires 0.0 <= subtotal <= subtotal' && 0.0 <= percentage <= 100.0
    ensures subtotal - ResolveDiscount(applied, amount, percentage, subtotal)
         <= subtotal' - ResolveDiscount(applied, amount, percentage, subtotal')
  {
    if applied && amount <= 0.0 {
      PercentageNetMonotone(subtotal, subtotal', percentage / 100.0);
    }
  }

  /** Profit as a percentage of net revenue, 0 when there is no positive
      net revenue. */
  function Margin(profit: real, netRevenue: real): (m: real)
    ensures netRevenue <= 0.0 ==> m == 0.0
    ensures netRevenue > 0.0 ==> m * netRevenue == profit * 100.0
  {
    if netRevenue > 0.0 then (profit / netRevenue) * 100.0 else 0.0
  }

  /** A profit below net revenue is a margin below 100%. */
  lemma MarginBelowHundred(profit: real, netRevenue: real)
    requires profit < netRevenue
    ensures Margin(profit, netRevenue) < 100.0
  {
    if netRevenue > 0.0 {
      assert Margin(profit, netRevenue) * netRevenue < 100.0 * netRevenue;
    }
  }

  // ---------------------------------------------------------------------
  // The calculation

  /** `total * (depositPercentage / 100)`: that percentage of the total. */
  function Deposit(total: real, percentage: real): (d: real)
    ensures d * 100.0 == total * percentage
  {
    total * (percentage / 100.0)
  }

  /** The breakdown is priced at the hourly rate, and the subtotal is the
      main service plus the catalogue and custom add-ons. */
  predicate PricingConsistent(q: QuoteResult) {
    && q.mainServiceCost == q.mainServiceHours * q.hourlyRate
    && (forall i :: 0 <= i < |q.addons| ==> q.addons[i].cost == q.addons[i].hours * q.hourlyRate)
    && q.subtotal == q.mainServiceCost + Sum(Costs(q.addons)) + Sum(Prices(q.customAddons))
  }

  /** Net revenue is the subtotal less the discount; GST is charged on it. */
  predicate RevenueConsistent(q: QuoteResult) {
    && q.netRevenue == q.subtotal - q.discountAmount
    && q.gst == q.netRevenue * GstRate
    && q.total == q.netRevenue + q.gst
  }

  /** Labour covers the main service and the catalogue add-ons only; profit,
      margin and deposit follow. */
  predicate LabourConsistent(q: QuoteResult) {
    && q.totalHours == q.mainServiceHours + Sum(HoursOf(q.addons))
    && q.cleanerPay == q.totalHours * q.cleanerRate
    && q.profit == q.netRevenue - q.cleanerPay
    && q.margin == Margin(q.profit, q.netRevenue)
    && q.depositAmount == Deposit(q.total, q.depositPercentage)
  }

  /** A percentage in 0..100 of a non-negative total is between zero and
      the total. */
  lemma DepositWithinTotal(total: real, percentage: real)
    requires total >= 0.0 && 0.0 <= percentage <= 100.0
    ensures 0.0 <= Deposit(total, percentage) <= total
  {
    assert total * percentage <= total * 100.0;
  }

  /** The relations every computed quote keeps among its own fields. */
  predicate Consistent(q: QuoteResult) {
    PricingConsistent(q) && RevenueConsistent(q) && LabourConsistent(q)
  }

  /** The quote for a request whose catalogue add-ons have been priced. */
  function Priced(req: QuoteRequest, items: seq<AddonItem>): QuoteResult {
    var hours := MainServiceHours(req.service, req.bedrooms, req.bathrooms);
    var mainServiceCost := hours * req.hourlyRate;
    var subtotal := mainServiceCost + Sum(Costs(items)) + Sum(Prices(req.customAddons));
    var discount := ResolveDiscount(req.discountApplied, req.discountAmount, req.discountPercentage, subtotal);
    var netRevenue := subtotal - discount;
    var gst := netRevenue * GstRate;
    var total := netRevenue + gst;
    var totalHours := hours + Sum(HoursOf(items));
    var cleanerPay := totalHours * req.cleanerRate;
    var profit := netRevenue - cleanerPay;
    QuoteResult(
      req.service, req.bedrooms, req.bathrooms, items, req.customAddons,
      hours, mainServiceCost, subtotal,
      req.discountApplied, req.discountPercentage, discount,
      netRevenue, gst, total, cleanerPay, profit, Margin(profit, netRevenue),
      req.hourlyRate, req.cleanerRate, totalHours,
      req.customerName, req.customerPhone, req.customerEmail,
      req.depositPercentage, Deposit(total, req.depositPercentage))
  }

  // The lemmas below each restate one field of `Priced`. They are not
  // properties of the calculation: they split the proof that `Priced` is
  // `Consistent` into small steps, each cheap for the solver.

  lemma PricedPricingConsistent(req: QuoteRequest, items: seq<AddonItem>)
    requires forall i :: 0 <= i < |items| ==> items[i].cost == items[i].hours * req.hourlyRate
    ensures PricingConsistent(Priced(req, items))
  {
    PricedItemCosts(req, items);
    PricedMainCost(req, items);
    PricedSubtotal(req, items);
  }

  lemma PricedMainCost(req: QuoteRequest, items: seq<AddonItem>)
    ensures var q := Priced(req, items); q.mainServiceCost == q.mainServiceHours * q.hourlyRate
  {
  }

  lemma PricedSubtotal(req: QuoteRequest, items: seq<AddonItem>)
    ensures var q := Priced(req, items);
      q.subtotal == q.mainServiceCost + Sum(Costs(q.addons)) + Sum(Prices(q.customAddons))
  {
  }

  lemma PricedItemCosts(req: QuoteRequest, items: seq<AddonItem>)
    requires forall i :: 0 <= i < |items| ==> items[i].cost == items[i].hours * req.hourlyRate
    ensures var q := Priced(req, items);
      forall i :: 0 <= i < |q.addons| ==> q.addons[i].cost == q.addons[i].hours * q.hourlyRate
  {
  }

  lemma PricedRevenueConsistent(req: QuoteRequest, items: seq<AddonItem>)
    ensures RevenueConsistent(Priced(req, items))
  {
    PricedNetRevenue(req, items);
    PricedGst(req, items);
    PricedTotal(req, items);
  }

  lemma PricedNetRevenue(req: QuoteRequest, items: seq<AddonItem>)
    ensures var q := Priced(req, items); q.netRevenue == q.subtotal - q.discountAmount
  {
  }

  lemma PricedGst(req: QuoteRequest, items: seq<AddonItem>)
    ensures var q := Priced(req, items); q.gst == q.netRevenue * GstRate
  {
  }

  lemma PricedTotal(req: QuoteRequest, items: seq<AddonItem>)
    ensures var q := Priced(req, items); q.total == q.netRevenue + q.gst
  {
  }

  lemma PricedLabourConsistent(req: QuoteRequest, items: seq<AddonItem>)
    ensures LabourConsistent(Priced(req, items))
  {
    PricedTotalHours(req, items);
    PricedCleanerPay(req, items);
    PricedProfit(req, items);
    PricedMargin(req, items);
    PricedDeposit(req, items);
  }

  lemma PricedTotalHours(req: QuoteRequest, items: seq<AddonItem>)
    ensures var q := Priced(req, items); q.totalHours == q.mainServiceHours + Sum(HoursOf(q.addons))
  {
  }

  lemma PricedCleanerPay(req: QuoteRequest, items: seq<AddonItem>)
    ensures var q := Priced(req, items); q.cleanerPay == q.totalHours * q.cleanerRate
  {
  }

  lemma PricedProfit(req: QuoteRequest, items: seq<AddonItem>)
    ensures var q := Priced(req, items); q.profit == q.netRevenue - q.cleanerPay
  {
  }

  lemma PricedMargin(req: QuoteRequest, items: seq<AddonItem>)
    ensures var q := Priced(req, items); q.margin == Margin(q.profit, q.netRevenue)
  {
  }

  lemma PricedDeposit(req: QuoteRequest, items: seq<AddonItem>)
    ensures var q := Priced(req, items); q.depositAmount == Deposit(q.total, q.depositPercentage)
  {
  }

  /** `calculateQuote`: the priced quote, or the error for the first unknown
      catalogue add-on. A quote keeps the request's fields, lists one
      breakdown line per requested add-on in request order, and satisfies
      `Consistent`. */
  function CalculateQuote(req: QuoteRequest): (r: Result<QuoteResult, QuoteError>)
    ensures r.Success? <==> forall i :: 0 <= i < |req.addons| ==> req.addons[i] in AddOns
    ensures r.Failure? ==>
      exists i :: 0 <= i < |req.addons| && req.addons[i] == r.error.name && req.addons[i] !in AddOns
        && (forall j :: 0 <= j < i ==> req.addons[j] in AddOns)
    ensures r.Success? ==> var q := r.value;
      && Consistent(q)
      && |q.addons| == |req.addons|
      && (forall i :: 0 <= i < |req.addons| ==>
            q.addons[i].name == req.addons[i] && q.addons[i].hours == AddOns[req.addons[i]])
      && q.mainServiceHours == MainServiceHours(req.service, req.bedrooms, req.bathrooms)
      && q.discountAmount == ResolveDiscount(req.discountApplied, req.discountAmount, req.discountPercentage, q.subtotal)
    ensures r.Success? ==> var q := r.value;
      && q.service == req.service && q.bedrooms == req.bedrooms && q.bathrooms == req.bathrooms
      && q.customAddons == req.customAddons && q.discountApplied == req.discountApplied
      && q.discountPercentage == req.discountPercentage
      && q.hourlyRate == req.hourlyRate && q.cleanerRate == req.cleanerRate
      && q.customerName == req.customerName && q.customerPhone == req.customerPhone
      && q.customerEmail == req.customerEmail && q.depositPercentage == req.depositPercentage
  {
    match AddonItems(req.addons, req.hourlyRate)
    case Failure(e) => Failure(e)
    case Success(items) =>
      PricedPricingConsistent(req, items);
      PricedRevenueConsistent(req, items);
      PricedLabourConsistent(req, items);
      Success(Priced(req, items))
  }

  /** The total is net revenue plus 10% GST, so 1.1 times net revenue. */
  lemma TotalIsNetRevenuePlusGst(q: QuoteResult)
    requires Consistent(q)
    ensures q.gst * 10.0 == q.netRevenue
    ensures q.total == q.netRevenue * 1.1
  {
  }

  /** The catalogue add-ons cost their hours at the hourly rate. */
  lemma AddonCostOfQuote(q: QuoteResult)
    requires Consistent(q)
    ensures q.subtotal == (q.mainServiceHours + Sum(HoursOf(q.addons))) * q.hourlyRate + Sum(Prices(q.customAddons))
  {
    AddonCostIsHoursAtRate(q.addons, q.hourlyRate);
  }

  /** A 0% deposit is nothing and a 100% deposit is the whole total. */
  lemma DepositBoundaries(q: QuoteResult)
    requires Consistent(q)
    ensures q.depositPercentage == 0.0 ==> q.depositAmount == 0.0
    ensures q.depositPercentage == 100.0 ==> q.depositAmount == q.total
  {
  }

  /** With positive main-service hours and hourly rate, and no negative
      add-on hours or custom prices, the subtotal is positive. */
  lemma SubtotalPositive(q: QuoteResult)
    requires PricingConsistent(q)
    requires q.mainServiceHours > 0.0 && q.hourlyRate > 0.0
    requires Sum(HoursOf(q.addons)) >= 0.0 && Sum(Prices(q.customAddons)) >= 0.0
    ensures q.subtotal >= q.mainServiceCost > 0.0
  {
    AddonCostIsHoursAtRate(q.addons, q.hourlyRate);
    assert Sum(HoursOf(q.addons)) * q.hourlyRate >= 0.0;
  }

  /** Once the discount lies within the subtotal: net revenue, GST and the
      deposit are non-negative, the deposit is at most the total, and with
      positive labour hours and cleaner rate the profit stays below net
      revenue and the margin below 100%. */
  lemma RevenueBounds(q: QuoteResult)
    requires RevenueConsistent(q) && LabourConsistent(q)
    requires 0.0 <= q.discountAmount <= q.subtotal
    requires 0.0 <= q.depositPercentage <= 100.0
    requires q.totalHours > 0.0 && q.cleanerRate > 0.0
    ensures q.netRevenue >= 0.0 && q.gst >= 0.0 && q.total >= q.netRevenue
    ensures 0.0 <= q.depositAmount <= q.total
    ensures q.cleanerPay > 0.0 && q.profit < q.netRevenue && q.margin < 100.0
  {
    assert q.total >= 0.0;
    DepositWithinTotal(q.total, q.depositPercentage);
    assert q.cleanerPay > 0.0;
    MarginBelowHundred(q.profit, q.netRevenue);
  }

  /** The catalogue add-on hours of a successful quote are non-negative. */
  lemma AddonHoursNonNegative(req: QuoteRequest)
    requires CalculateQuote(req).Success?
    ensures Sum(HoursOf(CalculateQuote(req).value.addons)) >= 0.0
  {
    var q := CalculateQuote(req).value;
    forall i | 0 <= i < |q.addons|
      ensures HoursOf(q.addons)[i] >= 0.0
    {
      AddOnHoursPositive(req.addons[i]);
    }
    SumNonNegative(HoursOf(q.addons));
  }

  /** For a request within bounds: the subtotal is positive, the discount
      lies between zero and the subtotal, net revenue and GST are
      non-negative, the deposit is at most the total, labour cost is
      positive, so profit is below net revenue and the margin below 100%. */
  lemma QuoteWithinBounds(req: QuoteRequest)
    requires ValidRequest(req)
    requires CalculateQuote(req).Success?
    ensures var q := CalculateQuote(req).value;
      && q.subtotal > 0.0
      && 0.0 <= q.discountAmount <= q.subtotal
      && q.netRevenue >= 0.0 && q.gst >= 0.0 && q.total >= q.netRevenue
      && 0.0 <= q.depositAmount <= q.total
      && q.totalHours > 0.0 && q.cleanerPay > 0.0
      && q.profit < q.netRevenue
      && q.margin < 100.0
  {
    var q := CalculateQuote(req).value;
    AddonHoursNonNegative(req);
    SumNonNegative(Prices(req.customAddons));
    SubtotalPositive(q);
    DiscountWithinSubtotal(req.discountApplied, req.discountAmount, req.discountPercentage, q.subtotal);
    RevenueBounds(q);
  }

  /** Of two quotes for the same work, the one at the higher hourly rate has
      the higher main-service cost and subtotal. */
  lemma SubtotalGrowsWithRate(q: QuoteResult, q': QuoteResult)
    requires PricingConsistent(q) && PricingConsistent(q')
    requires q.mainServiceHours == q'.mainServiceHours > 0.0
    requires HoursOf(q.addons) == HoursOf(q'.addons) && Sum(HoursOf(q.addons)) >= 0.0
    requires q.customAddons == q'.customAddons
    requires q.hourlyRate < q'.hourlyRate
    ensures q.mainServiceCost < q'.mainServiceCost && q.subtotal < q'.subtotal
  {
    AddonCostIsHoursAtRate(q.addons, q.hourlyRate);
    AddonCostIsHoursAtRate(q'.addons, q'.hourlyRate);
    var h := Sum(HoursOf(q.addons));
    assert h * q.hourlyRate <= h * q'.hourlyRate;
    assert q.mainServiceHours * q.hourlyRate < q.mainServiceHours * q'.hourlyRate;
  }

  /** Raising the hourly rate strictly raises the main-service cost and the
      subtotal, never lowers the total, and strictly raises it when no
      discount is applied. */
  lemma HourlyRateMonotone(req: QuoteRequest, hourlyRate': real)
    requires ValidRequest(req) && req.hourlyRate < hourlyRate'
    requires CalculateQuote(req).Success?
    ensures CalculateQuote(req.(hourlyRate := hourlyRate')).Success?
    ensures var q, q' := CalculateQuote(req).value, CalculateQuote(req.(hourlyRate := hourlyRate')).value;
      && q.mainServiceCost < q'.mainServiceCost
      && q.subtotal < q'.subtotal
      && q.total <= q'.total
      && (!req.discountApplied ==> q.total < q'.total)
  {
    var req' := req.(hourlyRate := hourlyRate');
    var q, q' := CalculateQuote(req).value, CalculateQuote(req').value;
    assert HoursOf(q.addons) == HoursOf(q'.addons);
    AddonHoursNonNegative(req);
    SumNonNegative(Prices(req.customAddons));
    SubtotalPositive(q);
    SubtotalGrowsWithRate(q, q');
    NetRevenueMonotone(req.discountApplied, req.discountAmount, req.discountPercentage, q.subtotal, q'.subtotal);
  }

  /** Two quotes for the same work at the same hourly rate: the same
      main-service cost, and subtotals that differ by exactly the
      difference of the custom add-on prices. */
  lemma SameWorkSamePrice(q: QuoteResult, q': QuoteResult)
    requires PricingConsistent(q) && PricingConsistent(q')
    requires q.mainServiceHours == q'.mainServiceHours && q.hourlyRate == q'.hourlyRate
    requires q.addons == q'.addons
    ensures q.mainServiceCost == q'.mainServiceCost
    ensures q'.subtotal - q.subtotal == Sum(Prices(q'.customAddons)) - Sum(Prices(q.customAddons))
  {
  }

  /** Of two quotes with the same hours and net revenue, the one at the
      higher cleaner rate has the lower profit. */
  lemma ProfitFallsWithCleanerRate(q: QuoteResult, q': QuoteResult)
    requires LabourConsistent(q) && LabourConsistent(q')
    requires q.totalHours == q'.totalHours > 0.0 && q.netRevenue == q'.netRevenue
    requires q.cleanerRate < q'.cleanerRate
    ensures q'.profit < q.profit
  {
    assert q.totalHours * q.cleanerRate < q.totalHours * q'.cleanerRate;
  }

  /** Raising the cleaner rate strictly lowers the profit. */
  lemma CleanerRateLowersProfit(req: QuoteRequest, cleanerRate': real)
    requires ValidRequest(req) && req.cleanerRate < cleanerRate'
    requires CalculateQuote(req).Success?
    ensures CalculateQuote(req.(cleanerRate := cleanerRate')).Success?
    ensures CalculateQuote(req.(cleanerRate := cleanerRate')).value.profit < CalculateQuote(req).value.profit
  {
    var q, q' := CalculateQuote(req).value, CalculateQuote(req.(cleanerRate := cleanerRate')).value;
    assert PricingConsistent(q) && PricingConsistent(q');
    assert RevenueConsistent(q) && RevenueConsistent(q');
    assert LabourConsistent(q) && LabourConsistent(q');
    assert q.addons == q'.addons by {
      assert forall i :: 0 <= i < |q.addons| ==> q.addons[i] == q'.addons[i];
    }
    SameWorkSamePrice(q, q');
    AddonHoursNonNegative(req);
    ProfitFallsWithCleanerRate(q, q');
  }

  /** Appending a custom add-on raises the subtotal by exactly its price and
      leaves the hours untouched. */
  lemma CustomAddonAddsCostNotHours(req: QuoteRequest, extra: CustomAddon)
    requires CalculateQuote(req).Success?
    ensures CalculateQuote(req.(customAddons := req.customAddons + [extra])).Success?
    ensures var q, q' := CalculateQuote(req).value, CalculateQuote(req.(customAddons := req.customAddons + [extra])).value;
      && q'.subtotal - q.subtotal == extra.price
      && q'.totalHours == q.totalHours
      && q'.mainServiceHours == q.mainServiceHours
  {
    var req' := req.(customAddons := req.customAddons + [extra]);
    var q, q' := CalculateQuote(req).value, CalculateQuote(req').value;
    assert PricingConsistent(q) && PricingConsistent(q');
    assert LabourConsistent(q) && LabourConsistent(q');
    assert q.addons == q'.addons by {
      assert forall i :: 0 <= i < |q.addons| ==> q.addons[i] == q'.addons[i];
    }
    SameWorkSamePrice(q, q');
    assert Prices(req'.customAddons)[..|req'.customAddons| - 1] == Prices(req.customAddons);
  }

  /** The figures of a one-room general clean: any consistent quote of 1.6
      hours at $60 and $35 an hour, with nothing else added, no discount and
      no deposit. */
  lemma SingleRoomFigures(q: QuoteResult)
    requires Consistent(q)
    requires q.mainServiceHours == 1.6 && q.hourlyRate == 60.0 && q.cleanerRate == 35.0
    requires q.addons == [] && q.customAddons == [] && q.discountAmount == 0.0 && q.depositPercentage == 0.0
    ensures q.mainServiceCost == 96.0 && q.subtotal == 96.0 && q.gst == 9.6 && q.total == 105.6
    ensures q.cleanerPay == 56.0 && q.profit == 40.0 && q.depositAmount == 0.0
  {
  }

  /** One general clean of one bedroom and one bathroom at the default rates,
      with no add-ons, no discount and no deposit, is quoted for 1.6 hours
      with nothing else to add; `SingleRoomFigures` then gives $96 before
      GST, $105.60 in total, $56 of labour and $40 profit. */
  lemma SingleRoomGeneralClean(req: QuoteRequest)
    requires req == QuoteRequest(General, 1.0, 1.0, [], [], false, 0.0, 0.0, 60.0, 35.0, None, None, None, 0.0)
    ensures CalculateQuote(req).Success?
    ensures var q := CalculateQuote(req).value;
      && Consistent(q)
      && q.mainServiceHours == 1.6 && q.hourlyRate == 60.0 && q.cleanerRate == 35.0
      && q.addons == [] && q.customAddons == [] && q.discountAmount == 0.0 && q.depositPercentage == 0.0
  {
    var q := CalculateQuote(req).value;
    assert |q.addons| == 0;
    FormulaDiffersFromTable();
  }

  // ---------------------------------------------------------------------
  // formatAddonName

  /** `name.replace(/_/g, ' ')`. */
  function ReplaceUnderscores(s: string): (r: string)
    ensures |r| == |s|
    ensures forall i :: 0 <= i < |s| ==> r[i] == (if s[i] == '_' then ' ' else s[i])
  {
    seq(|s|, i requires 0 <= i < |s| => if s[i] == '_' then ' ' else s[i])
  }

  /** `\b\w` matches at `i`: a word character not preceded by one. */
  predicate StartsWord(s: string, i: int)
    requires 0 <= i < |s|
  {
    IsWordChar(s[i]) && (i == 0 || !IsWordChar(s[i - 1]))
  }

  /** `.replace(/\b\w/g, l => l.toUpperCase())`. */
  function CapitalizeWords(s: string): (r: string)
    ensures |r| == |s|
    ensures forall i :: 0 <= i < |s| ==> r[i] == (if StartsWord(s, i) then UpperChar(s[i]) else s[i])
  {
    seq(|s|, i requires 0 <= i < |s| => if StartsWord(s, i) then UpperChar(s[i]) else s[i])
  }

  /** `formatAddonName`: underscores become spaces and every word begins
      with a capital; nothing else changes, so the length is kept. */
  function FormatAddonName(name: string): (r: string)
    ensures |r| == |name|
    ensures forall i :: 0 <= i < |r| ==> r[i] != '_'
    ensures forall i :: 0 <= i < |r| ==> (r[i] == ' ' <==> name[i] == '_' || name[i] == ' ')
    ensures forall i :: 0 <= i < |r| && name[i] != '_' ==> LowerChar(r[i]) == LowerChar(name[i])
  {
    CapitalizeWords(ReplaceUnderscores(name))
  }

  /** A letter that begins a word of the name (at the start, after an
      underscore, or after a character that is not a letter, a digit or an
      underscore) comes out upper-case; any other letter keeps its case. */
  lemma FormatCapitalizesWordStarts(name: string, i: nat)
    requires i < |name| && (IsLower(name[i]) || IsUpper(name[i]))
    ensures var startsWord := i == 0 || name[i - 1] == '_' || !IsWordChar(name[i - 1]);
      && (startsWord ==> IsUpper(FormatAddonName(name)[i]))
      && (!startsWord ==> FormatAddonName(name)[i] == name[i])
  {
    var s := ReplaceUnderscores(name);
    assert s[i] == name[i];
    if i > 0 {
      assert s[i - 1] == (if name[i - 1] == '_' then ' ' else name[i - 1]);
    }
  }

  /** Formatting an already formatted name changes nothing. */
  lemma FormatIdempotent(name: string)
    ensures FormatAddonName(FormatAddonName(name)) == FormatAddonName(name)
  {
    var s := ReplaceUnderscores(name);
    var r := CapitalizeWords(s);
    assert ReplaceUnderscores(r) == r;
    forall i | 0 <= i < |r|
      ensures CapitalizeWords(r)[i] == r[i]
    {
      assert IsWordChar(r[i]) == IsWordChar(s[i]);
      if i > 0 {
        assert IsWordChar(r[i - 1]) == IsWordChar(s[i - 1]);
      }
    }
  }

  /** A catalogue key as the quote form displays it. */
  lemma FormatCatalogueKey()
    ensures FormatAddonName("extra_bedroom") == "Extra Bedroom"
  {
    var s := ReplaceUnderscores("extra_bedroom");
    assert s == "extra bedroom";
    assert CapitalizeWords(s) == "Extra Bedroom";
  }
}
