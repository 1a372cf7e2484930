/**
 The three ESCO tender variants, the per-variant constants they declare,
 and the tender and bid records the valuation layer reads.
 */
module Tenders {
  import opened Wrappers
  import opened Money

  /** The National Bank discount rate declared by the UA and EU tenders. */
  const NBU_DISCOUNT_RATE: real := 0.22

  datatype Variant = EscoUA | EscoEU | EscoReporting

  /** The bid class a variant's `bids` list holds. */
  datatype BidKind = UABid | EUBid

  /**
   What a variant declares: its `procurementMethodType` default, its
   discount rate (if any) and the kind of bid it collects (if any).
   */
  datatype VariantConfig = VariantConfig(
    procurementMethodType: string,
    discountRate: Option<real>,
    bidKind: Option<BidKind>)

  function Config(v: Variant): (c: VariantConfig)
    // a variant takes bids exactly when it declares a discount rate to value them
    ensures v == EscoUA ==> c.procurementMethodType == "esco.UA"
    ensures v == EscoEU ==> c.procurementMethodType == "esco.EU"
    ensures v == EscoReporting ==> c.procurementMethodType == "esco.reporting"
    ensures c.discountRate.Some? <==> c.bidKind.Some?
    ensures c.discountRate.Some? ==> c.discountRate.value == NBU_DISCOUNT_RATE
    ensures c.bidKind.None? <==> v == EscoReporting
    ensures c.bidKind == Some(UABid) <==> v == EscoUA
    ensures c.bidKind == Some(EUBid) <==> v == EscoEU
  {
    match v
    case EscoUA => VariantConfig("esco.UA", Some(NBU_DISCOUNT_RATE), Some(UABid))
    case EscoEU => VariantConfig("esco.EU", Some(NBU_DISCOUNT_RATE), Some(EUBid))
    case EscoReporting => VariantConfig("esco.reporting", None, None)
  }

  /** Dispatch on a `procurementMethodType` string back to its variant. */
  function ParseMethodType(s: string): (r: Option<Variant>)
    ensures r.Some? ==> Config(r.value).procurementMethodType == s
  {
    if s == "esco.UA" then Some(EscoUA)
    else if s == "esco.EU" then Some(EscoEU)
    else if s == "esco.reporting" then Some(EscoReporting)
    else None
  }

  /** Each variant's method type dispatches back to that variant, so no two variants share one. */
  lemma MethodTypeRoundTrip(v: Variant)
    ensures ParseMethodType(Config(v).procurementMethodType) == Some(v)
  {
  }

  lemma MethodTypeInjective(v: Variant, w: Variant)
    ensures Config(v).procurementMethodType == Config(w).procurementMethodType ==> v == w
  {
    MethodTypeRoundTrip(v);
    MethodTypeRoundTrip(w);
  }

  /** A lot grouping of a tender; only its presence matters here. */
  datatype Lot = Lot(id: string)

  /** The ESCO terms a bidder submits: the inputs of the valuation. */
  datatype Terms = Terms(
    yearlyPayments: real,          // share of annual payments in favour of the bidder
    annualCostsReduction: Value,   // the buyer's annual costs reduction
    contractDuration: int)         // in years

  /** The ranges the field types declare for the terms. */
  predicate WellFormedTerms(t: Terms) {
    && 0.0 <= t.yearlyPayments <= 1.0
    && 0 <= t.contractDuration <= 10
  }

  datatype Bid = Bid(id: string, status: string, terms: Terms)

  /** A tender: its variant, baseline value, lots and the bids it holds. */
  datatype Tender = Tender(variant: Variant, value: Value, lots: seq<Lot>, bids: seq<Bid>)

  /** A reporting tender declares no bid collection. */
  predicate WellFormedTender(t: Tender) {
    Config(t.variant).bidKind.None? ==> t.bids == []
  }
}
