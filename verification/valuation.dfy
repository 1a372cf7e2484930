/**
 The derived bid value. The computed `bid_value`, serialized under the name
 `value`, is never stored: it is recomputed from the owning tender's discount
 rate and the bid's three terms by the NPV calculator, and carries the
 tender's currency and VAT flag.
 */
module Valuation {
  import opened Wrappers
  import opened Money
  import opened Tenders

  /**
   The NPV calculator `calculate_npv(rate, annualCostsReduction, yearlyPayments,
   contractDuration)`. Its definition lives outside this model, so every
   operation takes it as a parameter. Nothing is assumed about it beyond
   what its type says: it is total and deterministic.
   */
  type NpvCalculator = (real, real, real, int) -> real

  /** Derivation fails only when the tender declares no discount rate. */
  datatype DeriveError = NoDiscountRate

  function DeriveValue(bid: Bid, tender: Tender, npv: NpvCalculator): (r: Result<Value, DeriveError>)
    ensures r.Success? <==> tender.variant != EscoReporting
    ensures r.Success? ==>
      && r.value.amount == npv(NBU_DISCOUNT_RATE, bid.terms.annualCostsReduction.amount,
                               bid.terms.yearlyPayments, bid.terms.contractDuration)
      && r.value.currency == tender.value.currency
      && r.value.valueAddedTaxIncluded == tender.value.valueAddedTaxIncluded
  {
    match Config(tender.variant).discountRate
    case None => Failure(NoDiscountRate)
    case Some(rate) =>
      var t := bid.terms;
      Success(Value(npv(rate, t.annualCostsReduction.amount, t.yearlyPayments, t.contractDuration),
                    tender.value.currency, tender.value.valueAddedTaxIncluded))
  }

  /**
   The derived value depends on the bid only through the reduction amount,
   the payment share and the duration, and on the tender only through its
   variant's rate, currency and VAT flag: the bid's id, status and the
   currency of its cost reduction, and the tender's baseline amount, lots
   and other bids play no part.
   */
  lemma DeriveValueDependsOnlyOnInputs(b1: Bid, b2: Bid, t1: Tender, t2: Tender, npv: NpvCalculator)
    requires b1.terms.annualCostsReduction.amount == b2.terms.annualCostsReduction.amount
    requires b1.terms.yearlyPayments == b2.terms.yearlyPayments
    requires b1.terms.contractDuration == b2.terms.contractDuration
    requires Config(t1.variant).discountRate == Config(t2.variant).discountRate
    requires t1.value.currency == t2.value.currency
    requires t1.value.valueAddedTaxIncluded == t2.value.valueAddedTaxIncluded
    ensures DeriveValue(b1, t1, npv) == DeriveValue(b2, t2, npv)
  {
  }

  /** The UA and EU tenders value the same bid identically, given the same baseline currency and VAT flag. */
  lemma UAAndEUValueAlike(bid: Bid, ua: Tender, eu: Tender, npv: NpvCalculator)
    requires ua.variant == EscoUA && eu.variant == EscoEU
    requires ua.value.currency == eu.value.currency
    requires ua.value.valueAddedTaxIncluded == eu.value.valueAddedTaxIncluded
    ensures DeriveValue(bid, ua, npv).Success?
    ensures DeriveValue(bid, ua, npv) == DeriveValue(bid, eu, npv)
  {
    DeriveValueDependsOnlyOnInputs(bid, bid, ua, eu, npv);
  }

  /**
   The values of a list of bids of one tender, in list order: every bid is
   valued against that same tender.
   */
  function DeriveBidValues(bids: seq<Bid>, tender: Tender, npv: NpvCalculator): (r: Result<seq<Value>, DeriveError>)
    ensures r.Success? <==> bids == [] || tender.variant != EscoReporting
    ensures r.Success? ==> |r.value| == |bids|
    ensures r.Success? ==> forall i :: 0 <= i < |bids| ==>
      DeriveValue(bids[i], tender, npv) == Success(r.value[i])
    // all values of one tender are in its currency and VAT basis, so they are comparable
    ensures r.Success? ==> forall i :: 0 <= i < |r.value| ==>
      r.value[i].currency == tender.value.currency
      && r.value[i].valueAddedTaxIncluded == tender.value.valueAddedTaxIncluded
  {
    if bids == [] then Success([])
    else
      match DeriveValue(bids[0], tender, npv)
      case Failure(e) => Failure(e)
      case Success(v) =>
        match DeriveBidValues(bids[1..], tender, npv)
        case Failure(e) => Failure(e)
        case Success(vs) => Success([v] + vs)
  }

  /** The values a tender reports for its own bids. */
  function TenderBidValues(tender: Tender, npv: NpvCalculator): (r: Result<seq<Value>, DeriveError>)
    requires WellFormedTender(tender)
    ensures r.Success?
    ensures |r.value| == |tender.bids|
    ensures forall i :: 0 <= i < |tender.bids| ==>
      DeriveValue(tender.bids[i], tender, npv) == Success(r.value[i])
  {
    DeriveBidValues(tender.bids, tender, npv)
  }
}
