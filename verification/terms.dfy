/**
 The field-level checks the ESCO bid declares on its three terms: each is
 required, `yearlyPayments` lies in [0, 1] and `contractDuration` in [0, 10].
 Errors are collected per field, keyed by field name, as the validation of
 a whole record reports them.
 */
module TermsCheck {
  import opened Wrappers
  import opened Money
  import opened Tenders

  datatype FieldError = Required | BelowMinimum | AboveMaximum

  /** The error a bounded numeric field reports, if any. */
  function RangeError(x: Option<real>, lo: real, hi: real): (e: Option<FieldError>)
    ensures e.None? <==> x.Some? && lo <= x.value <= hi
    ensures e == Some(Required) <==> x.None?
    ensures e == Some(BelowMinimum) <==> x.Some? && x.value < lo
  {
    match x
    case None => Some(Required)
    case Some(v) =>
      if v < lo then Some(BelowMinimum)
      else if hi < v then Some(AboveMaximum)
      else None
  }

  /** The three terms as submitted, each possibly missing. */
  datatype Submission = Submission(
    yearlyPayments: Option<real>,
    annualCostsReduction: Option<Value>,
    contractDuration: Option<int>)

  function AsReal(x: Option<int>): Option<real> {
    match x
    case None => None
    case Some(n) => Some(n as real)
  }

  function Entry(name: string, e: Option<FieldError>): map<string, FieldError> {
    if e.Some? then map[name := e.value] else map[]
  }

  /** Accept the submitted terms, or report every field that fails its declared constraint. */
  function CheckTerms(s: Submission): (r: Result<Terms, map<string, FieldError>>)
    ensures r.Success? <==>
      && s.yearlyPayments.Some? && 0.0 <= s.yearlyPayments.value <= 1.0
      && s.annualCostsReduction.Some?
      && s.contractDuration.Some? && 0 <= s.contractDuration.value <= 10
    ensures r.Success? ==>
      && WellFormedTerms(r.value)
      && r.value.yearlyPayments == s.yearlyPayments.value
      && r.value.annualCostsReduction == s.annualCostsReduction.value
      && r.value.contractDuration == s.contractDuration.value
    ensures r.Failure? ==>
      && r.error.Keys <= {"yearlyPayments", "annualCostsReduction", "contractDuration"}
      && ("yearlyPayments" in r.error <==>
            s.yearlyPayments.None? || !(0.0 <= s.yearlyPayments.value <= 1.0))
      && ("annualCostsReduction" in r.error <==> s.annualCostsReduction.None?)
      && ("contractDuration" in r.error <==>
            s.contractDuration.None? || !(0 <= s.contractDuration.value <= 10))
    ensures r.Failure? ==> forall f :: f in r.error ==>
      (r.error[f] == Required <==>
        || (f == "yearlyPayments" && s.yearlyPayments.None?)
        || (f == "annualCostsReduction" && s.annualCostsReduction.None?)
        || (f == "contractDuration" && s.contractDuration.None?))
    // a present value out of range is reported on the side of the bound it crosses
    ensures r.Failure? ==> forall f :: f in r.error ==>
      (r.error[f] == BelowMinimum <==>
        || (f == "yearlyPayments" && s.yearlyPayments.Some? && s.yearlyPayments.value < 0.0)
        || (f == "contractDuration" && s.contractDuration.Some? && s.contractDuration.value < 0))
    ensures r.Failure? ==> forall f :: f in r.error ==>
      (r.error[f] == AboveMaximum <==>
        || (f == "yearlyPayments" && s.yearlyPayments.Some? && s.yearlyPayments.value > 1.0)
        || (f == "contractDuration" && s.contractDuration.Some? && s.contractDuration.value > 10))
  {
    var e1 := RangeError(s.yearlyPayments, 0.0, 1.0);
    var e2 := if s.annualCostsReduction.None? then Some(Required) else None;
    var e3 := RangeError(AsReal(s.contractDuration), 0.0, 10.0);
    if e1.None? && e2.None? && e3.None? then
      Success(Terms(s.yearlyPayments.value, s.annualCostsReduction.value, s.contractDuration.value))
    else
      Failure(Entry("yearlyPayments", e1) + Entry("annualCostsReduction", e2)
              + Entry("contractDuration", e3))
  }

  /** Submitting terms that are already well formed always succeeds and gives them back. */
  lemma CheckTermsRoundTrip(t: Terms)
    requires WellFormedTerms(t)
    ensures CheckTerms(Submission(Some(t.yearlyPayments), Some(t.annualCostsReduction),
                                  Some(t.contractDuration))) == Success(t)
  {
  }
}
