/**
 The ESCO UA bid's value validator. For this procurement type a larger
 value is better for the buyer, so the usual comparison is inverted: a bid
 is rejected when the tender's baseline exceeds it.
 */
module ValueCheck {
  import opened Wrappers
  import opened Money
  import opened Tenders

  const VALUE_TOO_LOW: string := "value of bid should be greater than value of tender"

  /** What the validated data hangs from: a model (whose tender is known) or anything else. */
  datatype Parent = ModelParent(tender: Tender) | OtherParent

  /** The check on the submitted `value`, which may be absent. */
  function ValidateValue(parent: Parent, value: Option<Value>): (r: Outcome<string>)
    ensures r.Fail? ==> r.error == VALUE_TOO_LOW
    ensures r.Fail? <==>
      && parent.ModelParent?
      && parent.tender.lots == []
      && value.Some?
      && parent.tender.value.amount > value.value.amount
  {
    match parent
    case OtherParent => Pass
    case ModelParent(tender) =>
      if tender.lots == [] && value.Some? then
        if tender.value.amount > value.value.amount then Fail(VALUE_TOO_LOW) else Pass
      else Pass
  }

  /** The check never rejects when the parent is not a model, the tender has lots, or no value is given. */
  lemma NeverRejectsOutsideItsScope(parent: Parent, value: Option<Value>)
    requires || parent.OtherParent?
             || (parent.ModelParent? && parent.tender.lots != [])
             || value.None?
    ensures ValidateValue(parent, value) == Pass
  {
  }

  /**
   On a lot-less tender, a present value passes exactly when it reaches the
   baseline: equal and larger amounts pass, smaller ones are rejected.
   */
  lemma AcceptsExactlyFromBaseline(tender: Tender, v: Value)
    requires tender.lots == []
    ensures ValidateValue(ModelParent(tender), Some(v)) == Pass <==> v.amount >= tender.value.amount
    ensures ValidateValue(ModelParent(tender), Some(v)) == Fail(VALUE_TOO_LOW) <==> v.amount < tender.value.amount
  {
  }

  /** Accepted values are upward closed: raising an accepted bid's amount keeps it accepted. */
  lemma AcceptanceUpwardClosed(parent: Parent, v: Value, w: Value)
    requires ValidateValue(parent, Some(v)) == Pass
    requires w.amount >= v.amount
    ensures ValidateValue(parent, Some(w)) == Pass
  {
  }

  /** Neither the currency nor the VAT flag of the submitted value affects the outcome. */
  lemma OnlyAmountMatters(parent: Parent, v: Value, w: Value)
    requires v.amount == w.amount
    ensures ValidateValue(parent, Some(v)) == ValidateValue(parent, Some(w))
  {
  }

  /** A lot-less tender with baseline 1000: a bid of 999 is rejected, 1000 and 1001 pass. */
  lemma BaselineThousandScenario(tender: Tender)
    requires tender.lots == [] && tender.value.amount == 1000.0
    ensures ValidateValue(ModelParent(tender), Some(Value(999.0, "UAH", true))) == Fail(VALUE_TOO_LOW)
    ensures ValidateValue(ModelParent(tender), Some(Value(1000.0, "UAH", true))) == Pass
    ensures ValidateValue(ModelParent(tender), Some(Value(1001.0, "UAH", true))) == Pass
  {
  }
}
