/** The monetary value triple used both for tender baselines and bid valuations. */
module Money {

  /** An amount together with its currency code and whether VAT is included. */
  datatype Value = Value(amount: real, currency: string, valueAddedTaxIncluded: bool)
}
