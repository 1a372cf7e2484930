# ESCO bid valuation — a Dafny model

This project models the bid-valuation layer of the ESCO (Energy Service Company)
procurement type of openprocurement. That layer has three parts:

- **Derived bid value.** The computed `bid_value`, serialized under the name `value`,
  is never stored. It is recomputed from
  the owning tender's `NBUdiscountRate` and the bid's `annualCostsReduction.amount`,
  `yearlyPayments` and `contractDuration` by `calculate_npv`. The result carries the
  tender's currency and VAT-included flag.
- **Inverted value check of the UA bid.** For a tender without lots, a submitted
  value smaller than the tender's baseline is rejected with
  "value of bid should be greater than value of tender".
- **Role whitelists.** The UA and EU bids each list, per role (`create`, `edit`,
  `auction_view`, `auction_post`), the fields visible in that role. A role's view of a
  record is the map restricted to the whitelist.

It also models the per-variant constants: `esco.UA`, `esco.EU` and `esco.reporting`,
with a discount rate of 0.22 for UA and EU and none for reporting.

Files, one module each:

- `wrappers.dfy` (`Wrappers`): `Option`, `Result` and `Outcome`.
- `money.dfy` (`Money`): the amount/currency/VAT `Value`.
- `tenders.dfy` (`Tenders`): variants and their configuration, and the `Tender`, `Bid` and `Terms` records.
- `terms.dfy` (`TermsCheck`): the declared field constraints on the three ESCO terms.
- `valuation.dfy` (`Valuation`): value derivation.
- `value_check.dfy` (`ValueCheck`): the UA value validator.
- `roles.dfy` (`Roles`): the role whitelists and projection.

`calculate_npv` is defined outside the modelled file. Every valuation operation
therefore takes it as a parameter of type `NpvCalculator`. No formula and no property
of it is assumed beyond what its type says: it is total (it always returns, never raises)
and deterministic. Every statement about derived values holds for any such calculator.
Amounts and the rate are modelled as `real`. The tender is passed explicitly instead
of being looked up through the bid's parent.

Two facts about the code shape the model:

- `validate_value` compares the `value` in the submitted data
  (openprocurement/tender/esco/models.py:59-63), not the computed `bid_value`.
- The reporting tender declares no `NBUdiscountRate` (openprocurement/tender/esco/models.py:102-104),
  so deriving a value against it cannot succeed; the model returns `Failure(NoDiscountRate)`.

## Model

| member | source | states |
|---|---|---|
| Tenders.Config | openprocurement/tender/esco/models.py:67-107 | the method types are "esco.UA", "esco.EU" and "esco.reporting"; UA and EU declare the discount rate 0.22 and a bid collection; the reporting tender declares neither; a variant takes bids exactly when it has a rate |
| Tenders.ParseMethodType | openprocurement/tender/esco/models.py:70-104 | dispatching a method-type string yields only a variant whose declared `procurementMethodType` is that string |
| Tenders.MethodTypeRoundTrip | openprocurement/tender/esco/models.py:70-104 | every variant's `procurementMethodType` dispatches back to that variant |
| Tenders.MethodTypeInjective | openprocurement/tender/esco/models.py:70-104 | no two variants share a `procurementMethodType` |
| TermsCheck.RangeError | openprocurement/tender/esco/models.py:31-33 | a bounded numeric field fails as required when missing, below the minimum when smaller, and passes exactly when within its bounds |
| TermsCheck.CheckTerms | openprocurement/tender/esco/models.py:31-33 | terms are accepted iff all three are present with `yearlyPayments` in [0,1] and `contractDuration` in [0,10]; accepted terms are the submitted ones; on failure the error map names exactly the failing fields, with "required" exactly for the missing ones, "below minimum" exactly for present values under the lower bound and "above maximum" exactly for present values over the upper bound |
| TermsCheck.CheckTermsRoundTrip | openprocurement/tender/esco/models.py:31-33 | submitting well-formed terms gives them back unchanged |
| Valuation.DeriveValue | openprocurement/tender/esco/models.py:35-43 | derivation succeeds iff the tender declares a discount rate; the amount is `calculate_npv(0.22, annualCostsReduction.amount, yearlyPayments, contractDuration)`; currency and VAT flag are the tender's, whatever the bid |
| Valuation.DeriveValueDependsOnlyOnInputs | openprocurement/tender/esco/models.py:37-43 | bids with equal reduction amount, share and duration get equal derived values from tenders with equal rate, currency and VAT flag; id, status, the reduction's own currency, the baseline amount and lots play no part |
| Valuation.UAAndEUValueAlike | openprocurement/tender/esco/models.py:72-95 | a UA and an EU tender with the same currency and VAT flag value any bid identically |
| Valuation.DeriveBidValues | openprocurement/tender/esco/models.py:35-43 | a list of bids of one tender is valued one-to-one and in order, each against that tender, so all values share the tender's currency and VAT flag |
| Valuation.TenderBidValues | openprocurement/tender/esco/models.py:68-72 | a well-formed tender can always value its own bid list, one value per bid |
| ValueCheck.ValidateValue | openprocurement/tender/esco/models.py:58-64 | rejects, always with "value of bid should be greater than value of tender", iff the parent is a model, the tender has no lots, a value is present and the baseline amount exceeds it |
| ValueCheck.NeverRejectsOutsideItsScope | openprocurement/tender/esco/models.py:60-62 | a non-model parent, a tender with lots, or an absent value always passes |
| ValueCheck.AcceptsExactlyFromBaseline | openprocurement/tender/esco/models.py:62-64 | on a lot-less tender a value passes iff its amount is at least the baseline, and is rejected iff smaller |
| ValueCheck.AcceptanceUpwardClosed | openprocurement/tender/esco/models.py:63-64 | raising an accepted value's amount keeps it accepted |
| ValueCheck.OnlyAmountMatters | openprocurement/tender/esco/models.py:63-64 | the value's currency and VAT flag do not affect the outcome |
| ValueCheck.BaselineThousandScenario | openprocurement/tender/esco/models.py:59-64 | with baseline 1000 and no lots, 999 is rejected with the message while 1000 and 1001 pass |
| Roles.Whitelist | openprocurement/tender/esco/models.py:50-87 | every role of both kinds holds `value` and the three terms; `auction_post` holds no bidder field (`tenderers`, `selfQualified`, `selfEligible`, `subcontractingDetails`, `status`) and no document list; `auction_view` holds no document list; `create` holds `documents`; only UA names `bid_value` |
| Roles.RoleInclusions | openprocurement/tender/esco/models.py:50-87 | `edit` is within `create` and `auction_post` within `auction_view`, for both kinds |
| Roles.UAVersusEU | openprocurement/tender/esco/models.py:50-87 | outside `create` the UA whitelist is the EU one plus `bid_value`; at `create` the two differ only in `bid_value` (UA) and the three extra document lists (EU) |
| Roles.Project | openprocurement/tender/esco/models.py:50-56 | a role's view keeps exactly the record's fields that are whitelisted, with their values, and drops the rest |
| Roles.ProjectNarrows | openprocurement/tender/esco/models.py:50-56 | projecting onto a wider then a narrower whitelist equals projecting onto the narrower one |
| Roles.EditViewWithinCreateView | openprocurement/tender/esco/models.py:52-55 | the edit view is the create view restricted further, and the auction-post view is the auction view restricted further |
| Roles.AuctionPostHidesBidder | openprocurement/tender/esco/models.py:55-86 | whatever a record holds, its auction-post view has no bidder field and no document list |
| Roles.EveryRoleKeepsValuation | openprocurement/tender/esco/models.py:52-55 | every role's view keeps the value and the three terms of a record, unchanged |

## Left out

- `calculate_npv`: its definition is not part of this model. It is a parameter, and nothing (formula, the zero-year case, monotonicity) is assumed of it.
- Floating point: amounts, `yearlyPayments` and the 0.22 rate are exact `real`s.
- The status filter declared on the bid list (openprocurement/tender/esco/models.py:71, 94) is not modelled, because the list type's code is not part of this model; every bid in the list is valued.
- `bids_validation_wrapper`, `get_tender`, the `Value` and `Model` classes, and the base UA/EU/reporting tender and bid classes: these are defined in other packages. In particular, the EU bid defines no value validator of its own, and whatever it inherits is not modelled. The `Value` class's own constraints (such as a non-negative amount) are not modelled either.
- TermsCheck.CheckTerms: errors are abstract kinds (required / below minimum / above maximum), not the exact message texts, which come from the serialization library.
- Serialization mechanics: a whitelist is a plain set of names. The model does not decide whether the library matches a name against the attribute name (`bid_value`) or the serialized name (`value`). So it does not settle whether the EU bid, whose whitelists lack `bid_value`, emits its computed value.
- ValueCheck.ValidateValue: the truthiness of `value` is modelled as presence (`Some`), and `not tender.lots` as an empty lot list.
- A bid with no owning tender: the tender is always passed explicitly, so this case cannot arise.
- `openprocurement/tender/esco/views/award_document.py`: resource registration and routing only.
