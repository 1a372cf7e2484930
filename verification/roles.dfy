/**
 Role-scoped field whitelists of the ESCO UA and EU bids, and the
 projection of a serialized bid onto a role's whitelist.
 */
module Roles {
  import opened Tenders

  datatype Role = Create | Edit | AuctionView | AuctionPost

  const UA_CREATE: set<string> := {"value", "bid_value", "yearlyPayments", "annualCostsReduction",
    "contractDuration", "tenderers", "parameters", "lotValues", "status", "selfQualified",
    "selfEligible", "subcontractingDetails", "documents"}
  const UA_EDIT: set<string> := {"value", "bid_value", "yearlyPayments", "annualCostsReduction",
    "contractDuration", "tenderers", "parameters", "lotValues", "status", "subcontractingDetails"}
  const UA_AUCTION_VIEW: set<string> := {"value", "bid_value", "yearlyPayments", "annualCostsReduction",
    "contractDuration", "lotValues", "id", "date", "parameters", "participationUrl", "status"}
  const UA_AUCTION_POST: set<string> := {"value", "bid_value", "yearlyPayments", "annualCostsReduction",
    "contractDuration", "lotValues", "id", "date"}

  const EU_CREATE: set<string> := {"value", "yearlyPayments", "annualCostsReduction",
    "contractDuration", "tenderers", "parameters", "lotValues", "status", "selfQualified",
    "selfEligible", "subcontractingDetails", "documents", "financialDocuments",
    "eligibilityDocuments", "qualificationDocuments"}
  const EU_EDIT: set<string> := {"value", "yearlyPayments", "annualCostsReduction",
    "contractDuration", "tenderers", "parameters", "lotValues", "status", "subcontractingDetails"}
  const EU_AUCTION_VIEW: set<string> := {"value", "yearlyPayments", "annualCostsReduction",
    "contractDuration", "lotValues", "id", "date", "parameters", "participationUrl", "status"}
  const EU_AUCTION_POST: set<string> := {"value", "yearlyPayments", "annualCostsReduction",
    "contractDuration", "lotValues", "id", "date"}

  /** The value and the three ESCO terms. */
  const VALUATION_FIELDS: set<string> :=
    {"value", "yearlyPayments", "annualCostsReduction", "contractDuration"}

  /** The document lists of either bid kind. */
  const DOCUMENT_FIELDS: set<string> :=
    {"documents", "financialDocuments", "eligibilityDocuments", "qualificationDocuments"}

  /** Fields about the bidder that the auction must not receive. */
  const BIDDER_FIELDS: set<string> :=
    {"tenderers", "selfQualified", "selfEligible", "subcontractingDetails", "status"}

  /** The whitelist of a role of a bid kind (the kind's role table). */
  function Whitelist(kind: BidKind, role: Role): (fields: set<string>)
    ensures VALUATION_FIELDS <= fields
    ensures role == AuctionPost ==> fields !! BIDDER_FIELDS + DOCUMENT_FIELDS
    ensures role == AuctionView ==> fields !! DOCUMENT_FIELDS
    ensures role == Create ==> "documents" in fields
    ensures "bid_value" in fields <==> kind == UABid
  {
    match (kind, role)
    case (UABid, Create) => UA_CREATE
    case (UABid, Edit) => UA_EDIT
    case (UABid, AuctionView) => UA_AUCTION_VIEW
    case (UABid, AuctionPost) => UA_AUCTION_POST
    case (EUBid, Create) => EU_CREATE
    case (EUBid, Edit) => EU_EDIT
    case (EUBid, AuctionView) => EU_AUCTION_VIEW
    case (EUBid, AuctionPost) => EU_AUCTION_POST
  }

  /** Editing exposes no field creation does not, and posting results no field viewing does not. */
  lemma RoleInclusions(kind: BidKind)
    ensures Whitelist(kind, Edit) <= Whitelist(kind, Create)
    ensures Whitelist(kind, AuctionPost) <= Whitelist(kind, AuctionView)
    ensures Whitelist(kind, AuctionView) - {"participationUrl"} <= Whitelist(kind, Create) + {"id", "date"}
  {
  }

  /**
   How the two kinds differ: UA additionally names the computed `bid_value`
   in every role, and EU splits the create-time documents into four lists.
   */
  lemma UAVersusEU(role: Role)
    ensures role != Create ==> Whitelist(UABid, role) == Whitelist(EUBid, role) + {"bid_value"}
    ensures Whitelist(UABid, Create) + DOCUMENT_FIELDS == Whitelist(EUBid, Create) + {"bid_value"}
    ensures "bid_value" !in Whitelist(EUBid, role)
    ensures Whitelist(UABid, role) * DOCUMENT_FIELDS <= {"documents"}
  {
  }

  /** The projection of a serialized record onto a whitelist: other fields are dropped silently. */
  function Project<V>(doc: map<string, V>, fields: set<string>): (p: map<string, V>)
    ensures p.Keys == doc.Keys * fields
    ensures forall k :: k in p ==> p[k] == doc[k]
  {
    map k | k in doc && k in fields :: doc[k]
  }

  /** Projecting onto a narrower whitelist after a wider one is projecting onto the narrower one. */
  lemma ProjectNarrows<V>(doc: map<string, V>, wide: set<string>, narrow: set<string>)
    requires narrow <= wide
    ensures Project(Project(doc, wide), narrow) == Project(doc, narrow)
  {
  }

  /** What a bid shows to edit it is what its create view shows, restricted to the edit fields. */
  lemma EditViewWithinCreateView<V>(kind: BidKind, doc: map<string, V>)
    ensures Project(Project(doc, Whitelist(kind, Create)), Whitelist(kind, Edit))
         == Project(doc, Whitelist(kind, Edit))
    ensures Project(Project(doc, Whitelist(kind, AuctionView)), Whitelist(kind, AuctionPost))
         == Project(doc, Whitelist(kind, AuctionPost))
  {
    RoleInclusions(kind);
    ProjectNarrows(doc, Whitelist(kind, Create), Whitelist(kind, Edit));
    ProjectNarrows(doc, Whitelist(kind, AuctionView), Whitelist(kind, AuctionPost));
  }

  /** A bid projected for the auction never carries bidder details or documents, whatever it held. */
  lemma AuctionPostHidesBidder<V>(kind: BidKind, doc: map<string, V>)
    ensures Project(doc, Whitelist(kind, AuctionPost)).Keys !! BIDDER_FIELDS + DOCUMENT_FIELDS
  {
  }

  /** Every role keeps the value and the terms of a record that has them. */
  lemma EveryRoleKeepsValuation<V>(kind: BidKind, role: Role, doc: map<string, V>)
    requires VALUATION_FIELDS <= doc.Keys
    ensures forall f :: f in VALUATION_FIELDS ==>
      f in Project(doc, Whitelist(kind, role)) && Project(doc, Whitelist(kind, role))[f] == doc[f]
  {
  }
}
