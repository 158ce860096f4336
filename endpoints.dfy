/**
 * Inserting an input or output into its slot, with broker promotion: a slot
 * that is not yet a broker becomes a broker whose only child is the slot's
 * previous declaration, then the new default declaration is appended, except
 * that asking for the broker type itself stops after the promotion.
 */
module Endpoints {
  import opened Declarations

  /**
   * The endpoints a slot stands for: the children of a broker, or the slot
   * itself when it is anything else.
   */
  function Members(slot: Endpoint): seq<Endpoint>
  {
    if slot.typeName == BrokerType then slot.children else [slot]
  }

  /** A fresh broker whose only child is `current`. */
  function Promote(current: Endpoint): (b: Endpoint)
    ensures b.typeName == BrokerType && Members(b) == [current]
  {
    NewEndpoint(BrokerType).(children := [current])
  }

  /** Whether inserting `cType` into `slot` only promotes and appends nothing. */
  predicate PromotionOnly(slot: Endpoint, cType: string)
  {
    slot.typeName != BrokerType && cType == BrokerType
  }

  /**
   * The slot after inserting a default endpoint of type `cType` (the registry
   * check has already passed).
   */
  function InsertEndpoint(slot: Endpoint, cType: string): (r: Endpoint)
    // the slot is a broker afterwards, and its members keep their order:
    // the old members come first, then the new endpoint, unless only promoting
    ensures r.typeName == BrokerType
    ensures Members(r) == Members(slot) + (if PromotionOnly(slot, cType) then [] else [NewEndpoint(cType)])
    // promotion keeps the previous declaration unchanged as the first child
    ensures slot.typeName != BrokerType ==> |r.children| >= 1 && r.children[0] == slot
    // a slot that already was a broker is not promoted again: only its child list grows
    ensures slot.typeName == BrokerType ==> r.(children := slot.children) == slot
  {
    var added := NewEndpoint(cType);
    var broker := if slot.typeName != BrokerType then Promote(slot) else slot;
    if PromotionOnly(slot, cType) then broker
    else broker.(children := broker.children + [added])
  }

  // The scenarios for a non-broker slot `d`, and for a broker holding [d, e].

  lemma PromotionKeepsOriginal(d: Endpoint, cType: string)
    requires d.typeName != BrokerType && cType != BrokerType
    ensures InsertEndpoint(d, cType).typeName == BrokerType
    ensures InsertEndpoint(d, cType).children == [d, NewEndpoint(cType)]
  {
  }

  lemma BrokerOfBrokerSuppressed(d: Endpoint)
    requires d.typeName != BrokerType
    ensures InsertEndpoint(d, BrokerType).children == [d]
  {
  }

  lemma NoRepromotion(d: Endpoint, e: Endpoint, f: string)
    ensures var b := InsertEndpoint(InsertEndpoint(d, e.typeName), f);
            d.typeName != BrokerType && e.typeName != BrokerType ==>
              b.children == [d, NewEndpoint(e.typeName), NewEndpoint(f)]
  {
  }
}
