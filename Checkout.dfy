/**
 * The checkout page: a forward-only step machine (delivery, payment,
 * complete) whose every transition is gated on a consent flag read from
 * local storage when the page mounts.
 */
module Checkout {
  import opened Basics
  import opened Cart
  import opened Storage

  datatype Step = Delivery | Payment | Complete

  /** Position of a step in the flow; no handler lowers it. */
  function Rank(s: Step): nat
  {
    match s
    case Delivery => 0
    case Payment => 1
    case Complete => 2
  }

  const CheckoutConsentKey := "shadowStrengthCheckoutConsent"

  class CheckoutPage {
    /** The cart lines the page was given; the page never changes them. */
    const items: seq<CartItem>
    const storage: LocalStorage
    var step: Step
    var showConsentDialog: bool
    var hasConsent: bool
    /** How many times the 3-second `onComplete` timer has been scheduled. */
    var completionsScheduled: nat
    /** How many of those timers have fired and called `onComplete`. */
    var completionsFired: nat

    /**
     * The completion timer is scheduled once, exactly when the flow has
     * reached `Complete`, and fires at most once.
     */
    ghost predicate Valid()
      reads this
    {
      && completionsScheduled == (if step == Complete then 1 else 0)
      && completionsFired <= completionsScheduled
    }

    /** Initial state and the mount effect: consent holds iff the stored value is exactly "accepted"; otherwise the dialog opens. */
    constructor(items: seq<CartItem>, storage: LocalStorage)
      ensures Valid()
      ensures this.items == items && this.storage == storage
      ensures step == Delivery
      ensures hasConsent == IsAccepted(storage.GetItem(CheckoutConsentKey))
      ensures showConsentDialog == !hasConsent
      ensures completionsFired == 0
    {
      this.items := items;
      this.storage := storage;
      step := Delivery;
      completionsScheduled := 0;
      completionsFired := 0;
      hasConsent := false;
      showConsentDialog := false;
      new;
      var consent := storage.GetItem(CheckoutConsentKey);
      if consent == Some(Accepted) {
        hasConsent := true;
      } else {
        showConsentDialog := true;
      }
    }

    /** `handleConsentAccept`: persist the flag and close the dialog; the step does not move. */
    method ConsentAccept()
      requires Valid()
      modifies this, storage
      ensures Valid()
      ensures storage.entries == old(storage.entries)[CheckoutConsentKey := Accepted]
      ensures hasConsent && !showConsentDialog
      ensures step == old(step) && completionsScheduled == old(completionsScheduled)
      ensures completionsFired == old(completionsFired)
    {
      storage.SetItem(CheckoutConsentKey, Accepted);
      hasConsent := true;
      showConsentDialog := false;
    }

    /** `handleConsentDecline`: close the dialog and leave through `onBack`; storage is not written. */
    method ConsentDecline() returns (callsOnBack: bool)
      requires Valid()
      modifies this
      ensures Valid()
      ensures callsOnBack && !showConsentDialog
      ensures step == old(step) && hasConsent == old(hasConsent)
      ensures completionsScheduled == old(completionsScheduled)
      ensures completionsFired == old(completionsFired)
    {
      showConsentDialog := false;
      callsOnBack := true;
    }

    /** `handleDeliverySubmit`; the delivery form is on screen only at the delivery step. */
    method DeliverySubmit()
      requires Valid() && step == Delivery
      modifies this
      ensures Valid()
      ensures hasConsent == old(hasConsent) && completionsScheduled == old(completionsScheduled)
      ensures old(hasConsent) ==> step == Payment && showConsentDialog == old(showConsentDialog)
      ensures !old(hasConsent) ==> step == old(step) && showConsentDialog
      ensures Rank(step) >= Rank(old(step))
      ensures completionsFired == old(completionsFired)
    {
      if !hasConsent {
        showConsentDialog := true;
        return;
      }
      step := Payment;
    }

    /** `handlePaymentSubmit`; the payment form is on screen only at the payment step. */
    method PaymentSubmit()
      requires Valid() && step == Payment
      modifies this
      ensures Valid()
      ensures hasConsent == old(hasConsent)
      ensures old(hasConsent) ==> step == Complete && showConsentDialog == old(showConsentDialog)
                                  && completionsScheduled == old(completionsScheduled) + 1
      ensures !old(hasConsent) ==> step == old(step) && showConsentDialog
                                   && completionsScheduled == old(completionsScheduled)
      ensures Rank(step) >= Rank(old(step))
      ensures completionsFired == old(completionsFired)
    {
      if !hasConsent {
        showConsentDialog := true;
        return;
      }
      step := Complete;
      completionsScheduled := completionsScheduled + 1;
    }

    /** The 3-second completion timer fires: it calls `onComplete`; nothing on the page changes. */
    method CompletionFires() returns (callsOnComplete: bool)
      requires Valid() && completionsFired < completionsScheduled
      modifies this
      ensures Valid()
      ensures callsOnComplete && step == Complete
      ensures completionsFired == old(completionsFired) + 1 && completionsFired == completionsScheduled
      ensures step == old(step) && hasConsent == old(hasConsent) && showConsentDialog == old(showConsentDialog)
      ensures completionsScheduled == old(completionsScheduled)
    {
      completionsFired := completionsFired + 1;
      callsOnComplete := true;
    }

    /** `calculateTotal` over the lines the page was given. */
    function OrderTotal(): (r: int)
      reads this
      ensures r == SumOf(items, LineTotal)
    {
      Total(items)
    }
  }
}
