/**
 * The cookie banner: shown (after a short delay) only when no decision is
 * stored; accepting or declining stores the decision with its date and hides
 * it.  `HasCookieConsent` is the reader hook.
 */
module Cookies {
  import opened Basics
  import opened Storage

  const CookieConsentKey := "shadowStrengthCookieConsent"
  const ConsentDateKey := "shadowStrengthConsentDate"

  /** `!consent`: nothing stored, or the empty string. */
  predicate NoDecision(v: Option<string>)
    ensures NoDecision(v) ==> !IsAccepted(v)
    ensures v == Some(Accepted) || v == Some(Declined) ==> !NoDecision(v)
  {
    v == None || v == Some("")
  }

  /** `useCookieConsent`: consent iff the stored decision is exactly "accepted". */
  function HasCookieConsent(entries: map<string, string>): (r: bool)
    ensures r <==> CookieConsentKey in entries && entries[CookieConsentKey] == Accepted
    ensures CookieConsentKey in entries && entries[CookieConsentKey] == Declined ==> !r
  {
    IsAccepted(Lookup(entries, CookieConsentKey))
  }

  class CookieBanner {
    const storage: LocalStorage
    var isVisible: bool
    var showDetails: bool
    /** Show-banner timers scheduled and not yet fired. */
    var showTimers: nat

    /** Initial state and the mount effect: hidden, with the show timer scheduled only when no decision is stored. */
    constructor(storage: LocalStorage)
      ensures this.storage == storage
      ensures !isVisible && !showDetails
      ensures showTimers == (if NoDecision(storage.GetItem(CookieConsentKey)) then 1 else 0)
    {
      this.storage := storage;
      isVisible := false;
      showDetails := false;
      showTimers := 0;
      new;
      var consent := storage.GetItem(CookieConsentKey);
      if consent == None || consent == Some("") {
        showTimers := 1;
      }
    }

    /** The delayed show fires. */
    method ShowTimerFires()
      requires showTimers > 0
      modifies this
      ensures isVisible && showTimers == old(showTimers) - 1
      ensures showDetails == old(showDetails)
    {
      isVisible := true;
      showTimers := showTimers - 1;
    }

    /** `handleAccept`: store "accepted" and the decision date, hide, call `onAccept`. */
    method Accept(now: string) returns (callsOnAccept: bool)
      modifies this, storage
      ensures storage.entries == old(storage.entries)[CookieConsentKey := Accepted][ConsentDateKey := now]
      ensures !isVisible && callsOnAccept
      ensures showDetails == old(showDetails) && showTimers == old(showTimers)
    {
      storage.SetItem(CookieConsentKey, Accepted);
      storage.SetItem(ConsentDateKey, now);
      isVisible := false;
      callsOnAccept := true;
    }

    /** `handleDecline` (also the close button): store "declined" and the date, hide, call `onDecline`. */
    method Decline(now: string) returns (callsOnDecline: bool)
      modifies this, storage
      ensures storage.entries == old(storage.entries)[CookieConsentKey := Declined][ConsentDateKey := now]
      ensures !isVisible && callsOnDecline
      ensures showDetails == old(showDetails) && showTimers == old(showTimers)
    {
      storage.SetItem(CookieConsentKey, Declined);
      storage.SetItem(ConsentDateKey, now);
      isVisible := false;
      callsOnDecline := true;
    }

    /** The "Learn More" / "Hide Details" button. */
    method ToggleDetails()
      modifies this
      ensures showDetails == !old(showDetails)
      ensures isVisible == old(isVisible) && showTimers == old(showTimers)
    {
      showDetails := !showDetails;
    }
  }

  /**
   * After either decision, mounting the banner again schedules nothing and
   * leaves it hidden; the reader hook reports consent exactly for an accept.
   */
  method DecisionIsFinal(initial: map<string, string>, now: string, accept: bool)
    returns (timersOnRemount: nat, visibleOnRemount: bool, consent: bool)
    ensures timersOnRemount == 0 && !visibleOnRemount
    ensures consent == accept
  {
    var storage := new LocalStorage(initial);
    var banner := new CookieBanner(storage);
    if banner.showTimers > 0 {
      banner.ShowTimerFires();
    }
    var notified;
    if accept {
      notified := banner.Accept(now);
    } else {
      notified := banner.Decline(now);
    }
    var again := new CookieBanner(storage);
    timersOnRemount, visibleOnRemount := again.showTimers, again.isVisible;
    consent := HasCookieConsent(storage.entries);
  }
}
