/**
 * The contact page: a form whose submission is gated on a consent flag in
 * local storage.  Accepting consent submits at once; a timer later clears
 * the form.
 */
module Contact {
  import opened Basics
  import opened Storage

  const ContactConsentKey := "shadowStrengthContactConsent"

  datatype ContactForm = ContactForm(name: string, email: string, subject: string, message: string)

  const BlankContactForm := ContactForm("", "", "", "")

  class ContactPage {
    const storage: LocalStorage
    var formData: ContactForm
    var submitted: bool
    var showConsentDialog: bool
    /** Reset timers scheduled and not yet fired. */
    var resetTimers: nat

    constructor(storage: LocalStorage)
      ensures this.storage == storage
      ensures formData == BlankContactForm && !submitted && !showConsentDialog && resetTimers == 0
    {
      this.storage := storage;
      formData := BlankContactForm;
      submitted := false;
      showConsentDialog := false;
      resetTimers := 0;
    }

    /** What a submit reads: consent only for the exact stored "accepted". */
    predicate HasConsent()
      reads this, storage
      ensures HasConsent() ==> ContactConsentKey in storage.entries
      ensures storage.GetItem(ContactConsentKey) == Some(Declined) ==> !HasConsent()
    {
      IsAccepted(storage.GetItem(ContactConsentKey))
    }

    /** The fields' `onChange` handlers; the form is on screen only while not submitted. */
    method Edit(data: ContactForm)
      requires !submitted
      modifies this
      ensures formData == data
      ensures submitted == old(submitted) && showConsentDialog == old(showConsentDialog)
      ensures resetTimers == old(resetTimers)
    {
      formData := data;
    }

    /** `handleSubmit`: without consent open the dialog; with it mark submitted and schedule the reset. */
    method Submit()
      requires !submitted
      modifies this
      ensures formData == old(formData)
      ensures old(HasConsent()) ==> submitted && showConsentDialog == old(showConsentDialog)
                                    && resetTimers == old(resetTimers) + 1
      ensures !old(HasConsent()) ==> showConsentDialog && submitted == old(submitted)
                                     && resetTimers == old(resetTimers)
    {
      var consent := storage.GetItem(ContactConsentKey);
      if consent != Some(Accepted) {
        showConsentDialog := true;
        return;
      }
      submitted := true;
      resetTimers := resetTimers + 1;
    }

    /** `handleConsentAccept`: persist the flag, close the dialog and submit at once. */
    method ConsentAccept()
      modifies this, storage
      ensures storage.entries == old(storage.entries)[ContactConsentKey := Accepted]
      ensures HasConsent()
      ensures !showConsentDialog && submitted && resetTimers == old(resetTimers) + 1
      ensures formData == old(formData)
    {
      storage.SetItem(ContactConsentKey, Accepted);
      showConsentDialog := false;
      submitted := true;
      resetTimers := resetTimers + 1;
    }

    /** `handleConsentDecline`: only close the dialog; nothing is persisted. */
    method ConsentDecline()
      modifies this
      ensures !showConsentDialog
      ensures formData == old(formData) && submitted == old(submitted) && resetTimers == old(resetTimers)
    {
      showConsentDialog := false;
    }

    /** A reset timer fires: blank all four fields and show the form again. */
    method ResetFires()
      requires resetTimers > 0
      modifies this
      ensures formData == BlankContactForm && !submitted
      ensures showConsentDialog == old(showConsentDialog) && resetTimers == old(resetTimers) - 1
    {
      formData := BlankContactForm;
      submitted := false;
      resetTimers := resetTimers - 1;
    }
  }

  /**
   * After consent is accepted once, a later submit on a fresh page skips the
   * dialog: starting from any stored values, submit without consent, accept,
   * let the reset fire, fill the form and submit again.
   */
  method AcceptedConsentSkipsDialog(initial: map<string, string>, data: ContactForm)
    returns (dialogShown: bool, submitted: bool)
    ensures !dialogShown && submitted
  {
    var storage := new LocalStorage(initial);
    var page := new ContactPage(storage);
    page.Edit(data);
    page.Submit();
    if !page.submitted {
      page.ConsentAccept();
    }
    page.ResetFires();
    var later := new ContactPage(storage);
    later.Edit(data);
    later.Submit();
    dialogShown, submitted := later.showConsentDialog, later.submitted;
  }
}
