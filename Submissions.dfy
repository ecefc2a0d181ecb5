/**
 * The submissions page: a form whose submission is gated on a consent flag in
 * local storage.  Accepting consent submits at once; a timer later clears
 * the form.
 */
module Submissions {
  import opened Basics
  import opened Storage

  const SubmissionConsentKey := "shadowStrengthSubmissionConsent"

  datatype SubmissionForm = SubmissionForm(name: string, email: string, designTitle: string, description: string)

  const BlankSubmissionForm := SubmissionForm("", "", "", "")

  class SubmissionsPage {
    const storage: LocalStorage
    var formData: SubmissionForm
    var submitted: bool
    var showConsentDialog: bool
    /** Reset timers scheduled and not yet fired. */
    var resetTimers: nat

    constructor(storage: LocalStorage)
      ensures this.storage == storage
      ensures formData == BlankSubmissionForm && !submitted && !showConsentDialog && resetTimers == 0
    {
      this.storage := storage;
      formData := BlankSubmissionForm;
      submitted := false;
      showConsentDialog := false;
      resetTimers := 0;
    }

    /** What a submit reads: consent only for the exact stored "accepted". */
    predicate HasConsent()
      reads this, storage
      ensures HasConsent() ==> SubmissionConsentKey in storage.entries
      ensures storage.GetItem(SubmissionConsentKey) == Some(Declined) ==> !HasConsent()
    {
      IsAccepted(storage.GetItem(SubmissionConsentKey))
    }

    /** The fields' `onChange` handlers; the form is on screen only while not submitted. */
    method Edit(data: SubmissionForm)
      requires !submitted
      modifies this
      ensures formData == data
      ensures submitted == old(submitted) && showConsentDialog == old(showConsentDialog)
      ensures resetTimers == old(resetTimers)
    {
      formData := data;
    }

    /** `handleSubmit`: without consent open the dialog; with it mark submitted and schedule the reset. */
    method Submit()
      requires !submitted
      modifies this
      ensures formData == old(formData)
      ensures old(HasConsent()) ==> submitted && showConsentDialog == old(showConsentDialog)
                                    && resetTimers == old(resetTimers) + 1
      ensures !old(HasConsent()) ==> showConsentDialog && submitted == old(submitted)
                                     && resetTimers == old(resetTimers)
    {
      var consent := storage.GetItem(SubmissionConsentKey);
      if consent != Some(Accepted) {
        showConsentDialog := true;
        return;
      }
      submitted := true;
      resetTimers := resetTimers + 1;
    }

    /** `handleConsentAccept`: persist the flag, close the dialog and submit at once. */
    method ConsentAccept()
      modifies this, storage
      ensures storage.entries == old(storage.entries)[SubmissionConsentKey := Accepted]
      ensures HasConsent()
      ensures !showConsentDialog && submitted && resetTimers == old(resetTimers) + 1
      ensures formData == old(formData)
    {
      storage.SetItem(SubmissionConsentKey, Accepted);
      showConsentDialog := false;
      submitted := true;
      resetTimers := resetTimers + 1;
    }

    /** `handleConsentDecline`: only close the dialog; nothing is persisted. */
    method ConsentDecline()
      modifies this
      ensures !showConsentDialog
      ensures formData == old(formData) && submitted == old(submitted) && resetTimers == old(resetTimers)
    {
      showConsentDialog := false;
    }

    /** A reset timer fires: blank all four fields and show the form again. */
    method ResetFires()
      requires resetTimers > 0
      modifies this
      ensures formData == BlankSubmissionForm && !submitted
      ensures showConsentDialog == old(showConsentDialog) && resetTimers == old(resetTimers) - 1
    {
      formData := BlankSubmissionForm;
      submitted := false;
      resetTimers := resetTimers - 1;
    }
  }

  /**
   * After consent is accepted once, a later submit on a fresh page skips the
   * dialog: starting from any stored values, submit without consent, accept,
   * let the reset fire, fill the form and submit again.
   */
  method AcceptedConsentSkipsDialog(initial: map<string, string>, data: SubmissionForm)
    returns (dialogShown: bool, submitted: bool)
    ensures !dialogShown && submitted
  {
    var storage := new LocalStorage(initial);
    var page := new SubmissionsPage(storage);
    page.Edit(data);
    page.Submit();
    if !page.submitted {
      page.ConsentAccept();
    }
    page.ResetFires();
    var later := new SubmissionsPage(storage);
    later.Edit(data);
    later.Submit();
    dialogShown, submitted := later.showConsentDialog, later.submitted;
  }
}
