/**
 * The cookie settings modal: local preferences read from the store once,
 * when the component is created, three actions that write the store
 * (save the selection, revoke everything, accept everything), and a
 * confirmation that a delayed callback clears before asking the parent to
 * close the modal.  The delay itself is a timer; the model keeps the
 * callbacks scheduled and not yet run as a count and fires them one at a
 * time with ConfirmationElapsed.
 */
module SettingsModal {
  import opened JsValue
  import opened Gtag

  /** What the modal shows when it renders. */
  datatype ModalView = ModalView(preferences: Preferences, showConfirmation: bool)

  class Modal {
    /** The consent store of the page. */
    const store: Browser
    /** The `isOpen` prop, which the parent controls. */
    var isOpen: bool
    var preferences: Preferences
    var showConfirmation: bool
    /** Confirmation callbacks scheduled and not yet run. */
    var pendingCloses: nat
    /** Calls made to the parent's `onClose`. */
    var closeRequests: nat

    /** The local `necessary` flag is always on. */
    ghost predicate Valid()
      reads this
    {
      preferences.necessary
    }

    /** The state initialiser reads the stored preferences once. */
    constructor (store: Browser, isOpen: bool)
      ensures Valid()
      ensures this.store == store && this.isOpen == isOpen
      ensures preferences == store.GetConsentData().preferences
      ensures !showConfirmation && pendingCloses == 0 && closeRequests == 0
    {
      this.store := store;
      this.isOpen := isOpen;
      var consent := store.GetConsentData();
      preferences := consent.preferences;
      showConfirmation := false;
      pendingCloses := 0;
      closeRequests := 0;
    }

    /**
     * The parent opens or closes the modal.  The component stays mounted, so
     * the local preferences are not read again from the store.
     */
    method SetOpen(open: bool)
      requires Valid()
      modifies this`isOpen
      ensures Valid()
      ensures isOpen == open
    {
      isOpen := open;
    }

    /** handlePreferenceChange: toggles analytics; a change to `necessary` is ignored. */
    method HandlePreferenceChange(category: Category, value: bool)
      requires Valid()
      modifies this`preferences
      ensures Valid()
      ensures preferences == PreferenceChanged(old(preferences), category, value)
    {
      if category == Necessary {
        return;
      }
      preferences := preferences.(analytics := value);
    }

    /** handleSaveSettings: grant the local preferences, confirm, schedule the close. */
    method HandleSaveSettings(now: int)
      requires Valid()
      modifies store`slot, store`log, store`cookies, this`showConfirmation, this`pendingCloses
      ensures Valid()
      ensures store.AppliedGrant(preferences, now)
      ensures showConfirmation && pendingCloses == old(pendingCloses) + 1
      ensures store.CanRead() && store.storageWritable ==>
        !store.ShouldShowConsentBanner() && store.HasAnalyticsConsent() == preferences.analytics
    {
      store.GrantConsent(preferences, now);
      showConfirmation := true;
      pendingCloses := pendingCloses + 1;
    }

    /** handleRevokeAll: revoke in the store, reset the local preferences, confirm, schedule the close. */
    method HandleRevokeAll(now: int)
      requires Valid()
      modifies store`slot, store`log, store`cookies, this`preferences, this`showConfirmation, this`pendingCloses
      ensures Valid()
      ensures store.AppliedGrant(RevokedPreferences, now)
      ensures store.cookies == store.Scrubbed(old(store.cookies))
      ensures preferences == Preferences(true, false)
      ensures showConfirmation && pendingCloses == old(pendingCloses) + 1
      ensures store.CanRead() && store.storageWritable ==>
        !store.ShouldShowConsentBanner() && !store.HasAnalyticsConsent()
    {
      store.RevokeConsent(now);
      preferences := Preferences(true, false);
      showConfirmation := true;
      pendingCloses := pendingCloses + 1;
    }

    /** handleAcceptAll: set both categories locally and grant them, confirm, schedule the close. */
    method HandleAcceptAll(now: int)
      requires Valid()
      modifies store`slot, store`log, store`cookies, this`preferences, this`showConfirmation, this`pendingCloses
      ensures Valid()
      ensures preferences == Preferences(true, true)
      ensures store.AppliedGrant(preferences, now)
      ensures store.cookies == old(store.cookies)
      ensures showConfirmation && pendingCloses == old(pendingCloses) + 1
      ensures store.CanRead() && store.storageWritable ==>
        !store.ShouldShowConsentBanner() && store.HasAnalyticsConsent()
    {
      var allPreferences := Preferences(true, true);
      preferences := allPreferences;
      store.GrantConsent(allPreferences, now);
      showConfirmation := true;
      pendingCloses := pendingCloses + 1;
    }

    /** One scheduled callback runs: the confirmation is cleared and the parent is asked to close. */
    method ConfirmationElapsed()
      requires Valid() && pendingCloses > 0
      modifies this`showConfirmation, this`pendingCloses, this`closeRequests
      ensures Valid()
      ensures !showConfirmation
      ensures pendingCloses == old(pendingCloses) - 1 && closeRequests == old(closeRequests) + 1
    {
      showConfirmation := false;
      pendingCloses := pendingCloses - 1;
      closeRequests := closeRequests + 1;
    }

    /** The close button and the backdrop call `onClose` straight away. */
    method HandleClose()
      requires Valid()
      modifies this`closeRequests
      ensures Valid()
      ensures closeRequests == old(closeRequests) + 1
    {
      closeRequests := closeRequests + 1;
    }

    /** The rendered modal; nothing at all while it is closed. */
    function Render(): (v: Option<ModalView>)
      reads this
      ensures v.None? <==> !isOpen
      ensures v.Some? ==> v.value.preferences == preferences && v.value.showConfirmation == showConfirmation
    {
      if !isOpen then None else Some(ModalView(preferences, showConfirmation))
    }
  }

  /**
   * A returning visitor who had accepted everything opens the settings,
   * revokes, and the confirmation closes the modal: analytics is off in the
   * store and the banner stays hidden.
   */
  method RevokeFromSettings(store: Browser, t1: int, t2: int)
    requires store.CanRead() && store.storageWritable
    modifies store
  {
    store.GrantConsent(Preferences(true, true), t1);
    var modal := new Modal(store, false);
    assert modal.preferences == Preferences(true, true);
    modal.SetOpen(true);
    assert modal.Render().Some?;
    modal.HandleRevokeAll(t2);
    assert !store.HasAnalyticsConsent() && !store.ShouldShowConsentBanner();
    modal.ConfirmationElapsed();
    assert modal.closeRequests == 1 && !modal.showConfirmation;
  }
}
