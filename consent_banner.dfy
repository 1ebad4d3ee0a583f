/**
 * The cookie consent banner: shown while no decision is stored, with local
 * preferences the visitor can toggle (analytics only), and three ways of
 * deciding (accept all, accept the selection, reject the optional cookies),
 * each of which grants consent through the store and hides the banner.
 */
module ConsentBanner {
  import opened JsValue
  import opened Gtag

  /** The banner's local preferences before anything is loaded. */
  const InitialPreferences: Preferences := Preferences(true, false)

  /** No sequence of toggles switches `necessary` off. */
  lemma {:induction false} TogglesKeepNecessary(prefs: Preferences, changes: seq<(Category, bool)>)
    requires prefs.necessary
    ensures ApplyChanges(prefs, changes).necessary
    decreases |changes|
  {
    if changes != [] {
      TogglesKeepNecessary(PreferenceChanged(prefs, changes[0].0, changes[0].1), changes[1..]);
    }
  }

  /** A run of toggles, in order. */
  function ApplyChanges(prefs: Preferences, changes: seq<(Category, bool)>): Preferences
    decreases |changes|
  {
    if changes == [] then prefs
    else ApplyChanges(PreferenceChanged(prefs, changes[0].0, changes[0].1), changes[1..])
  }

  /** After a run of toggles ending with analytics := value, analytics is that value. */
  lemma {:induction false} LastToggleWins(prefs: Preferences, changes: seq<(Category, bool)>, value: bool)
    requires changes != [] && changes[|changes| - 1] == (Analytics, value)
    ensures ApplyChanges(prefs, changes).analytics == value
    decreases |changes|
  {
    if |changes| > 1 {
      LastToggleWins(PreferenceChanged(prefs, changes[0].0, changes[0].1), changes[1..], value);
    }
  }

  /** A run of toggles that never touches analytics leaves it unchanged. */
  lemma {:induction false} UntoggledAnalyticsUnchanged(prefs: Preferences, changes: seq<(Category, bool)>)
    requires forall k :: 0 <= k < |changes| ==> changes[k].0 == Necessary
    ensures ApplyChanges(prefs, changes) == prefs
    decreases |changes|
  {
    if changes != [] {
      UntoggledAnalyticsUnchanged(PreferenceChanged(prefs, changes[0].0, changes[0].1), changes[1..]);
    }
  }

  /** What the banner shows when it renders. */
  datatype BannerView = BannerView(preferences: Preferences, showDetails: bool)

  class Banner {
    /** The consent store of the page. */
    const store: Browser
    var isVisible: bool
    var showDetails: bool
    var preferences: Preferences

    /** The local `necessary` flag is always on. */
    ghost predicate Valid()
      reads this
    {
      preferences.necessary
    }

    /** The first render, before the mount effect: hidden, with the initial preferences. */
    constructor (store: Browser)
      ensures Valid()
      ensures this.store == store
      ensures !isVisible && !showDetails && preferences == InitialPreferences
    {
      this.store := store;
      isVisible := false;
      showDetails := false;
      preferences := InitialPreferences;
    }

    /** The mount effect: show the banner when the store asks for it, otherwise load the stored preferences. */
    method Mount()
      requires Valid()
      modifies this`isVisible, this`preferences
      ensures Valid()
      ensures isVisible == store.ShouldShowConsentBanner()
      ensures isVisible ==> preferences == old(preferences)
      ensures !isVisible ==> preferences == store.GetConsentData().preferences
    {
      var shouldShow := store.ShouldShowConsentBanner();
      isVisible := shouldShow;
      if !shouldShow {
        var consent := store.GetConsentData();
        preferences := consent.preferences;
      }
    }

    /** handleAcceptAll: grant both categories and hide. */
    method HandleAcceptAll(now: int)
      requires Valid()
      modifies store`slot, store`log, store`cookies, this`isVisible
      ensures Valid()
      ensures store.AppliedGrant(Preferences(true, true), now)
      ensures !isVisible
      ensures store.CanRead() && store.storageWritable ==>
        !store.ShouldShowConsentBanner() && store.HasAnalyticsConsent()
    {
      var allPreferences := Preferences(true, true);
      store.GrantConsent(allPreferences, now);
      isVisible := false;
    }

    /** handleAcceptSelected: grant the local preferences and hide. */
    method HandleAcceptSelected(now: int)
      requires Valid()
      modifies store`slot, store`log, store`cookies, this`isVisible
      ensures Valid()
      ensures store.AppliedGrant(preferences, now)
      ensures !isVisible
      ensures store.CanRead() && store.storageWritable ==>
        !store.ShouldShowConsentBanner() && store.HasAnalyticsConsent() == preferences.analytics
    {
      store.GrantConsent(preferences, now);
      isVisible := false;
    }

    /** handleRejectOptional: grant only the necessary category and hide. */
    method HandleRejectOptional(now: int)
      requires Valid()
      modifies store`slot, store`log, store`cookies, this`isVisible
      ensures Valid()
      ensures store.AppliedGrant(Preferences(true, false), now)
      ensures store.cookies == store.Scrubbed(old(store.cookies))
      ensures !isVisible
      ensures store.CanRead() && store.storageWritable ==>
        !store.ShouldShowConsentBanner() && !store.HasAnalyticsConsent()
    {
      var minimalPreferences := Preferences(true, false);
      store.GrantConsent(minimalPreferences, now);
      isVisible := false;
    }

    /** handlePreferenceChange: toggles analytics; a change to `necessary` is ignored. */
    method HandlePreferenceChange(category: Category, value: bool)
      requires Valid()
      modifies this`preferences
      ensures Valid()
      ensures preferences == PreferenceChanged(old(preferences), category, value)
    {
      if category == Necessary {
        return;
      }
      preferences := preferences.(analytics := value);
    }

    /** The details button flips the details view. */
    method ToggleDetails()
      requires Valid()
      modifies this`showDetails
      ensures Valid()
      ensures showDetails == !old(showDetails)
    {
      showDetails := !showDetails;
    }

    /** The rendered banner; nothing at all while it is hidden. */
    function Render(): (v: Option<BannerView>)
      reads this
      ensures v.None? <==> !isVisible
      ensures v.Some? ==> v.value.preferences == preferences
    {
      if !isVisible then None else Some(BannerView(preferences, showDetails))
    }
  }

  /**
   * A first visit: the banner shows, the visitor switches analytics on and
   * accepts the selection; a banner mounted afterwards stays hidden and
   * loads the granted preferences.
   */
  method FirstVisit(store: Browser, now: int)
    requires store.CanRead() && store.storageWritable && store.slot == None
    modifies store
  {
    var banner := new Banner(store);
    banner.Mount();
    assert banner.isVisible;
    banner.HandlePreferenceChange(Analytics, true);
    banner.HandleAcceptSelected(now);
    assert banner.Render().None?;
    assert store.HasAnalyticsConsent();
    var later := new Banner(store);
    later.Mount();
    assert !later.isVisible;
    assert later.preferences == Preferences(true, true);
  }
}
