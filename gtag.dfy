/**
 * The cookie-consent preference store and its bridge to the analytics
 * consent API.  The browser is one object: the localStorage slot under
 * 'micheldev-cookie-consent', the cookie jar, and the log of calls made to
 * `window.gtag`.  Whether a window exists, whether storage can be read or
 * written, the page's hostname, the tracking id and the time the module was
 * loaded are fixed facts of the environment.
 */
module Gtag {
  import opened JsValue

  /** The tracking id used when NEXT_PUBLIC_GA_ID is not set. */
  const DefaultTrackingId: string := "G-KJ5M3R7PDF"
  const ConsentVersion: string := "1.0"
  /** Milliseconds the default consent command asks the SDK to wait for an update. */
  const WaitForUpdateMs: int := 500

  datatype Preferences = Preferences(necessary: bool, analytics: bool)

  /**
   * A consent record.  TypeScript types hasConsented, timestamp and version as
   * boolean, number and string, but what getConsentData hands back copies them
   * from the parsed blob unchecked, so here they are JSON values.
   */
  datatype CookieConsent = CookieConsent(
    hasConsented: Json,
    timestamp: Json,
    preferences: Preferences,
    version: Json)

  /** DEFAULT_CONSENT; its timestamp is the clock reading taken when the module loads. */
  function DefaultConsent(loadTime: int): (r: CookieConsent)
    ensures !Truthy(r.hasConsented)
    ensures r.preferences.necessary && !r.preferences.analytics
    ensures r.timestamp == JNumber(loadTime) && r.version == JString(ConsentVersion)
  {
    CookieConsent(JBool(false), JNumber(loadTime), Preferences(true, false), JString(ConsentVersion))
  }

  /** The record grantConsent persists; `now` is the clock reading of the call. */
  function GrantRecord(p: Preferences, now: int): (r: CookieConsent)
    ensures Truthy(r.hasConsented) && r.preferences == p
    ensures r.timestamp == JNumber(now) && r.version == JString(ConsentVersion)
  {
    CookieConsent(JBool(true), JNumber(now), p, JString(ConsentVersion))
  }

  /** The keys of a record's preferences, which the banner and the modal toggle. */
  datatype Category = Necessary | Analytics

  /** handlePreferenceChange on a preferences value: `necessary` cannot be switched off. */
  function PreferenceChanged(prefs: Preferences, category: Category, value: bool): (r: Preferences)
    ensures r.necessary == prefs.necessary
    ensures category == Necessary ==> r == prefs
    ensures category == Analytics ==> r.analytics == value
  {
    match category
    case Necessary => prefs
    case Analytics => prefs.(analytics := value)
  }

  /** The preferences revokeConsent persists. */
  const RevokedPreferences: Preferences := Preferences(true, false)

  /** The object JSON.stringify writes for a record. */
  function ToJson(c: CookieConsent): (r: Json)
    ensures StoredAnalytics(r) == Some(c.preferences.analytics)
    ensures Field(r, "hasConsented") == Some(c.hasConsented)
    ensures Field(r, "timestamp") == Some(c.timestamp)
    ensures Field(r, "version") == Some(c.version)
    ensures Field(Field(r, "preferences").value, "necessary") == Some(JBool(c.preferences.necessary))
  {
    JObject(map[
      "hasConsented" := c.hasConsented,
      "timestamp" := c.timestamp,
      "preferences" := JObject(map[
        "necessary" := JBool(c.preferences.necessary),
        "analytics" := JBool(c.preferences.analytics)]),
      "version" := c.version])
  }

  /** What the stored text amounts to once JSON.parse has seen it: a parse failure (the empty string included) or a value. */
  datatype Blob = Malformed | Parsed(value: Json)

  /**
   * The structural check of getConsentData: `parsed.preferences` is truthy and
   * `parsed.preferences.analytics` is a boolean.  Yields that boolean.
   */
  function StoredAnalytics(v: Json): (r: Option<bool>)
    ensures r.Some? <==>
      && Field(v, "preferences").Some?
      && Truthy(Field(v, "preferences").value)
      && Field(Field(v, "preferences").value, "analytics").Some?
      && Field(Field(v, "preferences").value, "analytics").value.JBool?
    ensures r.Some? ==> v.JObject? && Field(Field(v, "preferences").value, "analytics") == Some(JBool(r.value))
  {
    match Field(v, "preferences")
    case None => None
    case Some(prefs) =>
      if !Truthy(prefs) then None
      else
        match Field(prefs, "analytics")
        case Some(JBool(a)) => Some(a)
        case _ => None
  }

  /** The stored item passed getConsentData's structural check. */
  predicate WellFormed(item: Option<Blob>)
    ensures WellFormed(item) ==> item.Some? && item.value.Parsed? && item.value.value.JObject?
  {
    item.Some? && item.value.Parsed? && StoredAnalytics(item.value.value).Some?
  }

  /**
   * The read side of getConsentData once localStorage answered: fall back to
   * the default on a missing, unparsable or ill-shaped item; otherwise spread
   * the default under the parsed object and rebuild `preferences` with
   * `necessary` forced on.
   */
  function Decode(item: Option<Blob>, loadTime: int): (c: CookieConsent)
    ensures c.preferences.necessary
    ensures !WellFormed(item) ==> c == DefaultConsent(loadTime)
    ensures c.preferences.analytics <==> WellFormed(item) && StoredAnalytics(item.value.value) == Some(true)
    ensures WellFormed(item) ==>
      var v := item.value.value;
      && c.hasConsented == FieldOr(v, "hasConsented", JBool(false))
      && c.timestamp == FieldOr(v, "timestamp", JNumber(loadTime))
      && c.version == FieldOr(v, "version", JString(ConsentVersion))
  {
    match item
    case None => DefaultConsent(loadTime)
    case Some(Malformed) => DefaultConsent(loadTime)
    case Some(Parsed(v)) =>
      match StoredAnalytics(v)
      case None => DefaultConsent(loadTime)
      case Some(a) =>
        var d := DefaultConsent(loadTime);
        CookieConsent(
          FieldOr(v, "hasConsented", d.hasConsented),
          FieldOr(v, "timestamp", d.timestamp),
          Preferences(true, a || false),
          FieldOr(v, "version", d.version))
  }

  /** Reading back what was written gives the record with `necessary` forced on, and nothing else changed. */
  lemma DecodeRoundTrip(c: CookieConsent, loadTime: int)
    ensures Decode(Some(Parsed(ToJson(c))), loadTime)
         == c.(preferences := c.preferences.(necessary := true))
  {
    var v := ToJson(c);
    assert Field(v, "preferences") == Some(JObject(map["necessary" := JBool(c.preferences.necessary),
                                                         "analytics" := JBool(c.preferences.analytics)]));
    assert StoredAnalytics(v) == Some(c.preferences.analytics);
  }

  /** The record grantConsent writes reads back as decided, with exactly the granted analytics flag. */
  lemma GrantRecordReadsBack(p: Preferences, now: int, loadTime: int)
    ensures var c := Decode(Some(Parsed(ToJson(GrantRecord(p, now)))), loadTime);
      && Truthy(c.hasConsented)
      && c.preferences == Preferences(true, p.analytics)
      && c.timestamp == JNumber(now)
      && c.version == JString(ConsentVersion)
  {
    DecodeRoundTrip(GrantRecord(p, now), loadTime);
  }

  // ---------------------------------------------------------------------------
  // Cookie names

  /** `s[i..i+|pat|] == pat`, with the bounds included. */
  predicate OccursAt(s: string, pat: string, i: int)
  {
    0 <= i && i + |pat| <= |s| && s[i..i + |pat|] == pat
  }

  /** String.prototype.indexOf: the first position of `pat` in `s`, or -1. */
  function IndexOfSubstring(s: string, pat: string): (i: int)
    ensures i == -1 || OccursAt(s, pat, i)
    ensures i == -1 ==> forall j :: !OccursAt(s, pat, j)
    ensures forall j :: 0 <= j < i ==> !OccursAt(s, pat, j)
  {
    if |s| < |pat| then -1
    else if s[..|pat|] == pat then 0
    else
      var j := IndexOfSubstring(s[1..], pat);
      assert forall k :: 1 <= k ==> (OccursAt(s, pat, k) <==> OccursAt(s[1..], pat, k - 1)) by {
        forall k | 1 <= k ensures OccursAt(s, pat, k) <==> OccursAt(s[1..], pat, k - 1) {
          if k + |pat| <= |s| {
            SliceAfterDrop(s, k, |pat|);
          }
        }
      }
      assert !OccursAt(s, pat, 0);
      if j < 0 then -1 else j + 1
  }

  /** A window of `s` starting at k >= 1 is the window at k - 1 of `s` without its first character. */
  lemma SliceAfterDrop(s: string, k: int, n: nat)
    requires 1 <= k && k + n <= |s|
    ensures s[1..][k - 1..k - 1 + n] == s[k..k + n]
  {
  }

  /**
   * String.prototype.replace with a string pattern: only the first
   * occurrence is replaced.  The replacement is taken literally; the `$&`,
   * `$1` and similar patterns JavaScript expands in it are not modelled
   * (the only replacement used is the empty string).
   */
  function ReplaceFirst(s: string, pat: string, rep: string): (r: string)
    ensures (forall j :: !OccursAt(s, pat, j)) ==> r == s
    ensures forall i :: OccursAt(s, pat, i) && (forall j :: 0 <= j < i ==> !OccursAt(s, pat, j)) ==>
      r == s[..i] + rep + s[i + |pat|..]
    ensures r == s || |r| == |s| - |pat| + |rep|
  {
    var i := IndexOfSubstring(s, pat);
    if i < 0 then s else s[..i] + rep + s[i + |pat|..]
  }

  /** The tracking id with its first "G-" removed, as used in two cookie names. */
  function MeasurementSuffix(trackingId: string): (r: string)
    ensures (forall j :: !OccursAt(trackingId, "G-", j)) ==> r == trackingId
    ensures forall i :: OccursAt(trackingId, "G-", i) && (forall j :: 0 <= j < i ==> !OccursAt(trackingId, "G-", j)) ==>
      r == trackingId[..i] + trackingId[i + 2..]
    ensures r == trackingId || |r| == |trackingId| - 2
  {
    ReplaceFirst(trackingId, "G-", "")
  }

  /** The ten Google Analytics cookie names removeGoogleAnalyticsCookies expires, in order. */
  function GaCookieNames(trackingId: string): (r: seq<string>)
    ensures |r| == 10
    ensures r[1] == "_ga_" + MeasurementSuffix(trackingId)
    ensures r[4] == "_gat_gtag_" + MeasurementSuffix(trackingId)
  {
    var suffix := MeasurementSuffix(trackingId);
    ["_ga", "_ga_" + suffix, "_gid", "_gat", "_gat_gtag_" + suffix,
     "__utma", "__utmb", "__utmc", "__utmt", "__utmz"]
  }

  /** Only the second and the fifth name depend on the tracking id. */
  lemma FixedGaCookieNames(a: string, b: string)
    ensures forall i :: 0 <= i < 10 && i != 1 && i != 4 ==> GaCookieNames(a)[i] == GaCookieNames(b)[i]
  {
  }

  /** For an id that starts with "G-", the suffix is the rest of the id. */
  lemma MeasurementSuffixStripsPrefix(trackingId: string)
    requires |trackingId| >= 2 && trackingId[..2] == "G-"
    ensures MeasurementSuffix(trackingId) == trackingId[2..]
  {
    assert OccursAt(trackingId, "G-", 0);
  }

  /** The built-in tracking id without its "G-" prefix. */
  lemma DefaultMeasurementSuffix()
    ensures MeasurementSuffix(DefaultTrackingId) == "KJ5M3R7PDF"
  {
    MeasurementSuffixStripsPrefix(DefaultTrackingId);
    assert DefaultTrackingId[2..] == "KJ5M3R7PDF";
  }

  /** With the built-in tracking id the two derived names end in "KJ5M3R7PDF". */
  lemma DefaultGaCookieNames()
    ensures GaCookieNames(DefaultTrackingId)
         == ["_ga", "_ga_" + "KJ5M3R7PDF", "_gid", "_gat", "_gat_gtag_" + "KJ5M3R7PDF",
             "__utma", "__utmb", "__utmc", "__utmt", "__utmz"]
  {
    DefaultMeasurementSuffix();
  }

  // ---------------------------------------------------------------------------
  // The cookie jar

  /** Where a cookie lives: host-only (no domain attribute) or a domain attribute. */
  datatype Scope = HostOnly | Domain(domain: string)

  /** A cookie is identified by its name and scope (every cookie here has path "/"). */
  datatype CookieKey = CookieKey(name: string, scope: Scope)

  /** The three scopes each name is expired at: host-only, "." + hostname, and hostname. */
  predicate IsGaScope(s: Scope, hostname: string)
  {
    s == HostOnly || s == Domain("." + hostname) || s == Domain(hostname)
  }

  /** The three keys one name is expired under. */
  function NameKeys(name: string, hostname: string): set<CookieKey>
  {
    {CookieKey(name, HostOnly), CookieKey(name, Domain("." + hostname)), CookieKey(name, Domain(hostname))}
  }

  /** Every key the loop has expired after handling `names`. */
  function ExpiredKeys(names: seq<string>, hostname: string): set<CookieKey>
  {
    if names == [] then {}
    else ExpiredKeys(names[..|names| - 1], hostname) + NameKeys(names[|names| - 1], hostname)
  }

  /** A key is expired exactly when its name is listed and its scope is one of the three. */
  lemma {:induction false} ExpiredKeysMembership(names: seq<string>, hostname: string)
    ensures forall k: CookieKey :: k in ExpiredKeys(names, hostname) <==> k.name in names && IsGaScope(k.scope, hostname)
  {
    if names != [] {
      var init := names[..|names| - 1];
      ExpiredKeysMembership(init, hostname);
      assert names == init + [names[|names| - 1]];
      forall k ensures k in ExpiredKeys(names, hostname) <==> k.name in names && IsGaScope(k.scope, hostname) {
        assert k.name in names <==> k.name in init || k.name == names[|names| - 1];
      }
    }
  }

  /** The jar after every listed name has been expired at all three scopes. */
  function WithoutGaCookies(jar: map<CookieKey, string>, names: seq<string>, hostname: string): (r: map<CookieKey, string>)
    ensures forall k: CookieKey :: k in r ==> k in jar && r[k] == jar[k]
    ensures forall k: CookieKey :: k in jar && !(k.name in names && IsGaScope(k.scope, hostname)) ==> k in r
    ensures forall k: CookieKey :: k.name in names && IsGaScope(k.scope, hostname) ==> k !in r
  {
    ExpiredKeysMembership(names, hostname);
    jar - ExpiredKeys(names, hostname)
  }

  /** Expiring the cookies a second time changes nothing. */
  lemma WithoutGaCookiesIdempotent(jar: map<CookieKey, string>, names: seq<string>, hostname: string)
    ensures WithoutGaCookies(WithoutGaCookies(jar, names, hostname), names, hostname)
         == WithoutGaCookies(jar, names, hostname)
  {
  }

  // ---------------------------------------------------------------------------
  // Calls to window.gtag

  datatype ConsentMode = Granted | Denied
  datatype ConsentCommand = DefaultCommand | UpdateCommand

  /** The parameter object of a `gtag('consent', …)` call. */
  datatype ConsentParams = ConsentParams(
    analyticsStorage: ConsentMode,
    adStorage: ConsentMode,
    adUserData: ConsentMode,
    adPersonalization: ConsentMode,
    waitForUpdate: Option<int>)

  datatype GtagCall =
    | ConsentCall(command: ConsentCommand, params: ConsentParams)
    | ConfigCall(targetId: string, pagePath: string)
    | EventCall(action: string, category: string, eventLabel: Option<string>, eventValue: Option<int>)

  /** The consent parameters for an analytics choice: only analytics storage can be granted. */
  function ConsentSignal(analytics: bool, waitForUpdate: Option<int>): (p: ConsentParams)
    ensures p.analyticsStorage == Granted <==> analytics
    ensures p.adStorage == Denied && p.adUserData == Denied && p.adPersonalization == Denied
    ensures p.waitForUpdate == waitForUpdate
  {
    ConsentParams(if analytics then Granted else Denied, Denied, Denied, Denied, waitForUpdate)
  }

  // ---------------------------------------------------------------------------
  // The browser state the store works on

  class Browser {
    /** `typeof window !== 'undefined'`: false while rendering on the server. */
    const hasWindow: bool
    /** localStorage.getItem does not throw. */
    const storageReadable: bool
    /** localStorage.setItem does not throw (storage enabled and not over quota). */
    const storageWritable: bool
    const hostname: string
    const trackingId: string
    /** The clock reading taken when the module was loaded (DEFAULT_CONSENT's timestamp). */
    const loadTime: int

    /** The item under 'micheldev-cookie-consent'. */
    var slot: Option<Blob>
    var cookies: map<CookieKey, string>
    /** `window.gtag` is defined (the SDK has loaded). */
    var gtagPresent: bool
    /** Every call made to `window.gtag`, oldest first. */
    var log: seq<GtagCall>

    constructor (hasWindow: bool, storageReadable: bool, storageWritable: bool, hostname: string,
                 trackingId: string, loadTime: int, slot: Option<Blob>,
                 cookies: map<CookieKey, string>, gtagPresent: bool)
      ensures this.hasWindow == hasWindow && this.storageReadable == storageReadable
      ensures this.storageWritable == storageWritable && this.hostname == hostname
      ensures this.trackingId == trackingId && this.loadTime == loadTime
      ensures this.slot == slot && this.cookies == cookies && this.gtagPresent == gtagPresent
      ensures log == []
    {
      this.hasWindow := hasWindow;
      this.storageReadable := storageReadable;
      this.storageWritable := storageWritable;
      this.hostname := hostname;
      this.trackingId := trackingId;
      this.loadTime := loadTime;
      this.slot := slot;
      this.cookies := cookies;
      this.gtagPresent := gtagPresent;
      log := [];
    }

    /** Storage is there to be read: a window exists and getItem does not throw. */
    predicate CanRead()
    {
      hasWindow && storageReadable
    }

    /** getConsentData: never throws; every failure yields the default record. */
    function GetConsentData(): (c: CookieConsent)
      reads this
      ensures c.preferences.necessary
      ensures !CanRead() || !WellFormed(slot) ==> c == DefaultConsent(loadTime)
      ensures c.preferences.analytics <==> CanRead() && WellFormed(slot) && StoredAnalytics(slot.value.value) == Some(true)
    {
      if !CanRead() then DefaultConsent(loadTime) else Decode(slot, loadTime)
    }

    /** The slot after saveConsentData(c) from `prev`: a failed or impossible write leaves it as it was. */
    function SavedSlot(prev: Option<Blob>, c: CookieConsent): Option<Blob>
    {
      if hasWindow && storageWritable then Some(Parsed(ToJson(c))) else prev
    }

    /** saveConsentData: writes the record as given (necessary is not forced); a storage error is swallowed. */
    method SaveConsentData(c: CookieConsent)
      modifies this`slot
      ensures slot == SavedSlot(old(slot), c)
      ensures hasWindow && storageWritable ==> slot == Some(Parsed(ToJson(c)))
    {
      if !hasWindow {
        return;
      }
      if storageWritable {
        slot := Some(Parsed(ToJson(c)));
      }
    }

    /** shouldShowConsentBanner: the banner shows until a record with a truthy hasConsented is read. */
    function ShouldShowConsentBanner(): (r: bool)
      reads this
      ensures !CanRead() || !WellFormed(slot) ==> r
      ensures CanRead() && WellFormed(slot) ==>
        r == !Truthy(FieldOr(slot.value.value, "hasConsented", JBool(false)))
    {
      !Truthy(GetConsentData().hasConsented)
    }

    /** hasAnalyticsConsent: a decision was read and it stores analytics = true. */
    function HasAnalyticsConsent(): (r: bool)
      reads this
      ensures r ==> !ShouldShowConsentBanner()
      ensures r <==> !ShouldShowConsentBanner() && CanRead() && WellFormed(slot)
                     && StoredAnalytics(slot.value.value) == Some(true)
    {
      var c := GetConsentData();
      Truthy(c.hasConsented) && c.preferences.analytics
    }

    /** initializeGoogleConsent: one `default` consent command from the stored preferences, if gtag is there. */
    method InitializeGoogleConsent()
      modifies this`log
      ensures log == old(log) + (if hasWindow && gtagPresent
                                 then [ConsentCall(DefaultCommand, ConsentSignal(GetConsentData().preferences.analytics, Some(WaitForUpdateMs)))]
                                 else [])
      ensures hasWindow && gtagPresent ==>
        (log[|old(log)|].params.analyticsStorage == Granted <==> GetConsentData().preferences.analytics)
    {
      if !hasWindow || !gtagPresent {
        return;
      }
      var consent := GetConsentData();
      log := log + [ConsentCall(DefaultCommand, ConsentSignal(consent.preferences.analytics, Some(WaitForUpdateMs)))];
    }

    /** The calls updateGoogleConsent(p) makes. */
    function UpdateCalls(p: Preferences): seq<GtagCall>
      reads this
    {
      if hasWindow && gtagPresent then [ConsentCall(UpdateCommand, ConsentSignal(p.analytics, None))] else []
    }

    /** updateGoogleConsent: one `update` consent command, if gtag is there. */
    method UpdateGoogleConsent(p: Preferences)
      modifies this`log
      ensures log == old(log) + UpdateCalls(p)
      ensures hasWindow && gtagPresent ==> (log[|old(log)|].params.analyticsStorage == Granted <==> p.analytics)
    {
      if !hasWindow || !gtagPresent {
        return;
      }
      log := log + [ConsentCall(UpdateCommand, ConsentSignal(p.analytics, None))];
    }

    /** The jar after removeGoogleAnalyticsCookies from `jar`. */
    function Scrubbed(jar: map<CookieKey, string>): map<CookieKey, string>
    {
      if hasWindow then WithoutGaCookies(jar, GaCookieNames(trackingId), hostname) else jar
    }

    /** One `document.cookie = name=; expires=<1970>` write: the browser drops that cookie, if it has it. */
    method ExpireCookie(key: CookieKey)
      modifies this`cookies
      ensures cookies == old(cookies) - {key}
    {
      cookies := cookies - {key};
    }

    /** The forEach of removeGoogleAnalyticsCookies: expire each name at the three scopes, in order. */
    method ExpireEach(names: seq<string>)
      modifies this`cookies
      ensures cookies == old(cookies) - ExpiredKeys(names, hostname)
    {
      var i := 0;
      while i < |names|
        invariant 0 <= i <= |names|
        invariant cookies == old(cookies) - ExpiredKeys(names[..i], hostname)
      {
        var name := names[i];
        ExpireCookie(CookieKey(name, HostOnly));
        ExpireCookie(CookieKey(name, Domain("." + hostname)));
        ExpireCookie(CookieKey(name, Domain(hostname)));
        assert names[..i + 1][..i] == names[..i];
        i := i + 1;
      }
      assert names[..i] == names;
    }

    /** removeGoogleAnalyticsCookies: the ten names, each at the three scopes; nothing without a window. */
    method RemoveGoogleAnalyticsCookies()
      modifies this`cookies
      ensures cookies == Scrubbed(old(cookies))
    {
      if !hasWindow {
        return;
      }
      ExpireEach(GaCookieNames(trackingId));
    }

    /** What grantConsent(p) at time `now` does to the slot, the log and the jar. */
    twostate predicate AppliedGrant(p: Preferences, now: int)
      reads this
    {
      && slot == SavedSlot(old(slot), GrantRecord(p, now))
      && log == old(log) + UpdateCalls(p)
      && cookies == (if p.analytics then old(cookies) else Scrubbed(old(cookies)))
    }

    /** grantConsent: persist, tell the SDK, and remove the cookies when analytics is off. */
    method GrantConsent(p: Preferences, now: int)
      modifies this`slot, this`log, this`cookies
      ensures AppliedGrant(p, now)
      ensures p.analytics ==> cookies == old(cookies)
      ensures CanRead() && storageWritable ==>
        !ShouldShowConsentBanner() && HasAnalyticsConsent() == p.analytics
      ensures CanRead() && storageWritable ==> GetConsentData().preferences == Preferences(true, p.analytics)
    {
      SaveConsentData(GrantRecord(p, now));
      UpdateGoogleConsent(p);
      if !p.analytics {
        RemoveGoogleAnalyticsCookies();
      }
      GrantRecordReadsBack(p, now, loadTime);
    }

    /**
     * revokeConsent: the record stays decided with analytics off, the SDK is
     * told, and the cookies are removed; exactly what granting
     * {necessary: true, analytics: false} does.
     */
    method RevokeConsent(now: int)
      modifies this`slot, this`log, this`cookies
      ensures AppliedGrant(RevokedPreferences, now)
      ensures cookies == Scrubbed(old(cookies))
      ensures CanRead() && storageWritable ==> !ShouldShowConsentBanner() && !HasAnalyticsConsent()
      ensures CanRead() && storageWritable ==> GetConsentData().preferences == RevokedPreferences
    {
      SaveConsentData(GrantRecord(RevokedPreferences, now));
      UpdateGoogleConsent(RevokedPreferences);
      RemoveGoogleAnalyticsCookies();
      GrantRecordReadsBack(RevokedPreferences, now, loadTime);
    }

    /** pageview: a `config` hit, only with analytics consent. */
    method Pageview(url: string)
      modifies this`log
      ensures log == old(log) + (if hasWindow && gtagPresent && HasAnalyticsConsent() then [ConfigCall(trackingId, url)] else [])
      ensures log != old(log) ==> HasAnalyticsConsent()
    {
      if hasWindow && gtagPresent && HasAnalyticsConsent() {
        log := log + [ConfigCall(trackingId, url)];
      }
    }

    /** event: an `event` hit, only with analytics consent. */
    method Event(action: string, category: string, eventLabel: Option<string>, eventValue: Option<int>)
      modifies this`log
      ensures log == old(log) + (if hasWindow && gtagPresent && HasAnalyticsConsent() then [EventCall(action, category, eventLabel, eventValue)] else [])
      ensures log != old(log) ==> HasAnalyticsConsent()
    {
      if hasWindow && gtagPresent && HasAnalyticsConsent() {
        log := log + [EventCall(action, category, eventLabel, eventValue)];
      }
    }

    method TrackFormSubmission(formType: string)
      modifies this`log
      ensures log == old(log) + (if hasWindow && gtagPresent && HasAnalyticsConsent() then [EventCall("form_submit", "Contact", Some(formType), None)] else [])
    {
      Event("form_submit", "Contact", Some(formType), None);
    }

    method TrackProjectView(projectName: string)
      modifies this`log
      ensures log == old(log) + (if hasWindow && gtagPresent && HasAnalyticsConsent() then [EventCall("project_view", "Portfolio", Some(projectName), None)] else [])
    {
      Event("project_view", "Portfolio", Some(projectName), None);
    }

    method TrackServiceClick(serviceName: string)
      modifies this`log
      ensures log == old(log) + (if hasWindow && gtagPresent && HasAnalyticsConsent() then [EventCall("service_click", "Services", Some(serviceName), None)] else [])
    {
      Event("service_click", "Services", Some(serviceName), None);
    }
  }

  /**
   * A first visit: the banner shows; "accept all" hides it and allows
   * analytics; "revoke all" later keeps it hidden, turns analytics off and
   * removes the Google Analytics cookies.
   */
  method ConsentScenario(b: Browser, t1: int, t2: int)
    requires b.CanRead() && b.storageWritable && b.slot == None
    modifies b
  {
    var jar := b.cookies;
    assert b.ShouldShowConsentBanner() && !b.HasAnalyticsConsent();
    b.GrantConsent(Preferences(true, true), t1);
    assert !b.ShouldShowConsentBanner() && b.HasAnalyticsConsent();
    assert b.cookies == jar;
    b.RevokeConsent(t2);
    assert !b.ShouldShowConsentBanner() && !b.HasAnalyticsConsent();
    assert CookieKey("_ga", HostOnly) !in b.cookies;
  }
}
