# Portfolio site: cookie consent, theme and portfolio logic in Dafny

This project models the logic of a personal portfolio site written in
TypeScript and React, and proves properties of the model.

- **Consent store.** The store keeps the visitor's cookie decision in one
  localStorage slot. It reads that slot defensively and removes the Google
  Analytics cookies when analytics is refused. It reports each decision to
  the analytics SDK as a Consent Mode command. It sends page views and
  events only when analytics consent is present.
- **Banner and settings modal.** These two components let the visitor make
  or change that decision.
- **Theme hook and toggle.** The hook keeps the light, dark or system theme
  on the root element and in storage. The toggle button cycles through the
  three themes.
- **Portfolio section.** It filters nine projects by tab and reveals them
  three at a time, with a separate count for each tab.

## Modules and files

- `jsvalue.dfy` (`JsValue`): what `JSON.parse` can return, JavaScript
  truthiness, and property reads that may be `undefined`.
- `gtag.dfy` (`Gtag`): the consent store.
  - The pure part is the decoder, the preference categories and their toggle, the cookie names and the consent
    parameters.
  - `class Browser` holds the browser state the store changes: the storage
    slot, the cookie jar and the log of `window.gtag` calls.
  - Whether a window exists, whether storage can be read or written, the
    hostname, the tracking id and the module load time are constant fields
    of that class.
- `portfolio.dfy` (`Portfolio`): the project data, the tab filter, slicing
  and `Math.min` clamping. `class PortfolioSection` holds the component's
  state: the active tab, the dropdown flag and the per-tab visible counts.
- `use_theme.dfy` (`UseTheme`): theme resolution and the class-list update.
  `class ThemeHook` holds the hook's state and effects.
- `theme_toggle.dfy` (`ThemeToggle`): the cycle order, the icon, the label,
  the rendered view, and a click that goes through the hook.
- `consent_banner.dfy` (`ConsentBanner`): `class Banner` and its handlers.
  They call the store.
- `settings_modal.dfy` (`SettingsModal`): `class Modal` and its handlers.
  It also models the confirmation callbacks that are scheduled but have not
  yet run.

### How the browser is abstracted

- **Stored text.** The stored consent text is reduced to what `JSON.parse`
  makes of it: `Blob = Malformed | Parsed(value)`.
- **Cookie jar.** The jar is a map keyed by cookie name and scope. The scope
  is host-only or a domain attribute.
- **SDK calls.** Calls to the analytics SDK are appended to a log.
- **Media query.** `(prefers-color-scheme: dark)` is a boolean field of the
  theme hook.
- **Clock.** The clock is a parameter: `now` for each grant, and `loadTime`
  for the default record.
- **React.** A React state update followed by the effect it triggers is one
  method. An effect whose dependencies did not change does not run again.
  For example, setting the same theme again does nothing.

### Where the code and its comments differ

The interface comment at src/lib/gtag.ts:9 says that `necessary` is always
true. But `saveConsentData` (src/lib/gtag.ts:53-61) writes the record
exactly as given; only the read side forces `necessary` on
(src/lib/gtag.ts:41). The model follows the code:

- `Gtag.Browser.SaveConsentData` stores `ToJson(c)` unchanged.
- `Gtag.DecodeRoundTrip` shows that reading back gives the record with
  `necessary := true`.

The comment above `handleTabChange` says the visible count is reset when
the tab changes. The code does not reset it (src/components/sections/Portfolio.tsx:198-206).
`Portfolio.PortfolioSection.HandleTabChange` keeps the counts as they are.

## Model

| member | source | states |
|---|---|---|
| JsValue.Field | src/lib/gtag.ts:36 | a property read yields a value exactly when the value is an object owning the key, and then it is that key's value |
| JsValue.Truthy | src/lib/gtag.ts:32-36 | a value is falsy iff it is null, false, 0 or the empty string; arrays and objects are truthy |
| Gtag.Decode | src/lib/gtag.ts:30-49 | the read always has `necessary` true; a missing, unparsable or ill-shaped item gives exactly the default record; `analytics` holds iff the stored `preferences.analytics` is the boolean true; other fields come from the blob where present and from the default otherwise |
| Gtag.DefaultConsent | src/lib/gtag.ts:16-24 | the default record is not a decision, has `necessary` on and analytics off, and carries the load time and version "1.0" |
| Gtag.GrantRecord | src/lib/gtag.ts:137-142 | a grant record is a decision carrying the given preferences, the grant's time and version "1.0" |
| Gtag.ToJson | src/lib/gtag.ts:57 | the written object passes the structural check with the record's analytics flag, and carries each of the record's fields |
| Gtag.StoredAnalytics | src/lib/gtag.ts:36 | a value passes iff `preferences` is present and truthy and its `analytics` is a boolean; that boolean is the result, and only objects pass |
| Gtag.WellFormed | src/lib/gtag.ts:34-36 | a well-formed item is a parsed object that passes the structural check |
| Gtag.DecodeRoundTrip | src/lib/gtag.ts:36-44 | reading back a written record returns that record with only `necessary` forced to true |
| Gtag.GrantRecordReadsBack | src/lib/gtag.ts:136-142 | the record grantConsent writes reads back as decided, with preferences {true, analytics}, the grant's timestamp and version "1.0" |
| Gtag.IndexOfSubstring | src/lib/gtag.ts:112 | the result is -1 exactly when the pattern occurs nowhere; otherwise the pattern occurs there and at no earlier position |
| Gtag.ReplaceFirst | src/lib/gtag.ts:112 | with no occurrence the string is unchanged; otherwise the first occurrence, wherever it is, and only that one, is replaced by the replacement |
| Gtag.MeasurementSuffix | src/lib/gtag.ts:112 | an id without "G-" is kept as it is; otherwise exactly two characters are dropped |
| Gtag.GaCookieNames | src/lib/gtag.ts:110-121 | ten names; the second is `_ga_` and the fifth `_gat_gtag_`, each followed by the measurement suffix |
| Gtag.FixedGaCookieNames | src/lib/gtag.ts:110-121 | the other eight names do not depend on the tracking id |
| Gtag.MeasurementSuffixStripsPrefix | src/lib/gtag.ts:112 | for a tracking id starting with "G-", the suffix in the cookie names is the id without those two characters |
| Gtag.DefaultMeasurementSuffix | src/lib/gtag.ts:2 | the built-in tracking id gives the suffix "KJ5M3R7PDF" |
| Gtag.DefaultGaCookieNames | src/lib/gtag.ts:110-121 | with the built-in tracking id the ten cookie names are `_ga`, `_ga_` + "KJ5M3R7PDF", `_gid`, `_gat`, `_gat_gtag_` + "KJ5M3R7PDF" and the five `__utm*` names |
| Gtag.ExpiredKeysMembership | src/lib/gtag.ts:123-130 | a cookie is expired by the loop iff its name is listed and its scope is host-only, `.hostname` or `hostname` |
| Gtag.WithoutGaCookies | src/lib/gtag.ts:123-130 | removal keeps every other cookie with its value, adds none, and leaves no listed name at any of the three scopes |
| Gtag.WithoutGaCookiesIdempotent | src/lib/gtag.ts:106-133 | removing the cookies a second time changes nothing |
| Gtag.ConsentSignal | src/lib/gtag.ts:76-82 | analytics storage is granted iff analytics is chosen; the three ad signals are always denied; the wait is passed through |
| Gtag.Browser.GetConsentData | src/lib/gtag.ts:27-50 | never fails; no window, an unreadable storage or an ill-shaped item gives the default record; `necessary` always true; `analytics` iff the stored flag is true |
| Gtag.Browser.SaveConsentData | src/lib/gtag.ts:53-61 | with a window and writable storage the slot holds the record unchanged; otherwise the slot keeps its old value |
| Gtag.Browser.ShouldShowConsentBanner | src/lib/gtag.ts:175-178 | the banner shows whenever nothing valid can be read, and otherwise iff the stored `hasConsented` is falsy |
| Gtag.Browser.HasAnalyticsConsent | src/lib/gtag.ts:63-67 | consent implies the banner is hidden; it holds iff a decision was read from a well-formed record whose analytics flag is true |
| Gtag.Browser.InitializeGoogleConsent | src/lib/gtag.ts:70-87 | with a window and the SDK present, exactly one `default` command is logged; it grants analytics storage iff the stored preferences do and waits 500 ms; otherwise nothing is logged |
| Gtag.Browser.UpdateGoogleConsent | src/lib/gtag.ts:90-103 | with a window and the SDK present, exactly one `update` command is logged; it grants analytics storage iff `p.analytics`; otherwise nothing is logged |
| Gtag.Browser.ExpireCookie | src/lib/gtag.ts:125 | one expiring write removes exactly that cookie |
| Gtag.Browser.ExpireEach | src/lib/gtag.ts:123-130 | the loop over the names removes exactly the keys of every listed name at the three scopes |
| Gtag.Browser.RemoveGoogleAnalyticsCookies | src/lib/gtag.ts:106-133 | the jar is left without the ten names at the three scopes and with everything else; without a window the jar is untouched |
| Gtag.Browser.GrantConsent | src/lib/gtag.ts:136-153 | saves the grant record, logs one update when the SDK is present, and scrubs the cookies exactly when analytics is refused; when storage works, the banner is then hidden, analytics consent equals `p.analytics`, and the preferences read back are {true, `p.analytics`} |
| Gtag.Browser.RevokeConsent | src/lib/gtag.ts:156-172 | does what granting {true, false} does and always scrubs the cookies; when storage works, the banner stays hidden, analytics consent is off, and the preferences read back are {true, false} |
| Gtag.Browser.Pageview | src/lib/gtag.ts:181-187 | logs one `config` hit for the url when a window, the SDK and analytics consent are all present, and nothing otherwise |
| Gtag.Browser.Event | src/lib/gtag.ts:190-203 | logs one `event` hit with the given fields when a window, the SDK and analytics consent are all present, and nothing otherwise |
| Gtag.Browser.TrackFormSubmission | src/lib/gtag.ts:206-212 | an event `form_submit` / `Contact` labelled with the form type, under the same consent gate |
| Gtag.Browser.TrackProjectView | src/lib/gtag.ts:214-220 | an event `project_view` / `Portfolio` labelled with the project name, under the same consent gate |
| Gtag.Browser.TrackServiceClick | src/lib/gtag.ts:222-228 | an event `service_click` / `Services` labelled with the service name, under the same consent gate |
| Gtag.Browser.constructor | src/lib/gtag.ts:2 | the browser starts with the given environment and stored state and an empty SDK log |
| Portfolio.FilterCategory | src/components/sections/Portfolio.tsx:179-181 | the filter never lengthens the list, and every kept project has the requested category |
| Portfolio.FilterCategoryAppend | src/components/sections/Portfolio.tsx:179-181 | filtering a concatenation is the concatenation of the filtered parts, so the original order is kept |
| Portfolio.FilterCategoryCounts | src/components/sections/Portfolio.tsx:179-181 | each project of the category is kept as often as it occurs, and no other project is kept |
| Portfolio.FilterKeepsAll | src/components/sections/Portfolio.tsx:179-181 | a list of one category passes its filter unchanged |
| Portfolio.FilterDropsAll | src/components/sections/Portfolio.tsx:179-181 | a list without the category filters to nothing |
| Portfolio.FilterSplitPrefix | src/components/sections/Portfolio.tsx:179-181 | a list whose first n projects have the category and the rest do not filters to its first n |
| Portfolio.FilterSplitSuffix | src/components/sections/Portfolio.tsx:179-181 | a list whose first n projects lack the category and the rest have it filters to the rest |
| Portfolio.FilteredProjects | src/components/sections/Portfolio.tsx:179-181 | a tab's list is never longer than the catalogue, and on a category tab every listed project has that category |
| Portfolio.FirstFourAreWebsites | src/components/sections/Portfolio.tsx:8-41 | there are nine projects, and projects 1-4 are websites |
| Portfolio.LastFiveAreGraphics | src/components/sections/Portfolio.tsx:42-81 | projects 5-9 are graphics |
| Portfolio.WebsitesProjects | src/components/sections/Portfolio.tsx:85 | the websites filter lists projects 1-4 in order |
| Portfolio.GraphicsProjects | src/components/sections/Portfolio.tsx:86 | the graphics filter lists projects 5-9 in order |
| Portfolio.WebsitesLength | src/components/sections/Portfolio.tsx:85 | the websites tab holds four projects |
| Portfolio.GraphicsLength | src/components/sections/Portfolio.tsx:86 | the graphics tab holds five projects |
| Portfolio.TabCount | src/components/sections/Portfolio.tsx:84-86 | a badge never exceeds the catalogue size, and the `all` badge is the catalogue size |
| Portfolio.TabCounts | src/components/sections/Portfolio.tsx:83-87 | the tabs are all, websites and graphics, and their badges equal the lengths of their lists: 9, 4 and 5 |
| Portfolio.MoreThanOnePage | src/components/sections/Portfolio.tsx:83-87 | every tab holds more than three projects |
| Portfolio.SliceFromStart | src/components/sections/Portfolio.tsx:184 | `slice(0, end)` is a prefix; its length is `end` clamped to the list length for a non-negative end |
| Portfolio.ShowsSiteLink | src/components/sections/Portfolio.tsx:138 | the action is shown iff the project is a website and its url is present and truthy |
| Portfolio.NextVisibleCount | src/components/sections/Portfolio.tsx:194 | the new count is at most the total and at most three more, and equals one of them, so it is `Math.min(count + 3, total)`; it never drops below a count that was within the total |
| Portfolio.LoadMoreReachesTotal | src/components/sections/Portfolio.tsx:191-196 | enough repeated clicks reach the total and stay there |
| Portfolio.LoadMoreMonotone | src/components/sections/Portfolio.tsx:191-196 | repeated clicks never lower the count and never pass the total |
| Portfolio.SiteLinks | src/components/sections/Portfolio.tsx:138 | exactly the four websites projects carry the "view site" action |
| Portfolio.PortfolioSection.constructor | src/components/sections/Portfolio.tsx:155-162 | starts on tab `all` with the dropdown closed and a count of 3 for every tab |
| Portfolio.PortfolioSection.CountOf | src/components/sections/Portfolio.tsx:158-162 | every tab's count lies between 3 and the length of its list |
| Portfolio.PortfolioSection.TotalProjects | src/components/sections/Portfolio.tsx:188 | the total is more than one page and at most the catalogue size; on tab `all` it is the catalogue size |
| Portfolio.PortfolioSection.VisibleProjects | src/components/sections/Portfolio.tsx:184 | the visible projects are the first `min(count, total)` of the active list, and at least three of them |
| Portfolio.PortfolioSection.HasMoreProjects | src/components/sections/Portfolio.tsx:187 | more projects exist iff fewer are visible than the list holds |
| Portfolio.PortfolioSection.RemainingProjects | src/components/sections/Portfolio.tsx:379 | the remaining number is the total minus the visible ones, and it is positive iff more exist |
| Portfolio.PortfolioSection.ShowsLoadMoreArea | src/components/sections/Portfolio.tsx:365 | the load-more area (shown when the list is longer than three) appears on every tab |
| Portfolio.PortfolioSection.ShowsEmptyState | src/components/sections/Portfolio.tsx:391 | the empty state is never shown |
| Portfolio.PortfolioSection.LoadMoreProjects | src/components/sections/Portfolio.tsx:191-196 | the active tab's count becomes `min(old + 3, total)`; other tabs keep theirs; the count does not drop |
| Portfolio.PortfolioSection.HandleTabChange | src/components/sections/Portfolio.tsx:198-206 | the tab is set and the dropdown is closed; the visible counts are unchanged |
| Portfolio.PortfolioSection.ToggleDropdown | src/components/sections/Portfolio.tsx:279 | the dropdown flag flips |
| UseTheme.Resolve | src/hooks/useTheme.ts:17-22 | `system` resolves to dark iff the dark scheme is preferred, and to light otherwise; any other theme is added as it is; the three themes resolve to light or dark |
| UseTheme.Applied | src/hooks/useTheme.ts:13-23 | after applying, the resolved class is present and every class other than light and dark survives |
| UseTheme.AppliedExactlyOne | src/hooks/useTheme.ts:13-23 | for the three themes, exactly one of light and dark remains, the resolved one, and no other class changes |
| UseTheme.AppliedUnknownTheme | src/hooks/useTheme.ts:13-23 | an unlisted theme string leaves neither light nor dark and adds itself |
| UseTheme.AppliedIdempotent | src/hooks/useTheme.ts:13-23 | applying the same theme twice is applying it once |
| UseTheme.AppliedLastWins | src/hooks/useTheme.ts:13-23 | after one of the three themes and then any theme are applied, the classes are those of applying the second alone |
| UseTheme.AppliedWhenReflected | src/hooks/useTheme.ts:13-23 | applying the theme the root already shows leaves the classes unchanged |
| UseTheme.AppliedExplicitIgnoresPreference | src/hooks/useTheme.ts:20-22 | an explicit theme applies the same whatever the media query says |
| UseTheme.InitialTheme | src/hooks/useTheme.ts:28-29 | the stored value, or `system` when it is absent or empty; never empty |
| UseTheme.ReflectsApplied | src/hooks/useTheme.ts:13-23 | after applying a theme, the root shows it |
| UseTheme.ThemeHook.constructor | src/hooks/useTheme.ts:9-10 | starts unmounted with theme `system`, touching neither the classes nor storage |
| UseTheme.ThemeHook.ApplyTheme | src/hooks/useTheme.ts:13-23 | the class set becomes `Applied` of the old one |
| UseTheme.ThemeHook.Mount | src/hooks/useTheme.ts:26-40 | once mounted, the theme is the initial one from storage; it is applied and persisted under `theme`; the root shows it |
| UseTheme.ThemeHook.SetTheme | src/hooks/useTheme.ts:35-64 | a no-op until mounted; afterwards the new theme is set, applied (when it changed) and persisted; the root keeps showing the theme |
| UseTheme.ThemeHook.SystemPreferenceChanged | src/hooks/useTheme.ts:43-56 | reapplies `system` with the new preference only while mounted with theme `system`; otherwise the classes are unchanged |
| ThemeToggle.IndexOf | src/components/ui/ThemeToggle.tsx:22 | -1 exactly when the value is absent; otherwise the first position holding it |
| ThemeToggle.ThemesAreTheHookThemes | src/components/ui/ThemeToggle.tsx:21 | the cycle list holds exactly the hook's three themes |
| ThemeToggle.NextTheme | src/components/ui/ThemeToggle.tsx:20-25 | the next theme is always one of the three |
| ThemeToggle.CycleOrder | src/components/ui/ThemeToggle.tsx:20-25 | light goes to dark, dark to system, and system to light |
| ThemeToggle.UnknownThemeCyclesToLight | src/components/ui/ThemeToggle.tsx:22-24 | a theme not in the list cycles to light |
| ThemeToggle.CycleThriceIsIdentity | src/components/ui/ThemeToggle.tsx:21-23 | three cycles return each listed theme to itself |
| ThemeToggle.GetIcon | src/components/ui/ThemeToggle.tsx:27-36 | the sun iff the theme is light, the moon iff it is dark, the monitor for every other value |
| ThemeToggle.GetLabel | src/components/ui/ThemeToggle.tsx:38-47 | for every theme value, the label is the fixed prefix followed by the name of the mode a click moves to |
| ThemeToggle.LabelSpelling | src/components/ui/ThemeToggle.tsx:38-47 | the labels of light, dark and any other value are the three Polish strings of the component |
| ThemeToggle.IconsDistinguishThemes | src/components/ui/ThemeToggle.tsx:27-36 | the three listed themes show three different icons |
| ThemeToggle.Render | src/components/ui/ThemeToggle.tsx:12-47 | before mount a disabled placeholder, afterwards a button whose target is a listed theme and whose label names that target |
| ThemeToggle.Click | src/components/ui/ThemeToggle.tsx:12-25 | before mount nothing changes; after mount the hook's theme becomes the next one, is applied to the root's classes and is persisted |
| ThemeToggle.ClickThrice | src/components/ui/ThemeToggle.tsx:20-25 | three clicks after mount restore a listed theme, persist it and leave the root's classes as they were |
| Gtag.PreferenceChanged | src/components/cookies/CookieConsentBanner.tsx:101-108 | `necessary` never changes; a change to it is ignored; a change to analytics sets exactly that flag |
| ConsentBanner.TogglesKeepNecessary | src/components/cookies/CookieConsentBanner.tsx:101-108 | no sequence of toggles switches `necessary` off |
| ConsentBanner.LastToggleWins | src/components/cookies/CookieConsentBanner.tsx:101-108 | after a run of toggles ending with analytics := v, analytics is v |
| ConsentBanner.UntoggledAnalyticsUnchanged | src/components/cookies/CookieConsentBanner.tsx:101-108 | a run of toggles that never touches analytics leaves the preferences unchanged |
| ConsentBanner.Banner.constructor | src/components/cookies/CookieConsentBanner.tsx:55-60 | starts hidden with details closed and preferences {true, false} |
| ConsentBanner.Banner.Mount | src/components/cookies/CookieConsentBanner.tsx:63-72 | visible iff the store asks for the banner; the stored preferences are loaded only when it is hidden |
| ConsentBanner.Banner.HandleAcceptAll | src/components/cookies/CookieConsentBanner.tsx:75-82 | grants {true, true} and hides; when storage works, analytics consent is on |
| ConsentBanner.Banner.HandleAcceptSelected | src/components/cookies/CookieConsentBanner.tsx:85-88 | grants the local preferences and hides; when storage works, analytics consent equals the local flag |
| ConsentBanner.Banner.HandleRejectOptional | src/components/cookies/CookieConsentBanner.tsx:91-98 | grants {true, false}, scrubs the cookies and hides; when storage works, analytics consent is off |
| ConsentBanner.Banner.HandlePreferenceChange | src/components/cookies/CookieConsentBanner.tsx:101-108 | local preferences change as `PreferenceChanged` says; `necessary` stays on |
| ConsentBanner.Banner.ToggleDetails | src/components/cookies/CookieConsentBanner.tsx:178 | the details flag flips |
| ConsentBanner.Banner.Render | src/components/cookies/CookieConsentBanner.tsx:110 | nothing is rendered iff the banner is hidden |
| SettingsModal.Modal.constructor | src/components/cookies/CookieSettingsModal.tsx:79-83 | the local preferences are the stored ones, so `necessary` is on; no confirmation and nothing pending |
| SettingsModal.Modal.SetOpen | src/components/cookies/CookieSettingsModal.tsx:74 | opening or closing does not reload the preferences |
| SettingsModal.Modal.HandlePreferenceChange | src/components/cookies/CookieSettingsModal.tsx:86-93 | local preferences change as `PreferenceChanged` says; `necessary` stays on |
| SettingsModal.Modal.HandleSaveSettings | src/components/cookies/CookieSettingsModal.tsx:96-105 | grants the local preferences, shows the confirmation and schedules one close |
| SettingsModal.Modal.HandleRevokeAll | src/components/cookies/CookieSettingsModal.tsx:108-117 | revokes in the store, resets local preferences to {true, false}, shows the confirmation and schedules one close |
| SettingsModal.Modal.HandleAcceptAll | src/components/cookies/CookieSettingsModal.tsx:120-133 | sets the local preferences to {true, true}, grants them without touching the cookies, shows the confirmation and schedules one close |
| SettingsModal.Modal.ConfirmationElapsed | src/components/cookies/CookieSettingsModal.tsx:101-104 | one scheduled callback clears the confirmation and asks the parent to close once |
| SettingsModal.Modal.HandleClose | src/components/cookies/CookieSettingsModal.tsx:145-172 | the backdrop and the close button ask the parent to close at once |
| SettingsModal.Modal.Render | src/components/cookies/CookieSettingsModal.tsx:135 | nothing is rendered iff `isOpen` is false |

## Left out

- JSON text: parsing and serialisation themselves are not modelled.
  - A stored item is taken as the outcome of `JSON.parse`.
  - Extra fields that the spread copies from the stored object are dropped, since nothing reads them.
  - JSON numbers are integers; the only numbers the store writes are timestamps.
- Logging: the `console.log` and `console.error` calls are not modelled.
- `NEXT_PUBLIC_GA_ID`: the environment override of the tracking id is a constructor parameter of `Gtag.Browser`. `Gtag.DefaultTrackingId` is the built-in fallback.
- Cookie writes: a cookie's `path=/` attribute and the textual `document.cookie` assignment are not modelled. Each expiring write is the removal of one (name, scope) key.
- Clock values come in as parameters, and nothing is claimed about them.
- Timers: the 2-second confirmation delay is not modelled. The scheduled callbacks are a count, fired by `SettingsModal.Modal.ConfirmationElapsed`.
- CookieProvider: its 100 ms polling loop, which waits for the SDK to load, is timer-driven and is not part of this model.
- Rendering: JSX markup, styling, animations, portals, the category lists and the click-outside listener of the portfolio dropdown are not modelled.
- UseTheme.ThemeHook.ApplyTheme: the class list is a set. The order of its tokens is not modelled. Nor is the exception a token list raises for a stored theme containing whitespace.
- UseTheme.ThemeHook: the listener's registration and removal are not modelled. The listener is always the one for the current theme, which is what the effect's re-registration achieves.
- UseTheme.ThemeHook.Mount, UseTheme.ThemeHook.SetTheme: theme storage always works. The hook reads and writes `localStorage` without a `try` (src/hooks/useTheme.ts:28 and :39), so a storage that throws makes the effect throw; that failure is not modelled.
- Gtag.Browser.Event: the event `value` is an integer. The code types it as a JavaScript number, which may be fractional; floating point is not modelled.
- Portfolio.TabCount: a tab's badge count is computed from the project list by a function, where the code stores it in the tab record. The value is the same.
- Portfolio.PortfolioSection.HandleTabChange: the tab argument is a `Tab`. The code accepts any string, but it is only ever called with the ids of the three tabs.
- The theme script inlined in the page layout is not part of this model, and neither are the static pages.
