# MAX CUP landing page: a Dafny model of its browser-side logic

The MAX CUP site is a React single-page marketing site for a cup manufacturer. Most of it is
markup and styling. This project models the few pieces that make decisions, with the browser's
inputs turned into parameters:

- **Language resolution** (`main.jsx`). `getDefaultLang` picks a language in this order: the
  stored preference (upper-cased, if allowed), then the browser's two-letter prefix (if
  allowed), then `"EN"`. The root route and the catch-all route both redirect to
  `/` + the chosen code in lower case. Module `Lang`, file `lang.dfy`.
- **Navigation state** (`App.jsx`). This is the page `main.jsx` renders for every `/:lang/*` path. It takes its start-up
  language from the browser over `{HU, EN, SK}` and keeps three state cells: `lang`, `open`
  (the language dropdown) and `isMenuOpen` (the mobile menu). Each click handler is one
  transition. `Step` is the pure transition function. Class `NavBar` holds the cells, with one
  method per handler, and each method is tied to `Step`. Module `Nav`, file `nav.dfy`.
- **Contact form** (`CupForm.jsx`). `onSubmit` builds the recipient, the subject, the body
  template and the `mailto:` link. The form's controls declare constraints: required flags,
  `maxLength` caps, a phone `pattern` and the options of the select. Each message-building
  step has a parser that reads it back, and round-trip lemmas connect the two. Module
  `Contact`, file `contact.dfy`.
- **Meta tags** (`components/setMetaTag.jsx`). The `useMetaTags` effect sets `document.title`.
  Then, for each of eight keys (description, five Open Graph properties, two Twitter names),
  it updates the first `<meta>` with that key, or appends one if there is none. The document's
  `<meta>` elements are a sequence of `(attribute, key, content)` records. `Document` is a
  class whose methods scan and update that sequence in place, with loops for the two
  `forEach` calls. Module `MetaTags`, file `metatags.dfy`.
- Module `Text` (`text.dfy`) holds the shared helpers: JavaScript's `toUpperCase`,
  `toLowerCase` and `slice(0, n)`, and an `Option` type.

What the code does not do, and the model therefore does not do either:

- `main.jsx` never reads the URL segment to pick the language, and never writes the chosen
  language back to storage. It only reads the stored value and the browser language.
- This `CupForm.jsx` sends no HTTP request and has no sending, success or error states. It
  only builds a `mailto:` link.

Two observations the lemmas record:

- `App.jsx` offers and can start on `"SK"`, but its translation table has only `HU` and `EN`.
  So with `lang` equal to `"SK"`, `translations[lang]` is undefined, and the first label
  lookup in the render (`App.jsx:31`) throws a `TypeError`. With no error boundary React then
  unmounts the page, so no handler runs after that (`Nav.SlovakHasNoTranslation`). `Nav.Run`
  does not model this stop and keeps applying events; its lemmas hold for every sequence, so
  they also hold for the shorter sequences a user can actually raise. This is left as the
  source has it, because the intended language set is an open product decision.
- The select's `defaultValue` is `"rent"`, which is not one of its options. So the
  `type === "rent"` test in `onSubmit` never sees `"rent"`. Both of its branches give the same
  address anyway (`Contact.Recipient`, `Contact.SubmittableMeaning`).

The effect is idempotent (`MetaTags.EffectIdempotent`). So React's development-mode double
run of effects leaves the same head as a single run.

## Model

| member | source | states |
|---|---|---|
| `Lang.BrowserCode` | my-app/src/main.jsx:10 | the browser code is the first two characters of `navigator.language` (fewer when it is shorter), each upper-cased |
| `Lang.StoredCode` | my-app/src/main.jsx:9 | an absent stored value stays absent; a present one is the stored value upper-cased character by character, so it keeps its length and has no lower-case ASCII letter left |
| `Lang.StoredUsable` | my-app/src/main.jsx:9-11 | the stored value is used exactly when it is present and its upper case is allowed; the truthiness test adds nothing, because no allowed code is empty |
| `Lang.DefaultLang` | my-app/src/main.jsx:6-14 | the resolved language is always one of `HU`, `EN` |
| `Lang.StoredPreferenceWins` | my-app/src/main.jsx:9-11 | a stored value whose upper case is allowed is returned, upper-cased, whatever the browser language |
| `Lang.StoredCaseInsensitive` | my-app/src/main.jsx:9 | the stored value is matched without regard to case; stored `"hu"` yields `"HU"` |
| `Lang.BrowserFallback` | my-app/src/main.jsx:10-12 | with no usable stored value, an allowed upper-cased two-letter browser prefix is returned |
| `Lang.FixedFallback` | my-app/src/main.jsx:13 | with neither value allowed, the result is `"EN"` |
| `Lang.RedirectTarget` | my-app/src/main.jsx:20 | the redirect path is `/hu` or `/en` |
| `Lang.RouteElement` | my-app/src/main.jsx:19-23 | exactly the root and catch-all routes redirect, always to `/hu` or `/en`; `/:lang/*` renders the page |
| `Lang.RedirectsAgree` | my-app/src/main.jsx:20-22 | the root and catch-all routes redirect to the same path; the lower-case segment there upper-cases back to the resolved language |
| `Nav.InitialLang` | my-app/src/App.jsx:13-14 | the start-up language is the upper-cased browser prefix when it is in `{HU, EN, SK}`, else `"EN"`; so it is always an option |
| `Nav.Initial` | my-app/src/App.jsx:11-17 | at start-up both `open` and `isMenuOpen` are false and `lang` is an option |
| `Nav.Step` | my-app/src/App.jsx:62-182 | one handler's effect: only a dropdown pick changes `lang`, to the picked option; after any handler but the desktop button at most one panel is open; the desktop button flips `open` alone |
| `Nav.Run` | my-app/src/App.jsx:62-182 | the handlers applied in order; it has no contract of its own, and the `Nav.Run…` and `Nav.Mobile…` lemmas below state what it keeps |
| `Nav.NavBar.constructor` | my-app/src/App.jsx:11-17 | the state cells start as `InitialLang`, closed dropdown, closed menu |
| `Nav.NavBar.OnDesktopLangButton` | my-app/src/App.jsx:62 | flips `open` only; `isMenuOpen` and `lang` unchanged |
| `Nav.NavBar.OnPickLang` | my-app/src/App.jsx:85-88 | a pick from either dropdown (the mobile one at lines 127-130 has the same handler) sets `lang` to the option, closes the dropdown, leaves `isMenuOpen` |
| `Nav.NavBar.OnMobileLangButton` | my-app/src/App.jsx:111-114 | closes the mobile menu and flips `open`; `lang` unchanged |
| `Nav.NavBar.OnHamburger` | my-app/src/App.jsx:141-144 | flips `isMenuOpen` and closes the dropdown; `lang` unchanged |
| `Nav.NavBar.OnOverlay` | my-app/src/App.jsx:169 | closes the mobile menu; `open` and `lang` unchanged |
| `Nav.NavBar.OnMenuItem` | my-app/src/App.jsx:182 | closes the mobile menu; `open` and `lang` unchanged |
| `Nav.MobileStepKeepsClosed` | my-app/src/App.jsx:111-144 | no mobile handler takes a state without both panels open to one with both open |
| `Nav.MobileRunNeverBothOpen` | my-app/src/App.jsx:111-182 | any sequence of mobile events from such a state never ends with `open && isMenuOpen` |
| `Nav.MobileSessionNeverBothOpen` | my-app/src/App.jsx:11-182 | from start-up, no prefix of a mobile-only session has both panels open |
| `Nav.DesktopButtonCanOpenBoth` | my-app/src/App.jsx:62 | the desktop button does not close the menu: hamburger then desktop button opens both |
| `Nav.RunKeepsLangOffered` | my-app/src/App.jsx:80-88 | picks from the dropdowns keep `lang` in `{HU, EN, SK}` |
| `Nav.RunWithoutPickKeepsLang` | my-app/src/App.jsx:62-182 | handlers other than a dropdown pick never change `lang` |
| `Nav.RunLangIsLastPick` | my-app/src/App.jsx:85-88 | after any sequence, `lang` is the option of the last dropdown pick |
| `Nav.SlovakHasNoTranslation` | my-app/src/App.jsx:8-15 | `"SK"` is reachable at start-up and by a pick but has no translation table |
| `Contact.Recipient` | my-app/src/CupForm.jsx:10-13 | the recipient is the same address for every type |
| `Contact.Subject` | my-app/src/CupForm.jsx:15 | `"Inquiry from "` followed by the name; no contract of its own, `Contact.SubjectRoundTrip` states what it keeps |
| `Contact.SubjectRoundTrip` | my-app/src/CupForm.jsx:15 | the subject is `"Inquiry from "` followed by the name, and the name can be read back from it |
| `Contact.Body` | my-app/src/CupForm.jsx:16-24 | the body template literal; no contract of its own, `Contact.BodyRoundTrip` states what it keeps |
| `Contact.BodyRoundTrip` | my-app/src/CupForm.jsx:16-24 | the body lists Name, Company, Email, Phone, Type and Message with the values verbatim, in that order; a parser recovers every field |
| `Contact.MailtoHref` | my-app/src/CupForm.jsx:26-28 | the `mailto:` href; no contract of its own, `Contact.MailtoRoundTrip` states its parts |
| `Contact.MailtoRoundTrip` | my-app/src/CupForm.jsx:26-28 | the href is `mailto:` + recipient + `?subject=` + enc(subject) + `&body=` + enc(body); the three parts split back out |
| `Contact.OnSubmit` | my-app/src/CupForm.jsx:6-28 | the whole handler from the form's values to the href; no contract of its own, `Contact.SubmissionRecoverable` states what it keeps |
| `Contact.SubmissionRecoverable` | my-app/src/CupForm.jsx:6-28 | with an inverse of `enc`, a submission's link yields the fixed recipient, the name and the whole form |
| `Contact.RepeatToEnd` | my-app/src/CupForm.jsx:79 | the backtracking match of `[class]{lo,hi}$`; no contract of its own, `Contact.RepeatToEndMeaning` states what it accepts |
| `Contact.RepeatToEndMeaning` | my-app/src/CupForm.jsx:79 | `[class]{lo,hi}$` matches exactly the strings of lo to hi class characters |
| `Contact.MatchPhone` | my-app/src/CupForm.jsx:79 | the match of `^\+?[class]{7,20}$`, `+` first; no contract of its own, `Contact.PhoneMatchMeaning` states what it accepts |
| `Contact.PhoneMatchMeaning` | my-app/src/CupForm.jsx:79 | the pattern accepts a phone value iff it has an optional `+`, then 7 to 20 characters, each a digit, JavaScript white space, `-`, `(` or `)` |
| `Contact.Required` | my-app/src/CupForm.jsx:36-134 | the `required` attributes: name, email, phone and message, not company and not the select; `Contact.SubmittableMeaning` states the consequence |
| `Contact.MaxLength` | my-app/src/CupForm.jsx:36-107 | the `maxLength` caps: 100 for name, company and email, 20 for phone, none for the textarea and the select |
| `Contact.FieldOk` | my-app/src/CupForm.jsx:36-134 | one control passes: present when required, within its cap, the phone within the escaped pattern, the email within `emailOk`, the type among the options `sales`, `factory`, `other` (lines 131-133) |
| `Contact.Submittable` | my-app/src/CupForm.jsx:36-134 | every control passes; `Contact.SubmittableMeaning` states what that guarantees |
| `Contact.SubmittableMeaning` | my-app/src/CupForm.jsx:36-134 | a submittable form has name, email, phone and message non-empty; caps of 100, 100, 100 and 20; a phone of the shape the escaped pattern describes; a type among `sales`, `factory`, `other` |
| `Contact.CompanyOptional` | my-app/src/CupForm.jsx:37-38 | an empty company does not block submission |
| `Contact.PhoneFieldBounds` | my-app/src/CupForm.jsx:68-79 | with the 20-character cap, a phone with `+` has 7 to 19 class characters after it, one without has 7 to 20 |
| `Contact.AsWrittenPatternIgnored` | my-app/src/CupForm.jsx:79 | as written, the class does not compile under the `v` flag, so the pattern lets `"call me"` through |
| `Contact.AsWrittenClassRejected` | my-app/src/CupForm.jsx:79 | the unescaped `(` in `[0-9\s\-()]` is a syntax error in a `v`-flag class |
| `Contact.NotAPhone` | my-app/src/CupForm.jsx:79 | `"call me"` does not have the intended phone shape |
| `Contact.EscapedPatternEnforced` | my-app/src/CupForm.jsx:79 | with `(` and `)` escaped, the class compiles and the pattern accepts exactly the intended shape |
| `MetaTags.FirstMatch` | my-app/src/components/setMetaTag.jsx:29 | the query result is the first record with the key, and `None` only if no record has it |
| `MetaTags.ContentOf` | my-app/src/components/setMetaTag.jsx:9-11 | a content is found exactly when some record has the key, and it is that of the first such record |
| `MetaTags.Document.QuerySelector` | my-app/src/components/setMetaTag.jsx:9 | a scan in document order returns the first record with the key, or none |
| `MetaTags.Upsert` | my-app/src/components/setMetaTag.jsx:28-37 | when a record has the key, the first one keeps its attribute and key and gets the new content, and the length is unchanged; otherwise the tag itself is appended; every other position is unchanged; afterwards the key's first record has the new content |
| `MetaTags.UpsertAll` | my-app/src/components/setMetaTag.jsx:28-56 | the tags' upserts in list order; no contract of its own, the `MetaTags.UpsertAll…` lemmas state what it keeps |
| `MetaTags.Document.SetMeta` | my-app/src/components/setMetaTag.jsx:29-37 | one iteration updates the first match in place or appends, leaving the title |
| `MetaTags.Document.SetAll` | my-app/src/components/setMetaTag.jsx:46-56 | a `forEach` over tags performs their upserts in order |
| `MetaTags.Document.ApplyMetaTags` | my-app/src/components/setMetaTag.jsx:3-57 | sets the title to the page title and the records to the effect's result; for a language without translations it throws before changing anything |
| `MetaTags.UpsertKeepsOtherKey` | my-app/src/components/setMetaTag.jsx:28-56 | an upsert of one key leaves the first match and content of every other key |
| `MetaTags.UpsertAllSets` | my-app/src/components/setMetaTag.jsx:28-56 | with distinct keys, every tag's key ends with that tag's content |
| `MetaTags.UpsertNoop` | my-app/src/components/setMetaTag.jsx:29-31 | upserting content a key already has changes nothing |
| `MetaTags.UpsertAllIdempotent` | my-app/src/components/setMetaTag.jsx:28-56 | upserting a list of distinct keys twice equals once |
| `MetaTags.UpsertCount` | my-app/src/components/setMetaTag.jsx:29-37 | the count of records with the key becomes 1 if it was 0 and is unchanged otherwise; other keys' counts are unchanged |
| `MetaTags.UpsertAllCount` | my-app/src/components/setMetaTag.jsx:28-56 | after upserting a list, each listed key occurs once if it was absent, else as often as before |
| `MetaTags.UpsertAllOthers` | my-app/src/components/setMetaTag.jsx:28-56 | records whose key is not listed keep their content and order |
| `MetaTags.EffectTags` | my-app/src/components/setMetaTag.jsx:9-44 | the eight tags in the order the effect writes them; `MetaTags.EffectTagsDistinct` states that their keys differ |
| `MetaTags.EffectMetas` | my-app/src/components/setMetaTag.jsx:9-56 | the records after the effect; the `MetaTags.Effect…` lemmas state its contents, counts, frame and idempotence |
| `MetaTags.EffectTagsDistinct` | my-app/src/components/setMetaTag.jsx:20-44 | the eight keys the effect writes are distinct |
| `MetaTags.EffectContents` | my-app/src/components/setMetaTag.jsx:9-56 | after the effect, description, the five `og:` properties (with `og:url` = `https://maxcup.hu/` + lower-case lang) and the two `twitter:` names hold the listed contents |
| `MetaTags.EffectCount` | my-app/src/components/setMetaTag.jsx:9-56 | the effect never adds a second record for a key it writes |
| `MetaTags.EffectKeepsOthers` | my-app/src/components/setMetaTag.jsx:9-56 | records with keys the effect does not write are unchanged and in the same order |
| `MetaTags.EffectIdempotent` | my-app/src/components/setMetaTag.jsx:3-57 | running the effect twice with the same inputs gives the records of running it once |

## Left out

- `my-app/src/useSmoothScroll.jsx` is not modelled. It is browser I/O (`getElementById`, `scrollIntoView`, `history.pushState`) around a single "missing target, do nothing" branch.
- `my-app/src/ResponsiveCardCarousel .jsx` is not part of this model.
- JSX markup, Tailwind classes, SVG icons and animations are presentation. So is the `#` + lower-case label href of the mobile menu links (App.jsx:180).
- React rendering, `StrictMode`, the scheduling of `useState` and `useEffect`, and react-router's path matching are not modelled. `Lang.RouteElement` gives only the element of each route.
- `localStorage.getItem("lang")` and `navigator.language` are parameters (`saved`, `browserLanguage`). The assignment to `window.location.href` is dropped: `Contact.OnSubmit` returns the href instead.
- `encodeURIComponent` is a parameter `enc`. `Contact.MailtoRoundTrip` assumes only that its output never contains `&`. `Contact.SubmissionRecoverable` also assumes a decoder `dec` with `dec(enc(s)) == s` for every `s`, which makes `enc` injective.
- The browser's email syntax check for `type="email"` is a parameter `emailOk`.
- `Text.Upper`, `Text.Lower`: only ASCII letters change case. JavaScript also maps other characters, for example `ſ` to `S` and `ß` to `SS`.
- `Contact.SubmittableMeaning`: lengths are counted in Unicode scalar values, while `maxLength` counts UTF-16 code units. The `tooLong` check applies only to values the user edited, and this is not modelled.
- `Contact.SubmittableMeaning`: `Contact.FieldOk` applies the phone pattern in its escaped spelling `[0-9\s\-\(\)]`, the one that compiles. Browsers that compile `pattern` with the `v` flag ignore the spelling in the attribute (see Findings), so there the real form also submits a phone value without the stated shape, such as `call me`.
- `Contact.ClassBodyParsesV` covers only escapes, ranges and single characters, which is all the phone pattern uses. Nested classes, set operations and reserved double punctuators are not modelled.
- The translation files are not part of this model. `translations` is an abstract `map` from language to page title and description. The menu labels `App.jsx` reads are not modelled.
- `MetaTags`: a record has one identifying attribute, either `name` or `property`, never both. The model treats all `<meta>` elements of the document as the head's sequence, although `querySelector` searches the whole document and `appendChild` adds to the head.

## Findings

| source | as written | input that shows it | evidently intended | confidence | as-written member | corrected member |
|---|---|---|---|---|---|---|
| my-app/src/CupForm.jsx:79 | the phone pattern's class `[0-9\s\-()]` leaves `(` and `)` unescaped. Browsers compile `pattern` with the `v` flag, where that is a syntax error, and an invalid pattern is ignored. | the phone value `call me` passes the pattern check | accept only an optional `+` followed by 7 to 20 digits, white space, `-`, `(` or `)`. Escaping the parentheses (`[0-9\s\-\(\)]`) does this. | medium: not executed; holds for browsers that compile `pattern` with the `v` flag | `Contact.AsWrittenPatternIgnored` | `Contact.EscapedPatternEnforced` |
