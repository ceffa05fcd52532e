// The navigation bar of the older page variant (my-app/src/App.jsx): the
// language chosen at start-up from the browser, and the three React state
// cells `lang`, `open` (language dropdown) and `isMenuOpen` (mobile menu)
// that the click handlers update.
module Nav {
  import opened Text

  /** The options of both language dropdowns, and the start-up set. */
  const LangOptions: seq<string> := ["HU", "EN", "SK"]

  /** The languages App.jsx has a translation table for. */
  const TranslatedLangs: set<string> := {"HU", "EN"}

  /** The start-up language: the browser's upper-cased two-letter prefix if it is an option, else "EN". */
  function InitialLang(browserLanguage: string): (r: string)
    ensures r in LangOptions
    ensures Upper(Prefix(browserLanguage, 2)) in LangOptions ==> r == Upper(Prefix(browserLanguage, 2))
    ensures Upper(Prefix(browserLanguage, 2)) !in LangOptions ==> r == "EN"
  {
    var browserLang := Upper(Prefix(browserLanguage, 2));
    if browserLang in LangOptions then browserLang else "EN"
  }

  /** The three state cells of the component. */
  datatype NavState = NavState(lang: string, open: bool, isMenuOpen: bool)

  /** One value per onClick handler. */
  datatype Event =
    | DesktopLangButton          // the desktop language button
    | PickLang(option: string)   // an entry of either dropdown
    | MobileLangButton           // the mobile language button
    | Hamburger                  // the mobile menu toggle
    | Overlay                    // the backdrop of the mobile menu
    | MenuItem                   // a link inside the mobile menu

  /** The state after the first render: both flags false. */
  function Initial(browserLanguage: string): (s: NavState)
    ensures !s.open && !s.isMenuOpen && s.lang in LangOptions
  {
    NavState(InitialLang(browserLanguage), false, false)
  }

  /** The effect of one handler on the state. */
  function Step(s: NavState, e: Event): (r: NavState)
    ensures r.lang == (if e.PickLang? then e.option else s.lang)
    ensures !e.DesktopLangButton? ==> !BothOpen(r)
    ensures e.DesktopLangButton? ==> r.open == !s.open && r.isMenuOpen == s.isMenuOpen
  {
    match e
    case DesktopLangButton => s.(open := !s.open)
    case PickLang(option) => s.(lang := option, open := false)
    case MobileLangButton => s.(isMenuOpen := false, open := !s.open)
    case Hamburger => s.(isMenuOpen := !s.isMenuOpen, open := false)
    case Overlay => s.(isMenuOpen := false)
    case MenuItem => s.(isMenuOpen := false)
  }

  /** The events a user can raise: a dropdown only offers the listed options. */
  predicate Offered(e: Event) {
    e.PickLang? ==> e.option in LangOptions
  }

  /** The events of the mobile navigation bar and the mobile menu. */
  predicate Mobile(e: Event) {
    !e.DesktopLangButton?
  }

  /** The state after a sequence of events, applied in order. */
  function Run(s: NavState, events: seq<Event>): NavState
    decreases |events|
  {
    if events == [] then s else Run(Step(s, events[0]), events[1..])
  }

  predicate BothOpen(s: NavState) { s.open && s.isMenuOpen }

  /** Each mobile handler closes the other panel or closes its own, so the two never show together. */
  lemma MobileStepKeepsClosed(s: NavState, e: Event)
    requires Mobile(e) && !BothOpen(s)
    ensures !BothOpen(Step(s, e))
  {
  }

  /** From any state without both panels open, mobile events never open both. */
  lemma {:induction false} MobileRunNeverBothOpen(s: NavState, events: seq<Event>)
    requires !BothOpen(s)
    requires forall i :: 0 <= i < |events| ==> Mobile(events[i])
    ensures !BothOpen(Run(s, events))
    decreases |events|
  {
    if events != [] {
      MobileStepKeepsClosed(s, events[0]);
      MobileRunNeverBothOpen(Step(s, events[0]), events[1..]);
    }
  }

  /** Every intermediate state of a mobile session starting from start-up has a closed panel. */
  lemma MobileSessionNeverBothOpen(browserLanguage: string, events: seq<Event>)
    requires forall i :: 0 <= i < |events| ==> Mobile(events[i])
    ensures forall k :: 0 <= k <= |events| ==> !BothOpen(Run(Initial(browserLanguage), events[..k]))
  {
    forall k | 0 <= k <= |events|
      ensures !BothOpen(Run(Initial(browserLanguage), events[..k]))
    {
      MobileRunNeverBothOpen(Initial(browserLanguage), events[..k]);
    }
  }

  /** The desktop button flips `open` alone, so with the mobile menu open it opens both. */
  lemma DesktopButtonCanOpenBoth()
    ensures BothOpen(Run(Initial("en-US"), [Hamburger, DesktopLangButton]))
  {
  }

  /** Offered events keep `lang` among the dropdown options. */
  lemma {:induction false} RunKeepsLangOffered(s: NavState, events: seq<Event>)
    requires s.lang in LangOptions
    requires forall i :: 0 <= i < |events| ==> Offered(events[i])
    ensures Run(s, events).lang in LangOptions
    decreases |events|
  {
    if events != [] {
      RunKeepsLangOffered(Step(s, events[0]), events[1..]);
    }
  }

  /** Without a dropdown pick `lang` stays as it was. */
  lemma {:induction false} RunWithoutPickKeepsLang(s: NavState, events: seq<Event>)
    requires forall i :: 0 <= i < |events| ==> !events[i].PickLang?
    ensures Run(s, events).lang == s.lang
    decreases |events|
  {
    if events != [] {
      assert forall j :: 0 <= j < |events| - 1 ==> events[1..][j] == events[j + 1];
      RunWithoutPickKeepsLang(Step(s, events[0]), events[1..]);
    }
  }

  /** After a sequence of events `lang` is the option of the last dropdown pick. */
  lemma {:induction false} RunLangIsLastPick(s: NavState, events: seq<Event>, i: nat)
    requires i < |events| && events[i].PickLang?
    requires forall j :: i < j < |events| ==> !events[j].PickLang?
    ensures Run(s, events).lang == events[i].option
    decreases i
  {
    assert forall j :: 0 <= j < |events| - 1 ==> events[1..][j] == events[j + 1];
    if i == 0 {
      RunWithoutPickKeepsLang(Step(s, events[0]), events[1..]);
    } else {
      RunLangIsLastPick(Step(s, events[0]), events[1..], i - 1);
    }
  }

  /**
   * App.jsx looks every label up in a table that has no "SK" entry, yet a
   * browser reporting Slovak starts the page on "SK", and picking "SK" from
   * either dropdown also reaches it. The render then throws at the first
   * label lookup and the page stops rendering; Run does not model that stop.
   */
  lemma SlovakHasNoTranslation()
    ensures Initial("sk-SK").lang !in TranslatedLangs
    ensures Step(Initial("en-US"), PickLang("SK")).lang !in TranslatedLangs
  {
    assert Upper(Prefix("sk-SK", 2)) == "SK";
  }

  /** The component's state cells, updated in place by one method per handler. */
  class NavBar {
    var lang: string
    var open: bool
    var isMenuOpen: bool

    function State(): NavState
      reads this
    {
      NavState(lang, open, isMenuOpen)
    }

    /** The first render: useState(false), useState(defaultLang), useState(false). */
    constructor (browserLanguage: string)
      ensures State() == Initial(browserLanguage)
      ensures lang == InitialLang(browserLanguage) && !open && !isMenuOpen
    {
      lang := InitialLang(browserLanguage);
      open := false;
      isMenuOpen := false;
    }

    /** onClick={() => setOpen(!open)} on the desktop language button. */
    method OnDesktopLangButton()
      modifies this
      ensures State() == Step(old(State()), DesktopLangButton)
      ensures open == !old(open) && isMenuOpen == old(isMenuOpen) && lang == old(lang)
    {
      open := !open;
    }

    /** setLang(option); setOpen(false) on an entry of either dropdown. */
    method OnPickLang(option: string)
      modifies this
      ensures State() == Step(old(State()), PickLang(option))
      ensures lang == option && !open && isMenuOpen == old(isMenuOpen)
    {
      lang := option;
      open := false;
    }

    /** setIsMenuOpen(false); setOpen(!open) on the mobile language button. */
    method OnMobileLangButton()
      modifies this
      ensures State() == Step(old(State()), MobileLangButton)
      ensures !isMenuOpen && open == !old(open) && lang == old(lang)
    {
      isMenuOpen := false;
      open := !open;
    }

    /** setIsMenuOpen(!isMenuOpen); setOpen(false) on the hamburger button. */
    method OnHamburger()
      modifies this
      ensures State() == Step(old(State()), Hamburger)
      ensures isMenuOpen == !old(isMenuOpen) && !open && lang == old(lang)
    {
      isMenuOpen := !isMenuOpen;
      open := false;
    }

    /** setIsMenuOpen(false) on the overlay behind the mobile menu. */
    method OnOverlay()
      modifies this
      ensures State() == Step(old(State()), Overlay)
      ensures !isMenuOpen && open == old(open) && lang == old(lang)
    {
      isMenuOpen := false;
    }

    /** setIsMenuOpen(false) on a link of the mobile menu. */
    method OnMenuItem()
      modifies this
      ensures State() == Step(old(State()), MenuItem)
      ensures !isMenuOpen && open == old(open) && lang == old(lang)
    {
      isMenuOpen := false;
    }
  }
}
