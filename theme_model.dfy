/**
 * The theme controller of the page script, as values: the part of the page
 * it reads and writes (a `Page`), the theme constants, and one function per
 * operation. The class in theme_controller.dfy performs the same operations
 * step by step and is specified by these functions.
 */
module ThemeModel {

  datatype Option<+T> = None | Some(value: T)

  // The two themes and their icons (THEMES and THEME_ICONS).
  const Light: string := "light"
  const Dark: string := "dark"
  const LightIcon: string := "\U{1F312}"
  const DarkIcon: string := "\U{1F60E}"

  /** The localStorage key under which the chosen theme is kept. */
  const StorageKey: string := "theme"

  /** The body class that enables the CSS transition while a theme change runs. */
  const ThemeChangingClass: string := "theme-changing"

  /**
   * Everything of the page the theme controller touches:
   *  - dataTheme: the root element's `data-theme` attribute (None when absent);
   *  - iconText: the text content of the theme icon;
   *  - storage: the page's localStorage;
   *  - bodyClasses: the class list of the body;
   *  - pendingRemovals: removals of the transition class that have been
   *    scheduled and have not run yet (the timers are events, not time).
   */
  datatype Page = Page(
    dataTheme: Option<string>,
    iconText: string,
    storage: map<string, string>,
    bodyClasses: set<string>,
    pendingRemovals: nat)

  /** What `localStorage.getItem("theme")` returns. */
  function Saved(storage: map<string, string>): Option<string>
  {
    if StorageKey in storage then Some(storage[StorageKey]) else None
  }

  /** JavaScript truthiness of a `getItem` result: present and not the empty string. */
  predicate Truthy(v: Option<string>)
  {
    v.Some? && v.value != ""
  }

  /** The icon shown for a theme: the dark glyph for "dark", the light glyph otherwise. */
  function IconFor(theme: string): string
  {
    if theme == Dark then DarkIcon else LightIcon
  }

  /** The theme toggleTheme reads off the page: "dark" exactly when the attribute says so. */
  function RenderedTheme(p: Page): (t: string)
    ensures t == Light || t == Dark
  {
    if p.dataTheme == Some(Dark) then Dark else Light
  }

  /** The other of the two themes. */
  function Opposite(t: string): string
  {
    if t == Dark then Light else Dark
  }

  /** The attribute is absent or "dark", and the icon matches it. */
  predicate WellRendered(p: Page)
  {
    (p.dataTheme == None || p.dataTheme == Some(Dark)) &&
    p.iconText == IconFor(RenderedTheme(p))
  }

  /** The stored preference names exactly the theme that is rendered. */
  predicate InSync(p: Page)
  {
    Saved(p.storage) == Some(RenderedTheme(p))
  }

  /**
   * The invariant every page keeps once the controller has run: it is well
   * rendered, and the transition class is only present while a removal of
   * it is still pending.
   */
  predicate Consistent(p: Page)
  {
    WellRendered(p) &&
    (ThemeChangingClass in p.bodyClasses ==> p.pendingRemovals > 0)
  }

  /**
   * getInitialTheme: a truthy stored value wins, whatever it is; otherwise
   * the system preference decides between "dark" and "light".
   */
  function InitialTheme(saved: Option<string>, prefersDark: bool): (t: string)
    ensures Truthy(saved) ==> t == saved.value
    ensures !Truthy(saved) ==> (t == Light || t == Dark) && (t == Dark <==> prefersDark)
    ensures t != ""
  {
    if Truthy(saved) then saved.value
    else if prefersDark then Dark else Light
  }

  /**
   * applyTheme: adds the transition class, renders "dark" by setting the
   * attribute and anything else by removing it, stores the argument
   * verbatim, and schedules one removal of the transition class.
   */
  function Apply(p: Page, theme: string): (q: Page)
    ensures WellRendered(q)
    ensures q.dataTheme == Some(Dark) <==> theme == Dark
    ensures Saved(q.storage) == Some(theme)
    ensures q.storage.Keys == p.storage.Keys + {StorageKey}
    ensures q.storage - {StorageKey} == p.storage - {StorageKey}
    ensures q.bodyClasses == p.bodyClasses + {ThemeChangingClass}
    ensures q.pendingRemovals == p.pendingRemovals + 1
  {
    var attribute := if theme == Dark then Some(Dark) else None;
    Page(attribute, IconFor(theme), p.storage[StorageKey := theme],
         p.bodyClasses + {ThemeChangingClass}, p.pendingRemovals + 1)
  }

  /** toggleTheme: applies the theme opposite to the one the attribute shows. */
  function Toggle(p: Page): (q: Page)
    ensures WellRendered(q) && InSync(q)
    ensures RenderedTheme(q) != RenderedTheme(p)
    ensures q.storage - {StorageKey} == p.storage - {StorageKey}
    ensures q.bodyClasses == p.bodyClasses + {ThemeChangingClass}
    ensures q.pendingRemovals == p.pendingRemovals + 1
  {
    Apply(p, if p.dataTheme == Some(Dark) then Light else Dark)
  }

  /**
   * The handler of a change of the system colour-scheme preference: when
   * nothing truthy is stored it applies the reported theme, otherwise it
   * leaves the page as it is.
   */
  function OnSystemChange(p: Page, prefersDark: bool): (q: Page)
    ensures Truthy(Saved(p.storage)) ==> q == p
    ensures q.storage - {StorageKey} == p.storage - {StorageKey}
    ensures !Truthy(Saved(p.storage)) ==>
              WellRendered(q) && InSync(q) && (RenderedTheme(q) == Dark <==> prefersDark) &&
              q.bodyClasses == p.bodyClasses + {ThemeChangingClass} &&
              q.pendingRemovals == p.pendingRemovals + 1
  {
    if !Truthy(Saved(p.storage)) then Apply(p, if prefersDark then Dark else Light) else p
  }

  /**
   * One scheduled removal runs: the transition class goes, whatever else is
   * pending, and nothing of the theme changes.
   */
  function RemoveTransition(p: Page): (q: Page)
    requires p.pendingRemovals > 0
    ensures ThemeChangingClass !in q.bodyClasses
    ensures q.bodyClasses + {ThemeChangingClass} == p.bodyClasses + {ThemeChangingClass}
    ensures q.pendingRemovals == p.pendingRemovals - 1
    ensures q.dataTheme == p.dataTheme && q.iconText == p.iconText && q.storage == p.storage
  {
    p.(bodyClasses := p.bodyClasses - {ThemeChangingClass},
       pendingRemovals := p.pendingRemovals - 1)
  }

  /**
   * Page-load initialisation: resolve the initial theme from the page's own
   * storage and the system preference, then apply it.
   */
  function PageLoad(doc: Page, prefersDark: bool): (q: Page)
    ensures Consistent(q)
    ensures Truthy(Saved(q.storage))
    ensures Saved(q.storage) == Some(InitialTheme(Saved(doc.storage), prefersDark))
    ensures ThemeChangingClass in q.bodyClasses
  {
    Apply(doc, InitialTheme(Saved(doc.storage), prefersDark))
  }

  /** An edit of the stored preference made outside this script (another tab, the user). */
  function EditStorage(p: Page, v: Option<string>): (q: Page)
    ensures Saved(q.storage) == v
    ensures q.storage - {StorageKey} == p.storage - {StorageKey}
  {
    var storage := if v.Some? then p.storage[StorageKey := v.value] else p.storage - {StorageKey};
    p.(storage := storage)
  }

  /**
   * The events the page reacts to after it has loaded. `RemovalTimerFired`
   * is the 500 ms timer that applyTheme schedules; the model lets it fire at
   * any point after it was scheduled.
   */
  datatype Event =
    | ToggleClicked
    | SystemPreferenceChanged(matches: bool)
    | RemovalTimerFired
    | StorageEdited(value: Option<string>)

  /** One event; a timer event with no removal pending has nothing to run. */
  function Step(p: Page, e: Event): Page
  {
    match e
    case ToggleClicked => Toggle(p)
    case SystemPreferenceChanged(m) => OnSystemChange(p, m)
    case RemovalTimerFired => if p.pendingRemovals > 0 then RemoveTransition(p) else p
    case StorageEdited(v) => EditStorage(p, v)
  }

  /** The events of a trace, handled one after the other on the page's single thread. */
  function Run(p: Page, events: seq<Event>): Page
    decreases |events|
  {
    if events == [] then p else Run(Step(p, events[0]), events[1..])
  }

  /** No event of the trace touches the stored preference from outside. */
  predicate NoStorageEdits(events: seq<Event>)
  {
    forall i :: 0 <= i < |events| ==> !events[i].StorageEdited?
  }

  /** The number of toggle clicks in a trace. */
  function Clicks(events: seq<Event>): nat
    decreases |events|
  {
    if events == [] then 0
    else (if events[0] == ToggleClicked then 1 else 0) + Clicks(events[1..])
  }
}
