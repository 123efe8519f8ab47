/**
 * The theme controller as the script runs it: the page's attribute, icon,
 * storage and body classes are fields that each operation updates in place,
 * and each operation is specified by the function of ThemeModel it performs.
 */
module Controller {
  import opened ThemeModel

  class ThemeController {
    var dataTheme: Option<string>
    var iconText: string
    var storage: map<string, string>
    var bodyClasses: set<string>
    var pendingRemovals: nat

    /** The page as a value. */
    function State(): Page
      reads this
    {
      Page(dataTheme, iconText, storage, bodyClasses, pendingRemovals)
    }

    /**
     * Page load: the document arrives as `doc` (with whatever storage the
     * browser kept); the initial theme is resolved and applied.
     */
    constructor (doc: Page, prefersDark: bool)
      ensures State() == PageLoad(doc, prefersDark)
      ensures Consistent(State()) && Truthy(Saved(storage))
    {
      dataTheme := doc.dataTheme;
      iconText := doc.iconText;
      storage := doc.storage;
      bodyClasses := doc.bodyClasses;
      pendingRemovals := doc.pendingRemovals;
      new;
      var initialTheme := InitialTheme(Saved(storage), prefersDark);
      ApplyTheme(initialTheme);
    }

    /** applyTheme, one mutation after the other. */
    method ApplyTheme(theme: string)
      modifies this
      ensures State() == Apply(old(State()), theme)
      ensures Saved(storage) == Some(theme)
      ensures dataTheme == (if theme == Dark then Some(Dark) else None)
      ensures ThemeChangingClass in bodyClasses && pendingRemovals == old(pendingRemovals) + 1
    {
      bodyClasses := bodyClasses + {ThemeChangingClass};
      if theme == Dark {
        dataTheme := Some(Dark);
        iconText := DarkIcon;
      } else {
        dataTheme := None;
        iconText := LightIcon;
      }
      storage := storage[StorageKey := theme];
      pendingRemovals := pendingRemovals + 1;
    }

    /** toggleTheme: reads the attribute, then applies the other theme. */
    method ToggleTheme()
      modifies this
      ensures State() == Toggle(old(State()))
      ensures RenderedTheme(State()) == Opposite(RenderedTheme(old(State())))
      ensures InSync(State())
    {
      var currentTheme := dataTheme;
      var newTheme := if currentTheme == Some(Dark) then Light else Dark;
      ApplyTheme(newTheme);
    }

    /** The listener for changes of the system colour-scheme preference. */
    method OnSystemThemeChange(matches: bool)
      modifies this
      ensures State() == OnSystemChange(old(State()), matches)
      ensures Truthy(Saved(old(storage))) ==> unchanged(this)
    {
      if !Truthy(Saved(storage)) {
        ApplyTheme(if matches then Dark else Light);
      }
    }

    /** The timer callback that removes the transition class. */
    method RemoveThemeChanging()
      requires pendingRemovals > 0
      modifies this
      ensures State() == RemoveTransition(old(State()))
      ensures dataTheme == old(dataTheme) && iconText == old(iconText) && storage == old(storage)
    {
      bodyClasses := bodyClasses - {ThemeChangingClass};
      pendingRemovals := pendingRemovals - 1;
    }
  }
}
