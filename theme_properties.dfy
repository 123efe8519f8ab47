/**
 * What the theme controller guarantees across several operations: the
 * precedence of the stored preference at load time, toggling twice, the
 * invariants every event keeps, and the consequence of the initial
 * applyTheme always writing to storage.
 */
module ThemeProperties {
  import opened ThemeModel

  // ----- Page load -----

  /** Without a truthy stored value the system preference decides, and storage then agrees with it. */
  lemma LoadFollowsSystemWhenNothingStored(doc: Page, prefersDark: bool)
    requires !Truthy(Saved(doc.storage))
    ensures var q := PageLoad(doc, prefersDark);
      InSync(q) &&
      (RenderedTheme(q) == Dark <==> prefersDark) &&
      q.iconText == (if prefersDark then DarkIcon else LightIcon)
  {
  }

  /**
   * A truthy stored value decides the theme whatever the system says, and
   * re-writing it leaves storage exactly as it was.
   */
  lemma LoadKeepsStoredPreference(doc: Page, prefersDark: bool)
    requires Truthy(Saved(doc.storage))
    ensures var q := PageLoad(doc, prefersDark);
      q == PageLoad(doc, !prefersDark) &&
      q.storage == doc.storage &&
      (RenderedTheme(q) == Dark <==> Saved(doc.storage) == Some(Dark))
  {
  }

  /**
   * Any truthy stored value is accepted verbatim: one that is neither
   * "light" nor "dark" renders the light theme but stays in storage, so
   * storage and the page disagree until the next toggle.
   */
  lemma UnknownStoredValueRendersLight(doc: Page, prefersDark: bool)
    requires Truthy(Saved(doc.storage))
    requires Saved(doc.storage) != Some(Light) && Saved(doc.storage) != Some(Dark)
    ensures var q := PageLoad(doc, prefersDark);
      RenderedTheme(q) == Light && q.dataTheme == None &&
      Saved(q.storage) == Saved(doc.storage) && !InSync(q)
  {
  }

  // ----- Toggling -----

  /**
   * Toggling twice from a page that applyTheme("light") or
   * applyTheme("dark") produced restores the attribute, the icon and the
   * stored value; only the transition bookkeeping moves on.
   */
  lemma ToggleTwiceRestores(p: Page)
    requires WellRendered(p) && InSync(p)
    ensures var q := Toggle(Toggle(p));
      q.dataTheme == p.dataTheme && q.iconText == p.iconText && q.storage == p.storage &&
      q.bodyClasses == p.bodyClasses + {ThemeChangingClass} &&
      q.pendingRemovals == p.pendingRemovals + 2
  {
  }

  /** A stored value other than "light"/"dark" does not survive two toggles. */
  lemma ToggleTwiceReplacesUnknownValue(p: Page)
    requires Saved(p.storage) != Some(Light) && Saved(p.storage) != Some(Dark)
    ensures Saved(Toggle(Toggle(p)).storage) != Saved(p.storage)
  {
  }

  /** Toggling flips the rendered theme, so two toggles bring it back. */
  lemma ToggleIsInvolutionOnTheme(p: Page)
    ensures RenderedTheme(Toggle(p)) == Opposite(RenderedTheme(p))
    ensures RenderedTheme(Toggle(Toggle(p))) == RenderedTheme(p)
  {
  }

  // ----- Invariants over traces -----

  /** Every event keeps the page consistent. */
  lemma StepPreservesConsistent(p: Page, e: Event)
    requires Consistent(p)
    ensures Consistent(Step(p, e))
  {
  }

  lemma {:induction false} RunPreservesConsistent(p: Page, events: seq<Event>)
    requires Consistent(p)
    ensures Consistent(Run(p, events))
    decreases |events|
  {
    if events != [] {
      StepPreservesConsistent(p, events[0]);
      RunPreservesConsistent(Step(p, events[0]), events[1..]);
    }
  }

  /** Every event but an outside edit of storage keeps a truthy stored preference truthy. */
  lemma StepKeepsPreference(p: Page, e: Event)
    requires Truthy(Saved(p.storage)) && !e.StorageEdited?
    ensures Truthy(Saved(Step(p, e).storage))
  {
  }

  lemma {:induction false} RunKeepsPreference(p: Page, events: seq<Event>)
    requires Truthy(Saved(p.storage)) && NoStorageEdits(events)
    ensures Truthy(Saved(Run(p, events).storage))
    decreases |events|
  {
    if events != [] {
      StepKeepsPreference(p, events[0]);
      RunKeepsPreference(Step(p, events[0]), events[1..]);
    }
  }

  /** Once storage and page agree, they keep agreeing until storage is edited from outside. */
  lemma {:induction false} RunKeepsStorageInSync(p: Page, events: seq<Event>)
    requires InSync(p) && NoStorageEdits(events)
    ensures InSync(Run(p, events))
    decreases |events|
  {
    if events != [] {
      var e := events[0];
      assert !e.StorageEdited?;
      assert Truthy(Saved(p.storage));
      RunKeepsStorageInSync(Step(p, e), events[1..]);
    }
  }

  /**
   * With a truthy preference stored and no outside edits, the theme after a
   * trace is decided by the parity of its toggle clicks alone: system
   * changes and timers never change it.
   */
  lemma {:induction false} ClicksDecideTheme(p: Page, events: seq<Event>)
    requires Truthy(Saved(p.storage)) && NoStorageEdits(events)
    ensures RenderedTheme(Run(p, events)) ==
            (if Clicks(events) % 2 == 0 then RenderedTheme(p) else Opposite(RenderedTheme(p)))
    decreases |events|
  {
    if events != [] {
      var e := events[0];
      StepKeepsPreference(p, e);
      ClicksDecideTheme(Step(p, e), events[1..]);
      if e == ToggleClicked {
        assert RenderedTheme(Step(p, e)) == Opposite(RenderedTheme(p));
      } else {
        assert RenderedTheme(Step(p, e)) == RenderedTheme(p);
      }
    }
  }

  /**
   * The initial applyTheme always stores a truthy value, so after page load
   * a system preference change never alters anything, however many clicks,
   * timers and other system changes came before, unless storage was edited
   * from outside.
   */
  lemma LoadedPageIgnoresSystemChanges(doc: Page, prefersDark: bool, events: seq<Event>, matches: bool)
    requires NoStorageEdits(events)
    ensures var q := Run(PageLoad(doc, prefersDark), events);
      Truthy(Saved(q.storage)) && OnSystemChange(q, matches) == q
  {
    RunKeepsPreference(PageLoad(doc, prefersDark), events);
  }

  /** Clearing the stored preference from outside hands the theme back to the system. */
  lemma ClearedStorageFollowsSystem(p: Page, matches: bool)
    ensures var q := OnSystemChange(EditStorage(p, None), matches);
      InSync(q) && (RenderedTheme(q) == Dark <==> matches)
  {
  }

  // ----- The transition class -----

  /** A trace of `n` timer events. */
  function TimerEvents(n: nat): (events: seq<Event>)
    ensures |events| == n && NoStorageEdits(events) && Clicks(events) == 0
  {
    if n == 0 then [] else [RemovalTimerFired] + TimerEvents(n - 1)
  }

  /**
   * Once every scheduled removal has run, the transition class is gone and
   * the theme, icon and storage are what they were.
   */
  lemma {:induction false} PendingRemovalsClearClass(p: Page)
    requires Consistent(p)
    ensures var q := Run(p, TimerEvents(p.pendingRemovals));
      q.pendingRemovals == 0 && ThemeChangingClass !in q.bodyClasses &&
      q.bodyClasses == p.bodyClasses - {ThemeChangingClass} &&
      q.dataTheme == p.dataTheme && q.iconText == p.iconText && q.storage == p.storage
    decreases p.pendingRemovals
  {
    var n := p.pendingRemovals;
    if n > 0 {
      var events := TimerEvents(n);
      assert events[0] == RemovalTimerFired && events[1..] == TimerEvents(n - 1);
      var p' := RemoveTransition(p);
      assert Step(p, events[0]) == p';
      PendingRemovalsClearClass(p');
    }
  }

  /**
   * Removals are not cancelled by a newer change: after two quick toggles
   * the first timer already removes the class while the second theme
   * change is still in progress.
   */
  lemma EarlierRemovalEndsLaterTransition(p: Page)
    requires ThemeChangingClass !in p.bodyClasses && p.pendingRemovals == 0
    ensures var q := Run(p, [ToggleClicked, ToggleClicked, RemovalTimerFired]);
      ThemeChangingClass !in q.bodyClasses && q.pendingRemovals == 1
  {
  }
}
