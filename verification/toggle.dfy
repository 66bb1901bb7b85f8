/** The theme menu (frontend/src/components/ModeToggle.jsx): the effective
    theme shown on the button, the sun/moon icon, and the `open` flag of the
    drop-down, driven by the button, a document click, the Escape key and
    the choice of a menu item. */
module Toggle {
  import opened Theme

  /** `effective`: the provider's resolution rule, with the root element's
      current `dark` class standing in for the OS preference. */
  function Effective(theme: string, htmlHasDark: bool): (r: string)
    ensures theme != System ==> r == theme
    ensures theme == System ==> (r == Dark <==> htmlHasDark) && (r == Light <==> !htmlHasDark)
  {
    ResolvedClass(theme, htmlHasDark)
  }

  datatype Icon = Moon | Sun

  /** The button shows the moon for the dark theme and the sun otherwise. */
  function IconFor(effective: string): (icon: Icon)
    ensures icon == Moon <==> effective == Dark
  {
    if effective == Dark then Moon else Sun
  }

  /** At any render after the provider's layout effect has run, the
      effective theme is the class that effect chose. The render that a
      theme change causes comes before that effect, so it still reads the
      old class (see `IconLagsAfterSwitchToSystem`). */
  lemma EffectiveMatchesAppliedClass(classes: set<string>, theme: string, prefersDark: bool)
    ensures Effective(theme, Dark in ApplyTheme(classes, theme, prefersDark).classes) == ResolvedClass(theme, prefersDark)
  {
    if theme == System {
      ApplyKnownTheme(classes, theme, prefersDark);
    }
  }

  /** At any render after the layout effect the moon shows exactly in dark
      mode: for the dark theme, or in `system` mode when the OS prefers dark. */
  lemma MoonIffDarkMode(classes: set<string>, theme: string, prefersDark: bool)
    ensures IconFor(Effective(theme, Dark in ApplyTheme(classes, theme, prefersDark).classes)) == Moon
        <==> theme == Dark || (theme == System && prefersDark)
  {
    EffectiveMatchesAppliedClass(classes, theme, prefersDark);
  }

  /** The render caused by switching from dark to `system` with the OS
      preferring light reads the root's old `dark` class and shows the moon,
      while the layout effect that follows it replaces `dark` by `light`. No
      state changes in that effect, so the moon stays until a later render. */
  lemma IconLagsAfterSwitchToSystem(classes: set<string>)
    requires Dark in classes
    ensures IconFor(Effective(System, Dark in classes)) == Moon
    ensures var after := ApplyTheme(classes, System, false).classes;
      Light in after && Dark !in after
  {
    ApplyKnownTheme(classes, System, false);
  }

  /** What happens to the menu. */
  datatype MenuInput =
    | ToggleClick
    | DocumentClick(insideContainer: bool)
    | KeyDown(key: string)
    | Select(value: string)

  /** The `open` flag after an input: the button flips it, a click outside
      the container or Escape closes it, choosing an item closes it. */
  function NextOpen(open: bool, input: MenuInput): (r: bool)
    ensures input == ToggleClick ==> r == !open
    ensures r ==> open || input == ToggleClick
    ensures input.Select? ==> !r
  {
    match input
    case ToggleClick => !open
    case DocumentClick(insideContainer) => if insideContainer then open else false
    case KeyDown(key) => if key == "Escape" then false else open
    case Select(_) => false
  }

  /** Two clicks on the button restore the menu. */
  lemma ToggleTwiceRestores(open: bool)
    ensures NextOpen(NextOpen(open, ToggleClick), ToggleClick) == open
  {
  }

  /** Only the button opens the menu; everything else closes it or leaves it. */
  lemma OnlyToggleOpens(open: bool, input: MenuInput)
    requires !open && NextOpen(open, input)
    ensures input == ToggleClick
  {
  }

  /** Escape and a click outside close the menu; any other key and a click
      inside leave it as it was. */
  lemma ClosingInputs(open: bool, key: string, insideContainer: bool)
    ensures NextOpen(open, KeyDown(key)) == (open && key != "Escape")
    ensures NextOpen(open, DocumentClick(insideContainer)) == (open && insideContainer)
  {
  }

  class ModeToggle {
    const provider: ThemeProvider
    var open: bool

    constructor (provider: ThemeProvider)
      ensures this.provider == provider && !open
    {
      this.provider := provider;
      open := false;
    }

    /** The icon the button shows. */
    method ButtonIcon() returns (icon: Icon)
      ensures icon == Moon <==> Effective(provider.theme, provider.hasWindow && Dark in provider.root.classes) == Dark
    {
      var htmlHasDark := provider.hasWindow && Dark in provider.root.classes;
      var effective := if provider.theme == System then (if htmlHasDark then Dark else Light) else provider.theme;
      icon := IconFor(effective);
    }

    /** The button's `onClick`. */
    method ClickToggle()
      modifies this
      ensures open == NextOpen(old(open), ToggleClick)
    {
      open := !open;
    }

    /** `onDocClick`; `insideContainer` says whether the container holds the
        click's target. */
    method OnDocumentClick(insideContainer: bool)
      modifies this
      ensures open == NextOpen(old(open), DocumentClick(insideContainer))
    {
      if !insideContainer {
        open := false;
      }
    }

    /** `onEsc`, the document `keydown` listener. */
    method OnKeyDown(key: string)
      modifies this
      ensures open == NextOpen(old(open), KeyDown(key))
    {
      if key == "Escape" {
        open := false;
      }
    }

    /** `handleSelect(value)`: the provider's `setTheme`, then close the menu. */
    method HandleSelect(value: string, writeThrows: bool)
      modifies this, provider, provider.storage
      ensures open == NextOpen(old(open), Select(value))
      ensures provider.theme == value
      ensures provider.storage.items ==
        if provider.hasWindow && !writeThrows then old(provider.storage.items)[provider.storageKey := value]
        else old(provider.storage.items)
    {
      provider.SetTheme(value, writeThrows);
      open := false;
    }
  }
}
