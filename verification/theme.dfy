/** The theme provider (frontend/src/components/Theme_provider.jsx): the
    theme starts from local storage or the default, a layout effect rewrites
    the light/dark class of the document's root element, an OS colour-scheme
    listener does the same in `system` mode, and `setTheme` writes storage
    and then state. The root's class list is a set of class names and
    local storage a map from keys to values. */
module Theme {
  import opened JsStrings

  const Light := "light"
  const Dark := "dark"
  const System := "system"
  /** `STORAGE_KEY_DEFAULT`, the `storageKey` used unless one is given. */
  const StorageKeyDefault := "vite-ui-theme"
  /** The `defaultTheme` used unless one is given. */
  const DefaultTheme := System

  /** The three themes the menu offers. */
  predicate IsKnownTheme(t: string) {
    t == Light || t == Dark || t == System
  }

  /** `localStorage.getItem(key)`: null for a missing key. */
  function GetItem(items: map<string, string>, key: string): (r: Option<string>)
    ensures r.Some? <==> key in items
    ensures r.Some? ==> r.value == items[key]
  {
    if key in items then Some(items[key]) else None
  }

  /** The initial-state function of `useState`: the default without a window
      or when reading storage throws, otherwise the stored value unless it is
      missing or empty (`getItem(storageKey) || defaultTheme`). */
  function InitialTheme(hasWindow: bool, readThrows: bool, stored: Option<string>, defaultTheme: string): (r: string)
    ensures r == defaultTheme || (hasWindow && !readThrows && stored == Some(r) && r != "")
    ensures hasWindow && !readThrows && Truthy(stored) ==> r == stored.value
  {
    if !hasWindow || readThrows then defaultTheme
    else if Truthy(stored) then stored.value
    else defaultTheme
  }

  /** The class `apply` adds for a theme: in `system` mode the colour scheme
      the OS prefers, otherwise the theme itself. */
  function ResolvedClass(theme: string, prefersDark: bool): (r: string)
    ensures theme != System ==> r == theme
    ensures theme == System ==> (r == Dark <==> prefersDark) && (r == Light <==> !prefersDark)
  {
    if theme == System then (if prefersDark then Dark else Light) else theme
  }

  predicate IsAsciiWhitespace(c: char) {
    c == ' ' || c == '\t' || c == '\n' || c == '\r' || c == '\U{C}'
  }

  /** A token `DOMTokenList.add` accepts; it throws for the empty string and
      for a token containing whitespace. */
  predicate ValidToken(t: string) {
    t != "" && forall i :: 0 <= i < |t| ==> !IsAsciiWhitespace(t[i])
  }

  /** The root's classes after the layout effect, and whether its `add` threw. */
  datatype ApplyOutcome = ApplyOutcome(classes: set<string>, threw: bool)

  /** The layout effect on the root's classes: remove `light` and `dark`,
      then add the resolved class. */
  function ApplyTheme(classes: set<string>, theme: string, prefersDark: bool): (r: ApplyOutcome)
    ensures Light !in r.classes || Dark !in r.classes
    ensures r.threw <==> !ValidToken(ResolvedClass(theme, prefersDark))
    ensures !r.threw ==> ResolvedClass(theme, prefersDark) in r.classes
    ensures r.threw ==> Light !in r.classes && Dark !in r.classes
    ensures Light in r.classes <==> !r.threw && ResolvedClass(theme, prefersDark) == Light
    ensures Dark in r.classes <==> !r.threw && ResolvedClass(theme, prefersDark) == Dark
  {
    var cleared := classes - {Light, Dark};
    var token := ResolvedClass(theme, prefersDark);
    if ValidToken(token) then ApplyOutcome(cleared + {token}, false) else ApplyOutcome(cleared, true)
  }

  /** The OS `change` handler: in `system` mode it swaps the light/dark class
      for the new preference; in any other mode it does nothing. */
  function SchemeChange(classes: set<string>, theme: string, prefersDark: bool): (r: set<string>)
    ensures theme != System ==> r == classes
    ensures theme == System ==> (Dark in r <==> prefersDark) && (Light in r <==> !prefersDark)
    ensures forall c :: c != Light && c != Dark ==> (c in r <==> c in classes)
  {
    if theme == System then (classes - {Light, Dark}) + {if prefersDark then Dark else Light}
    else classes
  }

  /** For the three known themes the effect leaves exactly one of `light` and
      `dark`: the theme itself, or in `system` mode `dark` iff the OS prefers it. */
  lemma ApplyKnownTheme(classes: set<string>, theme: string, prefersDark: bool)
    requires IsKnownTheme(theme)
    ensures var r := ApplyTheme(classes, theme, prefersDark);
      && !r.threw
      && (Light in r.classes <==> Dark !in r.classes)
      && (Dark in r.classes <==> theme == Dark || (theme == System && prefersDark))
  {
    var token := ResolvedClass(theme, prefersDark);
    assert token == Light || token == Dark;
    assert ValidToken(token) by {
      assert forall i :: 0 <= i < |token| ==> token[i] in "lightdark";
    }
  }

  /** Only the light/dark classes change: every other class is kept or
      absent exactly as before, except the theme's own token being added. */
  lemma ApplyLeavesOtherClasses(classes: set<string>, theme: string, prefersDark: bool, c: string)
    requires c != Light && c != Dark && c != ResolvedClass(theme, prefersDark)
    ensures c in ApplyTheme(classes, theme, prefersDark).classes <==> c in classes
  {
  }

  /** Because the effect removes both classes before adding one, running it
      twice gives what running it once gives. */
  lemma ApplyIdempotent(classes: set<string>, theme: string, prefersDark: bool)
    ensures var once := ApplyTheme(classes, theme, prefersDark);
      ApplyTheme(once.classes, theme, prefersDark) == once
  {
    var once := ApplyTheme(classes, theme, prefersDark);
    var token := ResolvedClass(theme, prefersDark);
    var twice := ApplyTheme(once.classes, theme, prefersDark);
    if ValidToken(token) {
      assert once.classes - {Light, Dark} + {token} == once.classes;
    } else {
      assert once.classes - {Light, Dark} == once.classes;
    }
  }

  /** The OS handler touches the classes only in `system` mode, and there it
      leaves them as the layout effect would for the new preference. */
  lemma SchemeChangeOnlyInSystemMode(classes: set<string>, theme: string, prefersDark: bool)
    ensures theme != System ==> SchemeChange(classes, theme, prefersDark) == classes
    ensures theme == System ==> SchemeChange(classes, theme, prefersDark) == ApplyTheme(classes, theme, prefersDark).classes
  {
    if theme == System {
      ApplyKnownTheme(classes, theme, prefersDark);
    }
  }

  /** After `setTheme(v)` has written storage, a provider started on the same
      storage key starts with `v`, or with its default when `v` is empty. */
  lemma StoredThemeRoundTrip(items: map<string, string>, storageKey: string, defaultTheme: string, v: string)
    ensures InitialTheme(true, false, GetItem(items[storageKey := v], storageKey), defaultTheme)
         == if v != "" then v else defaultTheme
  {
  }

  /** A provider mounted with the default arguments (`storageKey` is
      `vite-ui-theme`, `defaultTheme` is `system`) on a storage that holds no
      theme under that key starts in `system` mode, and its layout effect then
      leaves `dark` on the root exactly when the OS prefers dark. */
  lemma DefaultsFollowTheOs(items: map<string, string>, hasWindow: bool, readThrows: bool,
                            classes: set<string>, prefersDark: bool)
    requires !Truthy(GetItem(items, StorageKeyDefault))
    ensures var theme := InitialTheme(hasWindow, readThrows, GetItem(items, StorageKeyDefault), DefaultTheme);
      && theme == System
      && var r := ApplyTheme(classes, theme, prefersDark);
         !r.threw && (Dark in r.classes <==> prefersDark) && (Light in r.classes <==> !prefersDark)
  {
    ApplyKnownTheme(classes, System, prefersDark);
  }

  /** `window.localStorage`. */
  class LocalStorage {
    var items: map<string, string>

    constructor (items: map<string, string>)
      ensures this.items == items
    {
      this.items := items;
    }

    /** `setItem(key, value)`. */
    method SetItem(key: string, value: string)
      modifies this
      ensures items == old(items)[key := value]
    {
      items := items[key := value];
    }
  }

  /** `window.document.documentElement`, as far as its class list goes. */
  class DocumentElement {
    var classes: set<string>

    constructor (classes: set<string>)
      ensures this.classes == classes
    {
      this.classes := classes;
    }

    /** `classList.remove(...tokens)`. */
    method Remove(tokens: set<string>)
      modifies this
      ensures classes == old(classes) - tokens
    {
      classes := classes - tokens;
    }

    /** `classList.add(token)`, which throws for an invalid token. */
    method Add(token: string) returns (threw: bool)
      modifies this
      ensures threw <==> !ValidToken(token)
      ensures classes == if threw then old(classes) else old(classes) + {token}
    {
      threw := !ValidToken(token);
      if !threw {
        classes := classes + {token};
      }
    }
  }

  class ThemeProvider {
    const storage: LocalStorage
    const root: DocumentElement
    const storageKey: string
    const defaultTheme: string
    /** Whether `window` exists (false when rendered outside a browser). */
    const hasWindow: bool
    var theme: string

    /** Mounting the provider; `readThrows` says whether reading local storage
        throws. */
    constructor (storage: LocalStorage, root: DocumentElement, storageKey: string, defaultTheme: string,
                 hasWindow: bool, readThrows: bool)
      ensures this.storage == storage && this.root == root
      ensures this.storageKey == storageKey && this.defaultTheme == defaultTheme && this.hasWindow == hasWindow
      ensures theme == InitialTheme(hasWindow, readThrows, GetItem(storage.items, storageKey), defaultTheme)
    {
      this.storage := storage;
      this.root := root;
      this.storageKey := storageKey;
      this.defaultTheme := defaultTheme;
      this.hasWindow := hasWindow;
      if !hasWindow || readThrows {
        theme := defaultTheme;
      } else {
        var stored := GetItem(storage.items, storageKey);
        theme := if Truthy(stored) then stored.value else defaultTheme;
      }
    }

    /** The layout effect that runs whenever `theme` changes, with the OS
        preference passed in; `threw` says whether `classList.add` threw. */
    method ApplyEffect(prefersDark: bool) returns (threw: bool)
      modifies root
      ensures hasWindow ==> root.classes == ApplyTheme(old(root.classes), theme, prefersDark).classes
      ensures hasWindow ==> threw == ApplyTheme(old(root.classes), theme, prefersDark).threw
      ensures !hasWindow ==> root.classes == old(root.classes) && !threw
    {
      threw := false;
      if !hasWindow {
        return;
      }
      root.Remove({Light, Dark});
      if theme == System {
        threw := root.Add(if prefersDark then Dark else Light);
      } else {
        threw := root.Add(theme);
      }
    }

    /** The `change` handler of the colour-scheme media query, registered only
        when a window exists; `prefersDark` is the query's new result. */
    method OnColorSchemeChange(prefersDark: bool)
      modifies root
      ensures root.classes == if hasWindow then SchemeChange(old(root.classes), theme, prefersDark) else old(root.classes)
    {
      if !hasWindow {
        return;
      }
      if theme == System {
        root.Remove({Light, Dark});
        var threw := root.Add(if prefersDark then Dark else Light);
      }
    }

    /** `setTheme(value)`: writes storage, swallowing a failure (no window, or
        `setItem` throwing as `writeThrows` says), then sets the state. */
    method SetTheme(value: string, writeThrows: bool)
      modifies this, storage
      ensures theme == value
      ensures storage.items == if hasWindow && !writeThrows then old(storage.items)[storageKey := value]
                               else old(storage.items)
    {
      if hasWindow && !writeThrows {
        storage.SetItem(storageKey, value);
      }
      theme := value;
    }
  }

  /** A theme chosen with `setTheme` survives a reload: a new provider on the
      same storage and key starts with it (or with its default for ""). */
  method ReloadAfterSetTheme(provider: ThemeProvider, value: string) returns (reloaded: ThemeProvider)
    requires provider.hasWindow
    modifies provider, provider.storage
    ensures fresh(reloaded) && reloaded.storage == provider.storage
    ensures reloaded.theme == if value != "" then value else provider.defaultTheme
  {
    provider.SetTheme(value, false);
    reloaded := new ThemeProvider(provider.storage, provider.root, provider.storageKey, provider.defaultTheme, true, false);
    StoredThemeRoundTrip(old(provider.storage.items), provider.storageKey, provider.defaultTheme, value);
  }
}
