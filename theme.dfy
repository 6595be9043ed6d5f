/**
 * Theme state (src/utils/theme.ts): the current theme, its copy under the
 * `theme` key of `localStorage`, and the two attributes of the document root
 * that `applyTheme` sets (the `dark` class and `data-theme`). The system's
 * colour-scheme preference is a parameter.
 */
module Theme {

  import opened Wrappers
  import Storage

  datatype Theme = Light | Dark

  const ThemeKey := "theme"
  const DarkClass := "dark"

  function Name(t: Theme): string
  {
    match t
    case Light => "light"
    case Dark => "dark"
  }

  /** The theme a stored string names, when it is exactly "light" or "dark". */
  function Named(s: Option<string>): (r: Option<Theme>)
    ensures r.Some? <==> s == Some("light") || s == Some("dark")
    ensures r.Some? ==> Some(Name(r.value)) == s
  {
    if s == Some("light") then Some(Light)
    else if s == Some("dark") then Some(Dark)
    else None
  }

  /**
   * `getInitialTheme()`: the stored theme when it is a valid name; otherwise
   * dark exactly when the system prefers dark.
   */
  function InitialTheme(stored: Option<string>, prefersDark: bool): (t: Theme)
    ensures stored == Some(Name(t)) || (Named(stored).None? && (t == Dark <==> prefersDark))
  {
    match Named(stored)
    case Some(saved) => saved
    case None => if prefersDark then Dark else Light
  }

  /** The document root attributes the model follows. */
  datatype Root = Root(classes: set<string>, dataTheme: Option<string>)

  /** `applyTheme(t)`: the root has class `dark` exactly for the dark theme and `data-theme` names `t`. */
  function Applied(root: Root, t: Theme): (r: Root)
    ensures DarkClass in r.classes <==> t == Dark
    ensures r.classes - {DarkClass} == root.classes - {DarkClass}
    ensures r.dataTheme == Some(Name(t))
  {
    if t == Dark then Root(root.classes + {DarkClass}, Some("dark"))
    else Root(root.classes - {DarkClass}, Some("light"))
  }

  /** The current theme, the storage contents and the root attributes. */
  datatype ThemeView = ThemeView(current: Theme, storage: map<string, string>, root: Root)

  /** `setTheme(t)`: current, stored and applied theme all become `t`; no other key moves. */
  function WithTheme(v: ThemeView, t: Theme): (r: ThemeView)
    ensures r.current == t
    ensures r.storage == v.storage[ThemeKey := Name(t)]
    ensures r.root == Applied(v.root, t)
  {
    ThemeView(t, v.storage[ThemeKey := Name(t)], Applied(v.root, t))
  }

  /** `toggleTheme()`: the other theme, stored and applied. */
  function Toggled(v: ThemeView): (r: ThemeView)
    ensures r.current != v.current
    ensures ThemeKey in r.storage && r.storage[ThemeKey] == Name(r.current)
    ensures r == WithTheme(v, r.current)
  {
    var next := if v.current == Light then Dark else Light;
    ThemeView(next, v.storage[ThemeKey := Name(next)], Applied(v.root, next))
  }

  /**
   * The `change` listener `initTheme` installs: with no (or an empty) stored
   * theme it sets the theme the system now prefers; otherwise it does nothing.
   */
  function AfterSystemChange(v: ThemeView, matchesDark: bool): (r: ThemeView)
    ensures Truthy(Storage.Lookup(v.storage, ThemeKey)) ==> r == v
    ensures !Truthy(Storage.Lookup(v.storage, ThemeKey)) ==> r == WithTheme(v, if matchesDark then Dark else Light)
  {
    if !Truthy(Storage.Lookup(v.storage, ThemeKey)) then WithTheme(v, if matchesDark then Dark else Light) else v
  }

  lemma AppliedTwice(root: Root, t: Theme)
    ensures Applied(Applied(root, t), t) == Applied(root, t)
  {
  }

  /** Setting the same theme twice is the same as setting it once. */
  lemma SetIdempotent(v: ThemeView, t: Theme)
    ensures WithTheme(WithTheme(v, t), t) == WithTheme(v, t)
  {
    AppliedTwice(v.root, t);
  }

  /** Applying two themes in a row leaves the root as if only the second were applied. */
  lemma AppliedOverwrites(root: Root, t: Theme, u: Theme)
    ensures Applied(Applied(root, t), u) == Applied(root, u)
  {
    if t == Dark && u == Light {
      assert root.classes + {DarkClass} - {DarkClass} == root.classes - {DarkClass};
    }
  }

  /** Toggling twice brings back the theme, and stores and applies it. */
  lemma ToggleTwice(v: ThemeView)
    ensures Toggled(Toggled(v)) == WithTheme(v, v.current)
  {
    var once := Toggled(v);
    AppliedOverwrites(v.root, once.current, v.current);
    assert once.storage[ThemeKey := Name(v.current)] == v.storage[ThemeKey := Name(v.current)];
  }

  /** When the stored value already names the current theme, toggling twice restores storage exactly. */
  lemma ToggleTwiceRestoresStorage(v: ThemeView)
    requires ThemeKey in v.storage && v.storage[ThemeKey] == Name(v.current)
    ensures Toggled(Toggled(v)).current == v.current
    ensures Toggled(Toggled(v)).storage == v.storage
  {
    ToggleTwice(v);
  }

  /** Once the listener has acted it has stored a theme, so every later system change is ignored. */
  lemma SystemChangeActsOnce(v: ThemeView, first: bool, second: bool)
    ensures AfterSystemChange(AfterSystemChange(v, first), second) == AfterSystemChange(v, first)
  {
  }

  /** A theme that was set is the one the next page load starts with, whatever the system prefers. */
  lemma SetThemeSurvivesReload(v: ThemeView, t: Theme, prefersDark: bool)
    ensures InitialTheme(Storage.Lookup(WithTheme(v, t).storage, ThemeKey), prefersDark) == t
  {
  }

  class ThemeState {
    var currentTheme: Theme
    var root: Root
    const storage: Storage.LocalStorage

    function View(): ThemeView
      reads this, storage
    {
      ThemeView(currentTheme, storage.items, root)
    }

    /** Module load: `currentTheme = ref(getInitialTheme())`; the root is whatever the page has. */
    constructor (storage: Storage.LocalStorage, prefersDark: bool, root: Root)
      ensures this.storage == storage && this.root == root
      ensures currentTheme == InitialTheme(storage.GetItem(ThemeKey), prefersDark)
    {
      this.storage := storage;
      this.root := root;
      currentTheme := InitialTheme(storage.GetItem(ThemeKey), prefersDark);
    }

    method ApplyTheme(t: Theme)
      modifies this`root
      ensures root == Applied(old(root), t)
    {
      if t == Dark {
        root := root.(classes := root.classes + {DarkClass});
        root := root.(dataTheme := Some("dark"));
      } else {
        root := root.(classes := root.classes - {DarkClass});
        root := root.(dataTheme := Some("light"));
      }
    }

    method ToggleTheme()
      modifies this, storage
      ensures View() == Toggled(old(View()))
    {
      currentTheme := if currentTheme == Light then Dark else Light;
      storage.SetItem(ThemeKey, Name(currentTheme));
      ApplyTheme(currentTheme);
    }

    method SetTheme(t: Theme)
      modifies this, storage
      ensures View() == WithTheme(old(View()), t)
    {
      currentTheme := t;
      storage.SetItem(ThemeKey, Name(t));
      ApplyTheme(t);
    }

    /** `initTheme()`: applies the current theme to the root. */
    method InitTheme()
      modifies this`root
      ensures root == Applied(old(root), currentTheme)
    {
      ApplyTheme(currentTheme);
    }

    /** The system colour-scheme listener that `initTheme` registers. */
    method OnSystemChange(matchesDark: bool)
      modifies this, storage
      ensures View() == AfterSystemChange(old(View()), matchesDark)
    {
      if !Truthy(storage.GetItem(ThemeKey)) {
        var newTheme := if matchesDark then Dark else Light;
        SetTheme(newTheme);
      }
    }
  }
}
