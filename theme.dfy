/**
 * The light/dark theme switch: the component's `theme` state, the `raa_theme`
 * storage entry and the `dark` class on the document element.
 */
module Theme {
  import opened Wrappers
  import opened Browser

  const ThemeKey := "raa_theme"
  const Light := "light"
  const Dark := "dark"
  /** The class the stylesheet keys dark mode on. */
  const DarkClass := "dark"

  /**
   * The theme is a string, not a two-valued type: the stored value is cast
   * unchecked, so whatever text is under `raa_theme` becomes the theme.
   */
  datatype ThemeState = ThemeState(theme: string, store: map<string, string>, classes: set<string>)

  /** Before the load effect runs the theme is light and nothing has been touched. */
  function Initial(store: map<string, string>, classes: set<string>): (s: ThemeState)
    ensures s.theme == Light && s.store == store && s.classes == classes
  {
    ThemeState(Light, store, classes)
  }

  /** `localStorage.getItem("raa_theme") || "light"`. */
  function LoadedTheme(raw: Option<string>): (t: string)
    ensures t != ""
    ensures raw.Some? && raw.value != "" ==> t == raw.value
    ensures raw.None? || raw.value == "" ==> t == Light
  {
    OrElse(raw, Light)
  }

  /** The class list with `dark` added when `on` and removed otherwise. */
  function WithDark(classes: set<string>, on: bool): (c: set<string>)
    ensures DarkClass in c <==> on
    ensures c - {DarkClass} == classes - {DarkClass}
  {
    if on then classes + {DarkClass} else classes - {DarkClass}
  }

  /** The load effect: the stored theme (light by default), with the class matching it. */
  function AfterLoad(s: ThemeState): (r: ThemeState)
    ensures r.theme == LoadedTheme(if ThemeKey in s.store then Some(s.store[ThemeKey]) else None)
    ensures r.store == s.store
    ensures DarkClass in r.classes <==> r.theme == Dark
    ensures r.classes - {DarkClass} == s.classes - {DarkClass}
  {
    var saved := LoadedTheme(if ThemeKey in s.store then Some(s.store[ThemeKey]) else None);
    ThemeState(saved, s.store, WithDark(s.classes, saved == Dark))
  }

  /** The theme `toggle` switches to: light becomes dark, anything else becomes light. */
  function Next(theme: string): (n: string)
    ensures theme == Light ==> n == Dark
    ensures theme != Light ==> n == Light
  {
    if theme == Light then Dark else Light
  }

  /** `toggle`: the next theme becomes current, is stored, and sets the class. */
  function AfterToggle(s: ThemeState): (r: ThemeState)
    ensures r.theme == Next(s.theme)
    ensures r.store == s.store[ThemeKey := r.theme]
    ensures DarkClass in r.classes <==> r.theme == Dark
    ensures r.classes - {DarkClass} == s.classes - {DarkClass}
  {
    var next := Next(s.theme);
    ThemeState(next, s.store[ThemeKey := next], WithDark(s.classes, next == Dark))
  }

  /** From either proper theme, two toggles give back the same theme, storage entry aside. */
  lemma ToggleTwice(s: ThemeState)
    requires s.theme == Light || s.theme == Dark
    ensures AfterToggle(AfterToggle(s)).theme == s.theme
    ensures DarkClass in AfterToggle(AfterToggle(s)).classes <==> s.theme == Dark
  {
  }

  /** From a stray stored value the first toggle gives light and the second dark. */
  lemma ToggleTwiceFromStray(s: ThemeState)
    requires s.theme != Light && s.theme != Dark
    ensures AfterToggle(s).theme == Light
    ensures AfterToggle(AfterToggle(s)).theme == Dark
  {
  }

  /** A toggled theme survives a reload: loading from the storage it left gives the same theme and class. */
  lemma ToggleSurvivesReload(s: ThemeState, classes: set<string>)
    ensures AfterLoad(Initial(AfterToggle(s).store, classes)).theme == AfterToggle(s).theme
    ensures DarkClass in AfterLoad(Initial(AfterToggle(s).store, classes)).classes
            <==> DarkClass in AfterToggle(s).classes
  {
  }

  /** What the button shows. */
  datatype ButtonView = ButtonView(text: string, pressed: bool, ariaLabel: string)

  /** The button: labelled `Dark` and pressed exactly in the dark theme, `Light` otherwise. */
  function View(theme: string): (v: ButtonView)
    ensures v.pressed <==> theme == Dark
    ensures v.text == (if v.pressed then "Dark" else "Light")
    ensures v.ariaLabel == "Toggle theme"
  {
    ButtonView(if theme == Dark then "Dark" else "Light", theme == Dark, "Toggle theme")
  }

  /** `ThemeToggle`: its `theme` state over the shared storage and class list. */
  class ThemeToggle {
    var theme: string
    const storage: LocalStorage
    const root: ClassList

    ghost function State(): ThemeState
      reads this, storage, root
    {
      ThemeState(theme, storage.items, root.tokens)
    }

    constructor (storage: LocalStorage, root: ClassList)
      ensures this.storage == storage && this.root == root
      ensures State() == Initial(storage.items, root.tokens)
    {
      this.storage := storage;
      this.root := root;
      theme := Light;
    }

    /** The mount effect. */
    method Load()
      modifies this, root
      ensures State() == AfterLoad(old(State()))
    {
      var saved := OrElse(storage.GetItem(ThemeKey), Light);
      theme := saved;
      if saved == Dark {
        root.Add(DarkClass);
      } else {
        root.Remove(DarkClass);
      }
    }

    method Toggle()
      modifies this, storage, root
      ensures State() == AfterToggle(old(State()))
    {
      var next := if theme == Light then Dark else Light;
      theme := next;
      storage.SetItem(ThemeKey, next);
      if next == Dark {
        root.Add(DarkClass);
      } else {
        root.Remove(DarkClass);
      }
    }
  }
}
