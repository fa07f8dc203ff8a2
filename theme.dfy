/** The colour-theme preference of the page template
    (template/components/theme.ts): the user's choice ("Dark", "Light" or
    none), mirrored into the `data-theme` attribute of the `<html>` element
    and into the browser's local storage under the key "theme", and the
    system's dark-mode flag. */
module ThemeModel {
  import opened Wrappers

  const StorageKey := "theme"
  const AttributeName := "data-theme"
  const DarkName := "Dark"
  const LightName := "Light"

  /** The `<html>` element's attributes. */
  class HtmlElement {
    var attributes: map<string, string>

    constructor(attributes: map<string, string>)
      ensures this.attributes == attributes
    {
      this.attributes := attributes;
    }

    method SetAttribute(name: string, value: string)
      modifies this
      ensures attributes == old(attributes)[name := value]
    {
      attributes := attributes[name := value];
    }

    method RemoveAttribute(name: string)
      modifies this
      ensures attributes == old(attributes) - {name}
    {
      attributes := attributes - {name};
    }
  }

  /** The browser's `localStorage`. */
  class LocalStorage {
    var items: map<string, string>

    constructor(items: map<string, string>)
      ensures this.items == items
    {
      this.items := items;
    }

    function GetItem(key: string): (r: Option<string>)
      reads this
      ensures r.Some? <==> key in items
      ensures r.Some? ==> r.value == items[key]
    {
      if key in items then Some(items[key]) else None
    }

    method SetItem(key: string, value: string)
      modifies this
      ensures items == old(items)[key := value]
    {
      items := items[key := value];
    }

    method RemoveItem(key: string)
      modifies this
      ensures items == old(items) - {key}
    {
      items := items - {key};
    }
  }

  /** What `setTheme` reads and writes: the chosen theme, the element's
      attributes and the stored items. */
  datatype View = View(theme: Option<string>, attributes: map<string, string>, items: map<string, string>)

  /** JavaScript truthiness of `state.theme`. */
  predicate IsSet(theme: Option<string>) {
    theme.Some? && theme.value != ""
  }

  /** `setTheme(name)`. "Dark" and "Light" are set (with attribute value
      "dark" or "light") unless already chosen; any other name clears a
      choice that is set. */
  function SetThemeSpec(v: View, name: Option<string>): View {
    if name == Some(DarkName) then
      if v.theme != name then View(name, v.attributes[AttributeName := "dark"], v.items[StorageKey := DarkName]) else v
    else if name == Some(LightName) then
      if v.theme != name then View(name, v.attributes[AttributeName := "light"], v.items[StorageKey := LightName]) else v
    else if IsSet(v.theme) then View(None, v.attributes - {AttributeName}, v.items - {StorageKey})
    else v
  }

  /** The theme a name selects: itself for "Dark" and "Light", none
      otherwise. */
  function Selected(name: Option<string>): (r: Option<string>)
    ensures r == None || r == Some(DarkName) || r == Some(LightName)
  {
    if name == Some(DarkName) || name == Some(LightName) then name else None
  }

  /** The DOM and storage agree with the chosen theme. */
  predicate Mirrored(v: View) {
    match v.theme
    case None => AttributeName !in v.attributes && StorageKey !in v.items
    case Some(t) =>
      (t == DarkName || t == LightName)
      && AttributeName in v.attributes
      && v.attributes[AttributeName] == (if t == DarkName then "dark" else "light")
      && StorageKey in v.items && v.items[StorageKey] == t
  }

  /** After `setTheme(name)` the theme is the one `name` selects (the
      theme is never the empty string, which JavaScript would treat as
      unset). */
  lemma SetThemeSelects(v: View, name: Option<string>)
    requires v.theme != Some("")
    ensures SetThemeSpec(v, name).theme == Selected(name)
  {
  }

  /** `setTheme` keeps the DOM and storage in agreement with the theme. */
  lemma SetThemeKeepsMirror(v: View, name: Option<string>)
    requires Mirrored(v)
    ensures Mirrored(SetThemeSpec(v, name))
  {
  }

  /** When the theme already is what `name` selects, nothing changes. */
  lemma SetThemeNoChange(v: View, name: Option<string>)
    requires v.theme == Selected(name)
    ensures SetThemeSpec(v, name) == v
  {
  }

  /** Calling `setTheme` twice with the same name is calling it once. */
  lemma SetThemeIdempotent(v: View, name: Option<string>)
    ensures SetThemeSpec(SetThemeSpec(v, name), name) == SetThemeSpec(v, name)
  {
  }

  /** `setTheme` touches only the `data-theme` attribute and the "theme"
      item. */
  lemma SetThemeFrame(v: View, name: Option<string>)
    ensures forall a :: a != AttributeName ==>
      (a in SetThemeSpec(v, name).attributes <==> a in v.attributes) &&
      (a in v.attributes ==> SetThemeSpec(v, name).attributes[a] == v.attributes[a])
    ensures forall k :: k != StorageKey ==>
      (k in SetThemeSpec(v, name).items <==> k in v.items) &&
      (k in v.items ==> SetThemeSpec(v, name).items[k] == v.items[k])
  {
  }

  /** At start-up, with no theme chosen yet, a stored "Dark" or "Light" is
      chosen and mirrored into the element; any other stored value, or
      none, leaves no theme chosen and the element and storage as they
      were. */
  lemma StartupApplies(attributes: map<string, string>, items: map<string, string>)
    ensures var stored := if StorageKey in items then Some(items[StorageKey]) else None;
            var v := SetThemeSpec(View(None, attributes, items), stored);
            && (stored == Some(DarkName) || stored == Some(LightName) ==> Mirrored(v) && v.theme == stored)
            && (stored != Some(DarkName) && stored != Some(LightName) ==> v == View(None, attributes, items))
  {
  }

  /** The `isDark` getter: the chosen theme decides, else the system. */
  function IsDarkFor(theme: Option<string>, systemDark: bool): bool {
    if theme == Some(DarkName) then true
    else if theme == Some(LightName) then false
    else systemDark
  }

  /** The `color` getter. */
  function ColorFor(isDark: bool): string {
    if isDark then "is-dark" else "is-light"
  }

  /** What the reads give after `setTheme(name)`: "Dark" makes the page
      dark (`is-dark`), "Light" light (`is-light`), and any other name
      clears the choice, so the system's scheme decides. */
  lemma SetThemeReads(v: View, name: Option<string>, systemDark: bool)
    requires v.theme != Some("")
    ensures var t := SetThemeSpec(v, name).theme;
            && (name == Some(DarkName) ==> IsDarkFor(t, systemDark) && ColorFor(IsDarkFor(t, systemDark)) == "is-dark")
            && (name == Some(LightName) ==> !IsDarkFor(t, systemDark) && ColorFor(IsDarkFor(t, systemDark)) == "is-light")
            && (Selected(name) == None ==>
                  t == None && IsDarkFor(t, systemDark) == systemDark
                  && ColorFor(IsDarkFor(t, systemDark)) == (if systemDark then "is-dark" else "is-light"))
  {
    SetThemeSelects(v, name);
  }

  class Theme {
    var theme: Option<string>
    var dark: bool
    const html: HtmlElement
    const storage: LocalStorage

    function Snapshot(): View
      reads this, html, storage
    {
      View(theme, html.attributes, storage.items)
    }

    /** The choice is always none, "Dark" or "Light". */
    predicate Valid()
      reads this
    {
      Selected(theme) == theme
    }

    /** The private constructor: no theme chosen, the system's dark flag,
        then the stored choice applied with `setTheme`. */
    constructor(html: HtmlElement, storage: LocalStorage, systemDark: bool)
      modifies html, storage
      ensures this.html == html && this.storage == storage && dark == systemDark && Valid()
      ensures Snapshot() == SetThemeSpec(View(None, old(html.attributes), old(storage.items)), old(storage.GetItem(StorageKey)))
    {
      this.html := html;
      this.storage := storage;
      theme := None;
      dark := systemDark;
      new;
      var stored := storage.GetItem(StorageKey);
      SetTheme(stored);
    }

    method SetTheme(name: Option<string>)
      requires Valid()
      modifies this, html, storage
      ensures Valid()
      ensures Snapshot() == SetThemeSpec(old(Snapshot()), name)
      ensures dark == old(dark)
      ensures GetTheme() == Selected(name) && Is(Selected(name))
      ensures IsDark() == (if Selected(name) == None then dark else name == Some(DarkName))
    {
      SetThemeSelects(Snapshot(), name);
      if name == Some(DarkName) {
        if theme != name {
          theme := name;
          html.SetAttribute(AttributeName, "dark");
          storage.SetItem(StorageKey, DarkName);
        }
      } else if name == Some(LightName) {
        if theme != name {
          theme := name;
          html.SetAttribute(AttributeName, "light");
          storage.SetItem(StorageKey, LightName);
        }
      } else {
        if IsSet(theme) {
          theme := None;
          html.RemoveAttribute(AttributeName);
          storage.RemoveItem(StorageKey);
        }
      }
    }

    /** The system's colour scheme changed (the media query listener). */
    method SystemDarkChanged(matches: bool)
      requires Valid()
      modifies this`dark
      ensures dark == matches && Valid()
    {
      dark := matches;
    }

    function GetTheme(): Option<string>
      reads this
    {
      theme
    }

    function IsDark(): bool
      reads this
    {
      IsDarkFor(theme, dark)
    }

    function Is(name: Option<string>): bool
      reads this
    {
      theme == name
    }

    function Color(): string
      reads this
    {
      ColorFor(IsDark())
    }
  }

  /** The static `Theme.instance_` slot. */
  class ThemeRegistry {
    var instance: Theme?

    /** The stored theme keeps its invariant. */
    predicate Valid()
      reads this, instance
    {
      instance != null ==> instance.Valid()
    }

    constructor()
      ensures instance == null && Valid()
    {
      instance := null;
    }

    /** `Theme.instance()`: creates the theme on the first call and returns
        that same theme on every later call. */
    method Instance(html: HtmlElement, storage: LocalStorage, systemDark: bool) returns (t: Theme)
      requires Valid()
      modifies this, html, storage
      ensures instance == t && Valid() && t.Valid()
      ensures old(instance) != null ==> t == old(instance) && unchanged(html, storage)
      ensures old(instance) == null ==> fresh(t) && t.html == html && t.storage == storage && t.dark == systemDark
      ensures old(instance) == null ==>
        t.Snapshot() == SetThemeSpec(View(None, old(html.attributes), old(storage.items)), old(storage.GetItem(StorageKey)))
    {
      var i := instance;
      if i == null {
        i := new Theme(html, storage, systemDark);
        instance := i;
      }
      t := i;
    }
  }

  /** A page starts with the given attributes, stored items and system
      scheme, and the user picks `name`. Afterwards `getTheme()` is what
      `name` selects, `is(name)` holds exactly when `name` is a theme or
      null, and `isDark` and `color` follow the pick, or the system's
      scheme when no theme is picked. */
  method ReadsAfterSetTheme(attributes: map<string, string>, items: map<string, string>, systemDark: bool,
                            name: Option<string>)
      returns (current: Option<string>, isName: bool, isDark: bool, color: string)
    ensures current == Selected(name)
    ensures isName <==> Selected(name) == name
    ensures isDark == (if name == Some(DarkName) then true else if name == Some(LightName) then false else systemDark)
    ensures color == (if isDark then "is-dark" else "is-light")
  {
    var html := new HtmlElement(attributes);
    var storage := new LocalStorage(items);
    var theme := new Theme(html, storage, systemDark);
    theme.SetTheme(name);
    current := theme.GetTheme();
    isName := theme.Is(name);
    isDark := theme.IsDark();
    color := theme.Color();
  }
}
