/** The light/dark theme switch: the `data-theme` attribute of the document element, the
    `theme` key of local storage and the icon of the toggle button, changed by `setTheme`
    on page load, on a click of the button and on a change of the system colour scheme. */
module Theme {
  import opened JsText

  /** The `<i>` inside the toggle button. */
  datatype Icon = Icon(className: string, title: string)

  const MoonIcon: Icon := Icon("fas fa-moon", "Переключить на темную тему")
  const SunIcon: Icon := Icon("fas fa-sun", "Переключить на светлую тему")
  /** The icon as the button is created, before any theme is set. */
  const InitialIcon: Icon := Icon("fas fa-moon", "")

  /** What the page shows and stores about the theme, and whether the DOMContentLoaded
      handler has run and so registered the click and colour-scheme listeners. */
  datatype ThemeView = ThemeView(attribute: Option<string>, stored: Option<string>, icon: Icon, loaded: bool)

  datatype ThemeEvent =
    | Ready(systemDark: bool)     // DOMContentLoaded, with the `prefers-color-scheme: dark` match
    | ToggleClick                 // a click on the toggle button
    | SystemChange(matches: bool) // the colour-scheme media query changed

  /** A string that JavaScript treats as true: present and non-empty. */
  predicate Truthy(s: Option<string>) {
    s.Some? && s.value != ""
  }

  /** `getPreferredTheme()`: the stored theme if any, otherwise the system's scheme. */
  function PreferredTheme(stored: Option<string>, systemDark: bool): (t: string)
    ensures t != ""
    ensures Truthy(stored) ==> t == stored.value
    ensures !Truthy(stored) ==> (t == "dark" <==> systemDark) && (t == "light" <==> !systemDark)
  {
    if Truthy(stored) then stored.value else if systemDark then "dark" else "light"
  }

  /** The theme `toggleTheme()` switches to: a missing or empty attribute counts as 'dark'. */
  function ToggledTheme(attribute: Option<string>): (t: string)
    ensures t == "light" || t == "dark"
    ensures t == "light" <==> !Truthy(attribute) || attribute.value == "dark"
  {
    var current := if Truthy(attribute) then attribute.value else "dark";
    if current == "dark" then "light" else "dark"
  }

  function IconFor(theme: string): Icon {
    if theme == "light" then MoonIcon else SunIcon
  }

  /** The view after `setTheme(theme)`. */
  function WithTheme(v: ThemeView, theme: string): (w: ThemeView)
    ensures w.attribute == Some(theme) && w.stored == Some(theme)
    ensures w.icon == MoonIcon <==> theme == "light"
    ensures w.icon == SunIcon <==> theme != "light"
    ensures w.loaded == v.loaded
  {
    ThemeView(Some(theme), Some(theme), IconFor(theme), v.loaded)
  }

  /** The effect of one event on the view. The click and colour-scheme listeners exist
      only once the DOMContentLoaded handler has run, so before that those events do
      nothing. */
  function Step(v: ThemeView, e: ThemeEvent): (w: ThemeView)
    ensures !v.loaded && !e.Ready? ==> w == v
    ensures e.SystemChange? && Truthy(v.stored) ==> w == v
    ensures e.Ready? || (v.loaded && !(e.SystemChange? && Truthy(v.stored))) ==>
              && Truthy(w.stored) && w.attribute == w.stored
              && (w.icon == MoonIcon <==> w.attribute == Some("light"))
    ensures v.loaded && e.ToggleClick? ==> w.attribute != v.attribute
    ensures Truthy(v.stored) ==> Truthy(w.stored)
    ensures w.loaded == (v.loaded || e.Ready?)
  {
    match e
    case Ready(systemDark) => WithTheme(v.(loaded := true), PreferredTheme(v.stored, systemDark))
    case ToggleClick => if v.loaded then WithTheme(v, ToggledTheme(v.attribute)) else v
    case SystemChange(matches) =>
      if v.loaded && !Truthy(v.stored) then WithTheme(v, if matches then "dark" else "light") else v
  }

  function Run(v: ThemeView, es: seq<ThemeEvent>): ThemeView
    decreases |es|
  {
    if es == [] then v else Run(Step(v, es[0]), es[1..])
  }

  /** Before page load, clicks and colour-scheme changes leave the view as it was. */
  lemma {:induction false} EarlyEventsIgnored(v: ThemeView, es: seq<ThemeEvent>)
    requires !v.loaded
    requires forall k :: 0 <= k < |es| ==> !es[k].Ready?
    ensures Run(v, es) == v
    decreases |es|
  {
    if es != [] {
      EarlyEventsIgnored(Step(v, es[0]), es[1..]);
    }
  }

  /** A click before page load is lost: with nothing stored and a dark system scheme,
      the page still ends on 'dark'. */
  lemma ClickBeforeLoadIgnored()
    ensures Run(ThemeView(None, None, InitialIcon, false), [ToggleClick, Ready(true)]).attribute == Some("dark")
  {
    var v := ThemeView(None, None, InitialIcon, false);
    assert Step(v, ToggleClick) == v;
    assert [ToggleClick, Ready(true)][1..] == [Ready(true)];
  }

  /** Once a theme is stored, a change of the system's colour scheme changes nothing. */
  lemma SystemChangeIgnoredWhenStored(v: ThemeView, matches: bool)
    requires Truthy(v.stored)
    ensures Step(v, SystemChange(matches)) == v
  {
  }

  /** Once a theme is stored it stays non-empty, whatever events follow, so system
      colour-scheme changes never alter the theme from then on; and once the listeners
      are registered they stay registered. */
  lemma {:induction false} StoredStaysSet(v: ThemeView, es: seq<ThemeEvent>)
    requires Truthy(v.stored)
    ensures Truthy(Run(v, es).stored)
    ensures v.loaded ==> Run(v, es).loaded
    ensures forall m :: Step(Run(v, es), SystemChange(m)) == Run(v, es)
    decreases |es|
  {
    if es != [] {
      StoredStaysSet(Step(v, es[0]), es[1..]);
    }
  }

  /** After page load, whatever events follow, a theme is stored, the listeners are
      registered and a colour-scheme change does nothing. */
  lemma AfterPageLoad(v: ThemeView, systemDark: bool, es: seq<ThemeEvent>)
    ensures var u := Run(Step(v, Ready(systemDark)), es);
            Truthy(u.stored) && u.loaded && forall m :: Step(u, SystemChange(m)) == u
  {
    StoredStaysSet(Step(v, Ready(systemDark)), es);
  }

  /** Page load leaves a non-empty stored theme, equal to the attribute. */
  lemma ReadyStores(v: ThemeView, systemDark: bool)
    ensures Truthy(Step(v, Ready(systemDark)).stored)
    ensures Step(v, Ready(systemDark)).stored == Step(v, Ready(systemDark)).attribute
  {
  }

  /** From 'light' or 'dark', two clicks restore the attribute, the stored key and the icon. */
  lemma ToggleTwice(v: ThemeView)
    requires v.attribute == v.stored && (v.attribute == Some("light") || v.attribute == Some("dark"))
    requires v.icon == IconFor(v.attribute.value)
    ensures Run(v, [ToggleClick, ToggleClick]) == v
  {
    assert [ToggleClick, ToggleClick][1..] == [ToggleClick];
  }

  /** The document element, local storage and the toggle button, with whether the
      button's click listener and the media query's change listener are registered. */
  class ThemePage {
    var dataTheme: Option<string>
    var storedTheme: Option<string>
    var icon: Icon
    var listening: bool

    constructor (dataTheme: Option<string>, storedTheme: Option<string>)
      ensures View() == ThemeView(dataTheme, storedTheme, InitialIcon, false)
    {
      this.dataTheme := dataTheme;
      this.storedTheme := storedTheme;
      this.icon := InitialIcon;
      this.listening := false;
    }

    function View(): ThemeView
      reads this
    {
      ThemeView(dataTheme, storedTheme, icon, listening)
    }

    /** `setTheme(theme)`. */
    method SetTheme(theme: string)
      modifies this
      ensures View() == WithTheme(old(View()), theme)
    {
      dataTheme := Some(theme);
      if theme == "light" {
        icon := MoonIcon;
      } else {
        icon := SunIcon;
      }
      storedTheme := Some(theme);
    }

    /** `toggleTheme()`. */
    method ToggleTheme()
      modifies this
      ensures View() == WithTheme(old(View()), ToggledTheme(old(dataTheme)))
    {
      var current := if Truthy(dataTheme) then dataTheme.value else "dark";
      var newTheme := if current == "dark" then "light" else "dark";
      SetTheme(newTheme);
    }

    /** A click on the button: `toggleTheme()` runs once its listener is registered. */
    method OnClick()
      modifies this
      ensures View() == Step(old(View()), ToggleClick)
    {
      if listening {
        ToggleTheme();
      }
    }

    /** The DOMContentLoaded listener: applies the preferred theme and registers the
        two listeners. */
    method Init(systemDark: bool)
      modifies this
      ensures View() == Step(old(View()), Ready(systemDark))
    {
      var preferred := if Truthy(storedTheme) then storedTheme.value
                       else if systemDark then "dark" else "light";
      SetTheme(preferred);
      listening := true;
    }

    /** A change of the `prefers-color-scheme: dark` media query, seen by its `change`
        listener once that is registered. */
    method OnSystemChange(matches: bool)
      modifies this
      ensures View() == Step(old(View()), SystemChange(matches))
    {
      if listening && !Truthy(storedTheme) {
        SetTheme(if matches then "dark" else "light");
      }
    }
  }
}
