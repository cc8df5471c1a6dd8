/** The light/dark theme rules shared by the landing page and the dashboard:
    which theme a stored preference selects, what the toggle button switches
    to, and which icon the button shows. */
module Theme {
  import opened Records

  const Light := "light"
  const Dark := "dark"

  /** The storage key the preference is persisted under. */
  const ThemeKey := "theme"

  /** The icon shown on the toggle: a sun while dark (click for light), a
      moon otherwise. */
  datatype Icon = Sun | Moon

  function IconFor(theme: string): (icon: Icon)
    ensures icon == Sun <==> theme == Dark
  {
    if theme == Dark then Sun else Moon
  }

  /** `localStorage.getItem('theme') || 'light'`: a missing key and a stored
      empty string (both falsy) fall back to light; any other stored string,
      recognised or not, is used as it is. */
  function SavedTheme(storage: map<string, string>): (theme: string)
    ensures ThemeKey in storage && storage[ThemeKey] != "" ==> theme == storage[ThemeKey]
    ensures ThemeKey !in storage || storage[ThemeKey] == "" ==> theme == Light
    ensures theme != ""
  {
    if ThemeKey in storage && storage[ThemeKey] != "" then storage[ThemeKey] else Light
  }

  /** The click handler's rule on the current `data-theme` attribute (None
      when the attribute is not set): dark goes to light, everything else
      goes to dark. */
  function Toggle(current: Option<string>): (next: string)
    ensures next == Light <==> current == Some(Dark)
    ensures next == Dark <==> current != Some(Dark)
  {
    if current == Some(Dark) then Light else Dark
  }

  /** The toggle always lands on one of the two themes and always changes
      the attribute. */
  lemma ToggleChanges(current: Option<string>)
    ensures Toggle(current) in {Light, Dark}
    ensures current != Some(Toggle(current))
  {
  }

  /** Two clicks restore a recognised theme; an unrecognised attribute value
      is replaced by dark after one click, and the pair of themes is then
      cycled. */
  lemma ToggleTwice(current: Option<string>)
    ensures current in {Some(Light), Some(Dark)} ==> Toggle(Some(Toggle(current))) == current.value
    ensures current !in {Some(Light), Some(Dark)} ==> Toggle(Some(Toggle(current))) == Light
  {
  }
}
