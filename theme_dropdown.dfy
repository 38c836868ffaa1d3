/**
  The theme menu (frontend/components/theme-dropdown.tsx): the three UI
  themes, the name each is stored under, and the label and icon the menu
  shows for the current theme.
  */
module ThemeDropdown {
  import opened Wrappers
  import opened Types

  /** The themes the menu offers, as the theme provider names them. */
  datatype UiTheme = Light | Dark | System

  function UiThemeName(u: UiTheme): string {
    match u
    case Light => "light"
    case Dark => "dark"
    case System => "system"
  }

  /** `dbTheme`: "system" is stored as "auto"; light and dark keep their
      names. */
  function DbTheme(u: UiTheme): (t: ThemePref)
    ensures t.AutoTheme? <==> u.System?
    ensures !u.System? ==> ThemePrefName(t) == UiThemeName(u)
  {
    match u
    case Light => LightTheme
    case Dark => DarkTheme
    case System => AutoTheme
  }

  /** No two UI themes are stored under the same name. */
  lemma DbThemeInjective(u: UiTheme, v: UiTheme)
    ensures ThemePrefName(DbTheme(u)) == ThemePrefName(DbTheme(v)) ==> u == v
  {
    EnumRoundTrips(TopicChoice, Article, Concise, DbTheme(u), SavedLearning);
    EnumRoundTrips(TopicChoice, Article, Concise, DbTheme(v), SavedLearning);
  }

  /** `currentLabel()` for the provider's current theme (`None` before it
      is known). */
  function Label(theme: Option<string>): (r: string)
    ensures r == "Light" <==> theme == Some("light")
    ensures r == "Dark" <==> theme == Some("dark")
    ensures r == "Auto" <==> theme != Some("light") && theme != Some("dark")
  {
    if theme == Some("light") then "Light"
    else if theme == Some("dark") then "Dark"
    else "Auto"
  }

  datatype Icon = Sun | Moon | Monitor

  /** `currentIcon()` */
  function CurrentIcon(theme: Option<string>): (r: Icon)
    ensures r == Sun <==> Label(theme) == "Light"
    ensures r == Moon <==> Label(theme) == "Dark"
    ensures r == Monitor <==> Label(theme) == "Auto"
  {
    if theme == Some("light") then Sun
    else if theme == Some("dark") then Moon
    else Monitor
  }
}
