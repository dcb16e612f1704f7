/** The enumerations of the site configuration: template types and themes. */
module Types {
  import opened Wrappers

  datatype TemplateType = Landing | Hero

  /** The name a configuration stores for a template type. */
  function TemplateName(t: TemplateType): string {
    match t
    case Landing => "landing"
    case Hero => "hero"
  }

  datatype Theme = Basic | Comparison | Technology | Finance | Creative | Professional | Ecommerce | Terminal

  /** The name a configuration stores for a theme. */
  function ThemeName(t: Theme): string {
    match t
    case Basic => "basic"
    case Comparison => "comparison"
    case Technology => "technology"
    case Finance => "finance"
    case Creative => "creative"
    case Professional => "professional"
    case Ecommerce => "ecommerce"
    case Terminal => "terminal"
  }

  /** The theme a stored name stands for, if any. */
  function ThemeNamed(s: string): (r: Option<Theme>)
    ensures r.Some? ==> ThemeName(r.value) == s
  {
    if s == "basic" then Some(Basic)
    else if s == "comparison" then Some(Comparison)
    else if s == "technology" then Some(Technology)
    else if s == "finance" then Some(Finance)
    else if s == "creative" then Some(Creative)
    else if s == "professional" then Some(Professional)
    else if s == "ecommerce" then Some(Ecommerce)
    else if s == "terminal" then Some(Terminal)
    else None
  }

  /** Every theme's name reads back as that theme. */
  lemma ThemeNameRoundTrip(t: Theme)
    ensures ThemeNamed(ThemeName(t)) == Some(t)
  {
  }
}
