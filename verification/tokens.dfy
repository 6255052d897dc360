/** The closed sets of mode tokens of the three-state schema
    (src/lib/constants.ts). Each enumeration is a datatype, so a value outside
    its token set cannot be represented; the string token of each constructor
    is what the layout writes into attributes. */
module Tokens {
  import opened Options

  /** Theme: "light" or "dark". */
  datatype Theme = Light | Dark

  /** Header and footer mode: "base" or "hidden". */
  datatype BarMode = BarBase | BarHidden

  /** Sidebar and infobar mode: "base", "hidden" or "collapsed". */
  datatype PanelMode = PanelBase | PanelHidden | PanelCollapsed

  const ThemeTokens: set<string> := {"light", "dark"}
  const BarTokens: set<string> := {"base", "hidden"}
  const PanelTokens: set<string> := {"base", "hidden", "collapsed"}

  function ThemeToken(t: Theme): (s: string)
    ensures s in ThemeTokens
    ensures ParseTheme(s) == Some(t)
  {
    match t
    case Light => "light"
    case Dark => "dark"
  }

  function BarToken(b: BarMode): (s: string)
    ensures s in BarTokens
    ensures ParseBar(s) == Some(b)
  {
    match b
    case BarBase => "base"
    case BarHidden => "hidden"
  }

  function PanelToken(p: PanelMode): (s: string)
    ensures s in PanelTokens
    ensures ParsePanel(s) == Some(p)
  {
    match p
    case PanelBase => "base"
    case PanelHidden => "hidden"
    case PanelCollapsed => "collapsed"
  }

  /** Reads a theme token back; the inverse of `ThemeToken`. */
  function ParseTheme(s: string): (r: Option<Theme>)
    ensures r.Some? <==> s in ThemeTokens
  {
    if s == "light" then Some(Light)
    else if s == "dark" then Some(Dark)
    else None
  }

  function ParseBar(s: string): (r: Option<BarMode>)
    ensures r.Some? <==> s in BarTokens
  {
    if s == "base" then Some(BarBase)
    else if s == "hidden" then Some(BarHidden)
    else None
  }

  function ParsePanel(s: string): (r: Option<PanelMode>)
    ensures r.Some? <==> s in PanelTokens
  {
    if s == "base" then Some(PanelBase)
    else if s == "hidden" then Some(PanelHidden)
    else if s == "collapsed" then Some(PanelCollapsed)
    else None
  }

  /** Every token of an enumeration names exactly one constructor, and there
      are exactly two theme tokens, two header/footer tokens and three
      sidebar/infobar tokens. */
  lemma TokenSetsExact()
    ensures |ThemeTokens| == 2 && |BarTokens| == 2 && |PanelTokens| == 3
    ensures forall s :: s in ThemeTokens ==> ParseTheme(s).Some? && ThemeToken(ParseTheme(s).value) == s
    ensures forall s :: s in BarTokens ==> ParseBar(s).Some? && BarToken(ParseBar(s).value) == s
    ensures forall s :: s in PanelTokens ==> ParsePanel(s).Some? && PanelToken(ParsePanel(s).value) == s
  {
  }

  /** Distinct constructors have distinct tokens. */
  lemma TokensInjective()
    ensures forall a: Theme, b: Theme :: ThemeToken(a) == ThemeToken(b) ==> a == b
    ensures forall a: BarMode, b: BarMode :: BarToken(a) == BarToken(b) ==> a == b
    ensures forall a: PanelMode, b: PanelMode :: PanelToken(a) == PanelToken(b) ==> a == b
  {
    forall a: Theme, b: Theme | ThemeToken(a) == ThemeToken(b) ensures a == b {
      assert ParseTheme(ThemeToken(a)) == Some(a);
    }
    forall a: BarMode, b: BarMode | BarToken(a) == BarToken(b) ensures a == b {
      assert ParseBar(BarToken(a)) == Some(a);
    }
    forall a: PanelMode, b: PanelMode | PanelToken(a) == PanelToken(b) ensures a == b {
      assert ParsePanel(PanelToken(a)) == Some(a);
    }
  }
}
