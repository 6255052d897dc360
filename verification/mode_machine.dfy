/** The mode state machine shared by both three-state providers
    (src/structure/provider.tsx and src/structure/layout-provider.tsx):
    one boolean predicate per togglable concern, the one-field update
    `setMode`, and the seven toggles, each of which reads one predicate and
    writes one field through `setMode`. */
module ModeMachine {
  import opened Tokens
  import opened Config

  /** The names of the mode fields (`keyof LayoutModes`). */
  datatype ModeField = ThemeField | HeaderField | FooterField | SidebarField | InfobarField

  /** The token stored under a field: `modes[field]`. */
  function ModeToken(m: Modes, f: ModeField): string
  {
    match f
    case ThemeField => ThemeToken(m.theme)
    case HeaderField => BarToken(m.header)
    case FooterField => BarToken(m.footer)
    case SidebarField => PanelToken(m.sidebar)
    case InfobarField => PanelToken(m.infobar)
  }

  /** Modes that store the same token under every field are equal. */
  lemma ModesExtensional(a: Modes, b: Modes)
    requires forall f :: ModeToken(a, f) == ModeToken(b, f)
    ensures a == b
  {
    TokensInjective();
    assert ModeToken(a, ThemeField) == ModeToken(b, ThemeField);
    assert ModeToken(a, HeaderField) == ModeToken(b, HeaderField);
    assert ModeToken(a, FooterField) == ModeToken(b, FooterField);
    assert ModeToken(a, SidebarField) == ModeToken(b, SidebarField);
    assert ModeToken(a, InfobarField) == ModeToken(b, InfobarField);
  }

  // The seven predicates; each compares one field with one token.
  predicate IsThemeDark(m: Modes) { m.theme == Dark }
  predicate IsHeaderHidden(m: Modes) { m.header == BarHidden }
  predicate IsFooterHidden(m: Modes) { m.footer == BarHidden }
  predicate IsSidebarHidden(m: Modes) { m.sidebar == PanelHidden }
  predicate IsSidebarCollapsed(m: Modes) { m.sidebar == PanelCollapsed }
  predicate IsInfobarHidden(m: Modes) { m.infobar == PanelHidden }
  predicate IsInfobarCollapsed(m: Modes) { m.infobar == PanelCollapsed }

  /** A sidebar or infobar held in one three-state field is never hidden and
      collapsed at once; each predicate is decided by its own field alone. */
  lemma HiddenCollapsedExclusive(m: Modes)
    ensures !(IsSidebarHidden(m) && IsSidebarCollapsed(m))
    ensures !(IsInfobarHidden(m) && IsInfobarCollapsed(m))
    ensures IsSidebarHidden(m) <==> ModeToken(m, SidebarField) == "hidden"
    ensures IsSidebarCollapsed(m) <==> ModeToken(m, SidebarField) == "collapsed"
    ensures IsInfobarHidden(m) <==> ModeToken(m, InfobarField) == "hidden"
    ensures IsInfobarCollapsed(m) <==> ModeToken(m, InfobarField) == "collapsed"
    ensures IsThemeDark(m) <==> ModeToken(m, ThemeField) == "dark"
    ensures IsHeaderHidden(m) <==> ModeToken(m, HeaderField) == "hidden"
    ensures IsFooterHidden(m) <==> ModeToken(m, FooterField) == "hidden"
  {
  }

  /** A `setMode(field, value)` call; the value is typed by its field. */
  datatype ModeSetting =
    | SetTheme(theme: Theme)
    | SetHeader(header: BarMode)
    | SetFooter(footer: BarMode)
    | SetSidebar(sidebar: PanelMode)
    | SetInfobar(infobar: PanelMode)
  {
    function Field(): ModeField
    {
      match this
      case SetTheme(_) => ThemeField
      case SetHeader(_) => HeaderField
      case SetFooter(_) => FooterField
      case SetSidebar(_) => SidebarField
      case SetInfobar(_) => InfobarField
    }

    function Token(): string
    {
      match this
      case SetTheme(t) => ThemeToken(t)
      case SetHeader(b) => BarToken(b)
      case SetFooter(b) => BarToken(b)
      case SetSidebar(p) => PanelToken(p)
      case SetInfobar(p) => PanelToken(p)
    }
  }

  /** `{ ...prev, [mode]: value }`: the named field takes the value and every
      other field keeps its token. */
  function SetMode(m: Modes, s: ModeSetting): (r: Modes)
    ensures ModeToken(r, s.Field()) == s.Token()
    ensures forall f :: f != s.Field() ==> ModeToken(r, f) == ModeToken(m, f)
  {
    match s
    case SetTheme(t) => m.(theme := t)
    case SetHeader(b) => m.(header := b)
    case SetFooter(b) => m.(footer := b)
    case SetSidebar(p) => m.(sidebar := p)
    case SetInfobar(p) => m.(infobar := p)
  }

  /** Setting a field to the token it already holds changes nothing, and a
      second setting of the same field overrides the first. */
  lemma SetModeLaws(m: Modes, s: ModeSetting, s': ModeSetting)
    ensures ModeToken(m, s.Field()) == s.Token() ==> SetMode(m, s) == m
    ensures s'.Field() == s.Field() ==> SetMode(SetMode(m, s), s') == SetMode(m, s')
  {
    if ModeToken(m, s.Field()) == s.Token() {
      ModesExtensional(SetMode(m, s), m);
    }
    if s'.Field() == s.Field() {
      ModesExtensional(SetMode(SetMode(m, s), s'), SetMode(m, s'));
    }
  }

  /** The seven toggles. */
  datatype Toggle =
    | ToggleTheme
    | ToggleHeaderVisible
    | ToggleFooterVisible
    | ToggleSidebarVisible
    | ToggleSidebarCollapsed
    | ToggleInfobarVisible
    | ToggleInfobarCollapsed
  {
    /** The field the toggle writes. */
    function Target(): ModeField
    {
      match this
      case ToggleTheme => ThemeField
      case ToggleHeaderVisible => HeaderField
      case ToggleFooterVisible => FooterField
      case ToggleSidebarVisible | ToggleSidebarCollapsed => SidebarField
      case ToggleInfobarVisible | ToggleInfobarCollapsed => InfobarField
    }

    /** True for the toggles of two-token fields. */
    predicate IsBinary()
    {
      ToggleTheme? || ToggleHeaderVisible? || ToggleFooterVisible?
    }
  }

  /** The predicate a toggle consults before writing. */
  predicate Reads(t: Toggle, m: Modes)
  {
    match t
    case ToggleTheme => IsThemeDark(m)
    case ToggleHeaderVisible => IsHeaderHidden(m)
    case ToggleFooterVisible => IsFooterHidden(m)
    case ToggleSidebarVisible => IsSidebarHidden(m)
    case ToggleSidebarCollapsed => IsSidebarCollapsed(m)
    case ToggleInfobarVisible => IsInfobarHidden(m)
    case ToggleInfobarCollapsed => IsInfobarCollapsed(m)
  }

  /** The token a three-state toggle never writes: a visibility toggle never
      collapses, a collapse toggle never hides. */
  function Avoided(t: Toggle): PanelMode
  {
    match t
    case ToggleSidebarVisible | ToggleInfobarVisible => PanelCollapsed
    case _ => PanelHidden
  }

  function PanelOf(m: Modes, f: ModeField): PanelMode
  {
    if f == SidebarField then m.sidebar else m.infobar
  }

  /** `setMode(field, predicate ? base : target)`, e.g.
      `setMode("sidebar", isSidebarHidden ? "base" : "hidden")`. Every toggle
      negates the predicate it reads, writes only its own field, and a
      three-state toggle never lands on the token of the other toggle. */
  function ApplyToggle(m: Modes, t: Toggle): (r: Modes)
    ensures Reads(t, r) == !Reads(t, m)
    ensures forall f :: f != t.Target() ==> ModeToken(r, f) == ModeToken(m, f)
    ensures !t.IsBinary() ==> PanelOf(r, t.Target()) != Avoided(t)
  {
    match t
    case ToggleTheme => SetMode(m, SetTheme(if IsThemeDark(m) then Light else Dark))
    case ToggleHeaderVisible => SetMode(m, SetHeader(if IsHeaderHidden(m) then BarBase else BarHidden))
    case ToggleFooterVisible => SetMode(m, SetFooter(if IsFooterHidden(m) then BarBase else BarHidden))
    case ToggleSidebarVisible => SetMode(m, SetSidebar(if IsSidebarHidden(m) then PanelBase else PanelHidden))
    case ToggleSidebarCollapsed => SetMode(m, SetSidebar(if IsSidebarCollapsed(m) then PanelBase else PanelCollapsed))
    case ToggleInfobarVisible => SetMode(m, SetInfobar(if IsInfobarHidden(m) then PanelBase else PanelHidden))
    case ToggleInfobarCollapsed => SetMode(m, SetInfobar(if IsInfobarCollapsed(m) then PanelBase else PanelCollapsed))
  }

  /** The contract of `ApplyToggle` determines its result: any modes that
      negate the read predicate, keep the other fields and avoid the other
      toggle's token are the toggled modes. */
  lemma ToggleContractComplete(m: Modes, t: Toggle, r: Modes)
    requires Reads(t, r) == !Reads(t, m)
    requires forall f :: f != t.Target() ==> ModeToken(r, f) == ModeToken(m, f)
    requires !t.IsBinary() ==> PanelOf(r, t.Target()) != Avoided(t)
    ensures r == ApplyToggle(m, t)
  {
    var a := ApplyToggle(m, t);
    forall f ensures ModeToken(r, f) == ModeToken(a, f) {
      if f == t.Target() {
        match t
        case ToggleTheme =>
        case ToggleHeaderVisible =>
        case ToggleFooterVisible =>
        case ToggleSidebarVisible =>
        case ToggleSidebarCollapsed =>
        case ToggleInfobarVisible =>
        case ToggleInfobarCollapsed =>
      }
    }
    ModesExtensional(r, a);
  }

  /** The theme, header and footer toggles are involutions from every state. */
  lemma BinaryToggleInvolution(m: Modes, t: Toggle)
    requires t.IsBinary()
    ensures ApplyToggle(ApplyToggle(m, t), t) == m
  {
  }

  /** The visibility toggle of a three-state region maps hidden to base and
      everything else, collapsed included, to hidden; the collapse toggle maps
      collapsed to base and everything else, hidden included, to collapsed. */
  lemma PanelToggleTable(m: Modes)
    ensures ApplyToggle(m, ToggleSidebarVisible).sidebar == (if m.sidebar == PanelHidden then PanelBase else PanelHidden)
    ensures ApplyToggle(m, ToggleSidebarCollapsed).sidebar == (if m.sidebar == PanelCollapsed then PanelBase else PanelCollapsed)
    ensures ApplyToggle(m, ToggleInfobarVisible).infobar == (if m.infobar == PanelHidden then PanelBase else PanelHidden)
    ensures ApplyToggle(m, ToggleInfobarCollapsed).infobar == (if m.infobar == PanelCollapsed then PanelBase else PanelCollapsed)
  {
  }

  /** A three-state toggle applied twice restores the state exactly when the
      field did not start on the other toggle's token; from that token
      (collapsed for a visibility toggle, hidden for a collapse toggle) two
      toggles end at base. */
  lemma PanelToggleTwice(m: Modes, t: Toggle)
    requires !t.IsBinary()
    ensures ApplyToggle(ApplyToggle(m, t), t) == m <==> PanelOf(m, t.Target()) != Avoided(t)
    ensures PanelOf(m, t.Target()) == Avoided(t) ==> PanelOf(ApplyToggle(ApplyToggle(m, t), t), t.Target()) == PanelBase
  {
  }

  /** Concretely: a collapsed sidebar toggled hidden and back shows at base. */
  lemma CollapsedSidebarVisibleTwice(m: Modes)
    requires IsSidebarCollapsed(m)
    ensures ApplyToggle(m, ToggleSidebarVisible).sidebar == PanelHidden
    ensures ApplyToggle(ApplyToggle(m, ToggleSidebarVisible), ToggleSidebarVisible).sidebar == PanelBase
    ensures ApplyToggle(ApplyToggle(m, ToggleSidebarVisible), ToggleSidebarVisible) != m
  {
  }
}
