/** The derived outputs of src/lib/utils.ts: the `data-*-mode` attribute map
    (`makeModeAttributes`) and the CSS-variable map (`calcStyles`), both pure
    functions of a snapshot of the provider state of
    src/structure/provider.tsx. */
module Derive {
  import opened Options
  import opened Tokens
  import opened Config
  import opened ModeMachine
  import Store

  const ThemeAttr: string := "data-theme-mode"
  const HeaderAttr: string := "data-header-mode"
  const FooterAttr: string := "data-footer-mode"
  const SidebarAttr: string := "data-sidebar-mode"
  const InfobarAttr: string := "data-infobar-mode"

  /** The attribute that exposes a mode field. */
  function AttrOf(f: ModeField): string
  {
    match f
    case ThemeField => ThemeAttr
    case HeaderField => HeaderAttr
    case FooterField => FooterAttr
    case SidebarField => SidebarAttr
    case InfobarField => InfobarAttr
  }

  /** `makeModeAttributes`: exactly five keys, each holding the current token
      of its field. */
  function ModeAttributes(s: Store.State): (attrs: map<string, string>)
    ensures attrs.Keys == {ThemeAttr, HeaderAttr, FooterAttr, SidebarAttr, InfobarAttr}
    ensures |attrs| == 5
    ensures forall f :: AttrOf(f) in attrs && attrs[AttrOf(f)] == ModeToken(s.modes, f)
  {
    var m := s.modes;
    map[ThemeAttr := ThemeToken(m.theme),
        HeaderAttr := BarToken(m.header),
        FooterAttr := BarToken(m.footer),
        SidebarAttr := PanelToken(m.sidebar),
        InfobarAttr := PanelToken(m.infobar)]
  }

  /** Reads modes back from an attribute map; `None` when a key is missing or
      holds a token outside its field's enumeration. */
  function ParseModeAttributes(attrs: map<string, string>): Option<Modes>
  {
    if ThemeAttr in attrs && HeaderAttr in attrs && FooterAttr in attrs && SidebarAttr in attrs && InfobarAttr in attrs then
      var t, h, f, sb, ib :=
        ParseTheme(attrs[ThemeAttr]), ParseBar(attrs[HeaderAttr]), ParseBar(attrs[FooterAttr]),
        ParsePanel(attrs[SidebarAttr]), ParsePanel(attrs[InfobarAttr]);
      if t.Some? && h.Some? && f.Some? && sb.Some? && ib.Some? then Some(Modes(t.value, h.value, f.value, sb.value, ib.value))
      else None
    else None
  }

  /** The attribute map loses nothing: the modes can be read back from it. */
  lemma ModeAttributesRoundTrip(s: Store.State)
    ensures ParseModeAttributes(ModeAttributes(s)) == Some(s.modes)
  {
    var attrs := ModeAttributes(s);
    assert attrs[ThemeAttr] == ThemeToken(s.modes.theme);
    assert attrs[HeaderAttr] == BarToken(s.modes.header);
    assert attrs[FooterAttr] == BarToken(s.modes.footer);
    assert attrs[SidebarAttr] == PanelToken(s.modes.sidebar);
    assert attrs[InfobarAttr] == PanelToken(s.modes.infobar);
  }

  const HeaderHeightVar: string := "--ll-header-height"
  const FooterHeightVar: string := "--ll-footer-height"
  const SidebarWidthVar: string := "--ll-sidebar-width"
  const InfobarWidthVar: string := "--ll-infobar-width"
  const TransitionVar: string := "--ll-transition-duration"

  /** The width of a three-state panel: nothing when hidden, the collapsed
      width when collapsed, the full width otherwise. */
  function PanelWidth(mode: PanelMode, width: string, collapsedWidth: string): (w: string)
    ensures mode == PanelHidden ==> w == ZeroLength
    ensures mode == PanelCollapsed ==> w == collapsedWidth
    ensures mode == PanelBase ==> w == width
  {
    if mode == PanelHidden then ZeroLength
    else if mode == PanelCollapsed then collapsedWidth
    else width
  }

  /** `calcStyles`: the five CSS variables. Heights are the configured value
      unless the region is hidden; widths take one of three branches; the
      transition duration passes through. */
  function CalcStyles(s: Store.State): (css: map<string, string>)
    ensures css.Keys == {HeaderHeightVar, FooterHeightVar, SidebarWidthVar, InfobarWidthVar, TransitionVar}
    ensures css[HeaderHeightVar] == (if IsHeaderHidden(s.modes) then ZeroLength else s.params.headerHeight)
    ensures css[FooterHeightVar] == (if IsFooterHidden(s.modes) then ZeroLength else s.params.footerHeight)
    ensures IsSidebarHidden(s.modes) ==> css[SidebarWidthVar] == ZeroLength
    ensures IsSidebarCollapsed(s.modes) ==> css[SidebarWidthVar] == s.params.sidebarCollapsedWidth
    ensures !IsSidebarHidden(s.modes) && !IsSidebarCollapsed(s.modes) ==> css[SidebarWidthVar] == s.params.sidebarWidth
    ensures IsInfobarHidden(s.modes) ==> css[InfobarWidthVar] == ZeroLength
    ensures IsInfobarCollapsed(s.modes) ==> css[InfobarWidthVar] == s.params.infobarCollapsedWidth
    ensures !IsInfobarHidden(s.modes) && !IsInfobarCollapsed(s.modes) ==> css[InfobarWidthVar] == s.params.infobarWidth
    ensures css[TransitionVar] == s.params.transitionDuration
  {
    var p := s.params;
    map[HeaderHeightVar := if IsHeaderHidden(s.modes) then ZeroLength else p.headerHeight,
        FooterHeightVar := if IsFooterHidden(s.modes) then ZeroLength else p.footerHeight,
        SidebarWidthVar := PanelWidth(s.modes.sidebar, p.sidebarWidth, p.sidebarCollapsedWidth),
        InfobarWidthVar := PanelWidth(s.modes.infobar, p.infobarWidth, p.infobarCollapsedWidth),
        TransitionVar := p.transitionDuration]
  }

  /** When the three candidate widths are distinct tokens, the sidebar width
      identifies the branch taken: zero iff hidden, the collapsed width iff
      collapsed, the full width iff neither. The infobar follows the same
      rule with its own parameters. */
  lemma WidthBranchesExclusive(s: Store.State)
    requires s.params.sidebarWidth != ZeroLength && s.params.sidebarCollapsedWidth != ZeroLength
    requires s.params.sidebarWidth != s.params.sidebarCollapsedWidth
    requires s.params.infobarWidth != ZeroLength && s.params.infobarCollapsedWidth != ZeroLength
    requires s.params.infobarWidth != s.params.infobarCollapsedWidth
    ensures CalcStyles(s)[SidebarWidthVar] == ZeroLength <==> IsSidebarHidden(s.modes)
    ensures CalcStyles(s)[SidebarWidthVar] == s.params.sidebarCollapsedWidth <==> IsSidebarCollapsed(s.modes)
    ensures CalcStyles(s)[SidebarWidthVar] == s.params.sidebarWidth <==> s.modes.sidebar == PanelBase
    ensures CalcStyles(s)[InfobarWidthVar] == ZeroLength <==> IsInfobarHidden(s.modes)
    ensures CalcStyles(s)[InfobarWidthVar] == s.params.infobarCollapsedWidth <==> IsInfobarCollapsed(s.modes)
    ensures CalcStyles(s)[InfobarWidthVar] == s.params.infobarWidth <==> s.modes.infobar == PanelBase
  {
  }

  /** Both derived maps are functions of modes and parameters alone: slot
      presence is never consulted, so two states that differ only in
      presence flags derive the same output. */
  lemma DerivedIgnoresPresence(s: Store.State, hasSlots: Store.HasSlots)
    ensures CalcStyles(s.(hasSlots := hasSlots)) == CalcStyles(s)
    ensures ModeAttributes(s.(hasSlots := hasSlots)) == ModeAttributes(s)
  {
  }

  /** Starting from `{modes: {theme: "dark"}}` with explicit sidebar widths:
      the theme is dark, the rest is at its default, the sidebar shows at full
      width; one collapse toggle collapses it to the collapsed width, and a
      second brings the full width back. */
  lemma DarkThemeScenario(w: string, cw: string)
    ensures var cfg := LayoutConfig(Some(NoModes.(theme := Some(Dark))),
                                    Some(NoParams.(sidebarWidth := Some(w), sidebarCollapsedWidth := Some(cw))));
      var s0 := Store.Init(Some(cfg));
      var s1 := Store.Step(s0, Store.ToggleOp(ToggleSidebarCollapsed));
      var s2 := Store.Step(s1, Store.ToggleOp(ToggleSidebarCollapsed));
      && s0.modes == DefaultModes.(theme := Dark)
      && s0.params.headerHeight == ZeroLength
      && s0.params.transitionDuration == DefaultTransition
      && CalcStyles(s0)[SidebarWidthVar] == w
      && IsSidebarCollapsed(s1.modes) && CalcStyles(s1)[SidebarWidthVar] == cw
      && !IsSidebarCollapsed(s2.modes) && CalcStyles(s2)[SidebarWidthVar] == w
  {
  }

  /** Toggling a region's visibility moves its size between the configured
      value and zero: the header height alternates with each toggle, and the
      sidebar visibility toggle always lands on either zero or the full width,
      never the collapsed width. */
  lemma VisibilityTogglesAndSizes(s: Store.State)
    ensures var s' := Store.Step(s, Store.ToggleOp(ToggleHeaderVisible));
      CalcStyles(s')[HeaderHeightVar] == (if IsHeaderHidden(s.modes) then s.params.headerHeight else ZeroLength)
    ensures var s' := Store.Step(s, Store.ToggleOp(ToggleSidebarVisible));
      CalcStyles(s')[SidebarWidthVar] == (if IsSidebarHidden(s.modes) then s.params.sidebarWidth else ZeroLength)
  {
  }
}
