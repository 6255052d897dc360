/** The legacy split schema (src/provider.tsx, with the constants and
    `normalizeConfig` bundled in dist/index.js): every region carries an
    independent visible/hidden field and, for the sidebar and infobar, an
    independent collapsed/expanded field, and the slots include a mandatory
    content slot and a sidebar record of three sub-slots. Because the two
    fields of a region are independent, a region can be hidden and collapsed
    at the same time, which the three-state schema cannot express. */
module SplitSchema {
  import opened Options
  import opened Tokens
  import opened Slots
  import ModeMachine

  /** "visible" or "hidden". */
  datatype Visibility = Visible | Hidden

  /** "collapsed" or "expanded". */
  datatype Collapse = Collapsed | Expanded

  function VisibilityToken(v: Visibility): (s: string)
    ensures s == "visible" || s == "hidden"
    ensures ParseVisibility(s) == Some(v)
  {
    match v
    case Visible => "visible"
    case Hidden => "hidden"
  }

  function CollapseToken(c: Collapse): (s: string)
    ensures s == "collapsed" || s == "expanded"
    ensures ParseCollapse(s) == Some(c)
  {
    match c
    case Collapsed => "collapsed"
    case Expanded => "expanded"
  }

  function ParseVisibility(s: string): (r: Option<Visibility>)
    ensures r.Some? <==> s == "visible" || s == "hidden"
  {
    if s == "visible" then Some(Visible) else if s == "hidden" then Some(Hidden) else None
  }

  function ParseCollapse(s: string): (r: Option<Collapse>)
    ensures r.Some? <==> s == "collapsed" || s == "expanded"
  {
    if s == "collapsed" then Some(Collapsed) else if s == "expanded" then Some(Expanded) else None
  }

  datatype SplitModes = SplitModes(
    theme: Theme,
    headerVisible: Visibility,
    footerVisible: Visibility,
    sidebarVisible: Visibility,
    sidebarCollapsed: Collapse,
    infobarVisible: Visibility,
    infobarCollapsed: Collapse)

  datatype SplitField =
    | ThemeField | HeaderVisibleField | FooterVisibleField
    | SidebarVisibleField | SidebarCollapsedField
    | InfobarVisibleField | InfobarCollapsedField

  /** `getMode(mode)`: `modes[mode] ?? null`; every field of normalized modes
      holds a token, so the result is never `null` here. */
  function GetMode(m: SplitModes, f: SplitField): (r: string)
    ensures f == ThemeField ==> ParseTheme(r) == Some(m.theme)
    ensures f == HeaderVisibleField ==> ParseVisibility(r) == Some(m.headerVisible)
    ensures f == FooterVisibleField ==> ParseVisibility(r) == Some(m.footerVisible)
    ensures f == SidebarVisibleField ==> ParseVisibility(r) == Some(m.sidebarVisible)
    ensures f == SidebarCollapsedField ==> ParseCollapse(r) == Some(m.sidebarCollapsed)
    ensures f == InfobarVisibleField ==> ParseVisibility(r) == Some(m.infobarVisible)
    ensures f == InfobarCollapsedField ==> ParseCollapse(r) == Some(m.infobarCollapsed)
  {
    match f
    case ThemeField => ThemeToken(m.theme)
    case HeaderVisibleField => VisibilityToken(m.headerVisible)
    case FooterVisibleField => VisibilityToken(m.footerVisible)
    case SidebarVisibleField => VisibilityToken(m.sidebarVisible)
    case SidebarCollapsedField => CollapseToken(m.sidebarCollapsed)
    case InfobarVisibleField => VisibilityToken(m.infobarVisible)
    case InfobarCollapsedField => CollapseToken(m.infobarCollapsed)
  }

  lemma SplitModesExtensional(a: SplitModes, b: SplitModes)
    requires forall f :: GetMode(a, f) == GetMode(b, f)
    ensures a == b
  {
    TokensInjective();
    assert GetMode(a, ThemeField) == GetMode(b, ThemeField);
    assert ParseVisibility(GetMode(a, HeaderVisibleField)) == ParseVisibility(GetMode(b, HeaderVisibleField));
    assert ParseVisibility(GetMode(a, FooterVisibleField)) == ParseVisibility(GetMode(b, FooterVisibleField));
    assert ParseVisibility(GetMode(a, SidebarVisibleField)) == ParseVisibility(GetMode(b, SidebarVisibleField));
    assert ParseCollapse(GetMode(a, SidebarCollapsedField)) == ParseCollapse(GetMode(b, SidebarCollapsedField));
    assert ParseVisibility(GetMode(a, InfobarVisibleField)) == ParseVisibility(GetMode(b, InfobarVisibleField));
    assert ParseCollapse(GetMode(a, InfobarCollapsedField)) == ParseCollapse(GetMode(b, InfobarCollapsedField));
  }

  /** The sidebar's sub-slots. */
  datatype SubSlots = SubSlots(header: Node, body: Node, footer: Node)

  const EmptySubSlots: SubSlots := SubSlots(Null, Null, Null)

  function Sub(s: SubSlots, k: SidebarSlotName): Node
  {
    match k
    case SidebarHeader => s.header
    case SidebarBody => s.body
    case SidebarFooter => s.footer
  }

  /** The slots; `sidebar` is `None` when it has been set to `null`. */
  datatype SplitSlots = SplitSlots(header: Node, sidebar: Option<SubSlots>, content: Node, infobar: Node, footer: Node)

  /** The slots other than the sidebar record. */
  datatype PlainSlot = HeaderSlot | ContentSlot | InfobarSlot | FooterSlot

  datatype SplitState = SplitState(modes: SplitModes, slots: SplitSlots)

  datatype PartialSplitModes = PartialSplitModes(
    theme: Option<Theme>,
    headerVisible: Option<Visibility>,
    footerVisible: Option<Visibility>,
    sidebarVisible: Option<Visibility>,
    sidebarCollapsed: Option<Collapse>,
    infobarVisible: Option<Visibility>,
    infobarCollapsed: Option<Collapse>)

  /** A configuration: both sections optional. A slot the caller left out is
      `Null`, so the slots section has the shape of `SplitSlots`. */
  datatype SplitConfig = SplitConfig(modes: Option<PartialSplitModes>, slots: Option<SplitSlots>)

  const NoSplitModes: PartialSplitModes := PartialSplitModes(None, None, None, None, None, None, None)
  const NoSplitSlots: SplitSlots := SplitSlots(Null, None, Null, Null, Null)

  /** The defaults: light theme, every region visible, and both collapsible
      regions collapsed (not expanded). */
  const DefaultSplitModes: SplitModes := SplitModes(Light, Visible, Visible, Visible, Collapsed, Visible, Collapsed)

  /** `normalizeConfig`: `config`, `modes`, `slots` and `slots.sidebar` each
      `?? {}`, then every field `?? default` and every slot `?? null`. */
  function NormalizeSplit(config: Option<SplitConfig>): (st: SplitState)
    ensures config.None? ==> st.modes == DefaultSplitModes
    ensures config.Some? && config.value.modes.None? ==> st.modes == DefaultSplitModes
    ensures config.Some? && config.value.modes.Some? ==> SplitModesAgree(config.value.modes.value, st.modes)
    ensures st.slots.sidebar.Some?
    ensures config.None? || config.value.slots.None? ==> st.slots == SplitSlots(Null, Some(EmptySubSlots), Null, Null, Null)
    ensures config.Some? && config.value.slots.Some? ==>
      var given := config.value.slots.value;
      && st.slots.header == given.header && st.slots.content == given.content
      && st.slots.infobar == given.infobar && st.slots.footer == given.footer
      && st.slots.sidebar.value == (if given.sidebar.Some? then given.sidebar.value else EmptySubSlots)
  {
    var c := config.GetOr(SplitConfig(None, None));
    var m := c.modes.GetOr(NoSplitModes);
    var sl := c.slots.GetOr(NoSplitSlots);
    var sb := sl.sidebar.GetOr(EmptySubSlots);
    SplitState(
      SplitModes(
        m.theme.GetOr(Light),
        m.headerVisible.GetOr(Visible),
        m.footerVisible.GetOr(Visible),
        m.sidebarVisible.GetOr(Visible),
        m.sidebarCollapsed.GetOr(Collapsed),
        m.infobarVisible.GetOr(Visible),
        m.infobarCollapsed.GetOr(Collapsed)),
      SplitSlots(sl.header, Some(SubSlots(sb.header, sb.body, sb.footer)), sl.content, sl.infobar, sl.footer))
  }

  /** Supplied mode fields are kept; missing ones take their defaults. */
  predicate SplitModesAgree(p: PartialSplitModes, m: SplitModes)
  {
    && m.theme == p.theme.GetOr(DefaultSplitModes.theme)
    && m.headerVisible == p.headerVisible.GetOr(DefaultSplitModes.headerVisible)
    && m.footerVisible == p.footerVisible.GetOr(DefaultSplitModes.footerVisible)
    && m.sidebarVisible == p.sidebarVisible.GetOr(DefaultSplitModes.sidebarVisible)
    && m.sidebarCollapsed == p.sidebarCollapsed.GetOr(DefaultSplitModes.sidebarCollapsed)
    && m.infobarVisible == p.infobarVisible.GetOr(DefaultSplitModes.infobarVisible)
    && m.infobarCollapsed == p.infobarCollapsed.GetOr(DefaultSplitModes.infobarCollapsed)
  }

  /** The configuration that supplies every field of a state. */
  function Provide(st: SplitState): SplitConfig
  {
    var m := st.modes;
    SplitConfig(
      Some(PartialSplitModes(Some(m.theme), Some(m.headerVisible), Some(m.footerVisible), Some(m.sidebarVisible),
                             Some(m.sidebarCollapsed), Some(m.infobarVisible), Some(m.infobarCollapsed))),
      Some(st.slots))
  }

  /** Normalization is idempotent: a normalized state, supplied back in
      full, normalizes to itself. A state whose sidebar record is `null` is
      not a fixed point: its sidebar comes back as three `null` sub-slots. */
  lemma NormalizeSplitIdempotent(config: Option<SplitConfig>)
    ensures NormalizeSplit(Some(Provide(NormalizeSplit(config)))) == NormalizeSplit(config)
  {
  }

  lemma NullSidebarNotFixed(st: SplitState)
    requires st.slots.sidebar.None?
    ensures NormalizeSplit(Some(Provide(st))) != st
    ensures NormalizeSplit(Some(Provide(st))).slots.sidebar == Some(EmptySubSlots)
  {
  }

  // The predicates: each compares one field with one token.
  predicate IsThemeDark(m: SplitModes) { m.theme == Dark }
  predicate IsHeaderHidden(m: SplitModes) { m.headerVisible == Hidden }
  predicate IsFooterHidden(m: SplitModes) { m.footerVisible == Hidden }
  predicate IsSidebarHidden(m: SplitModes) { m.sidebarVisible == Hidden }
  predicate IsSidebarCollapsed(m: SplitModes) { m.sidebarCollapsed == Collapsed }
  predicate IsInfobarHidden(m: SplitModes) { m.infobarVisible == Hidden }
  predicate IsInfobarCollapsed(m: SplitModes) { m.infobarCollapsed == Collapsed }

  /** Hidden and collapsed are independent: the defaults are already
      collapsed, and one visibility toggle makes the sidebar hidden and
      collapsed at once. */
  lemma HiddenAndCollapsedCoexist()
    ensures var m := SplitToggle(NormalizeSplit(None).modes, ModeMachine.ToggleSidebarVisible);
      IsSidebarHidden(m) && IsSidebarCollapsed(m)
    ensures IsSidebarCollapsed(NormalizeSplit(None).modes) && IsInfobarCollapsed(NormalizeSplit(None).modes)
  {
  }

  /** The split field a toggle writes. */
  function SplitTarget(t: ModeMachine.Toggle): SplitField
  {
    match t
    case ToggleTheme => ThemeField
    case ToggleHeaderVisible => HeaderVisibleField
    case ToggleFooterVisible => FooterVisibleField
    case ToggleSidebarVisible => SidebarVisibleField
    case ToggleSidebarCollapsed => SidebarCollapsedField
    case ToggleInfobarVisible => InfobarVisibleField
    case ToggleInfobarCollapsed => InfobarCollapsedField
  }

  /** The predicate a toggle consults. */
  predicate SplitReads(t: ModeMachine.Toggle, m: SplitModes)
  {
    match t
    case ToggleTheme => IsThemeDark(m)
    case ToggleHeaderVisible => IsHeaderHidden(m)
    case ToggleFooterVisible => IsFooterHidden(m)
    case ToggleSidebarVisible => IsSidebarHidden(m)
    case ToggleSidebarCollapsed => IsSidebarCollapsed(m)
    case ToggleInfobarVisible => IsInfobarHidden(m)
    case ToggleInfobarCollapsed => IsInfobarCollapsed(m)
  }

  /** The seven toggles: each flips its own field between its two tokens and
      leaves every other field alone. */
  function SplitToggle(m: SplitModes, t: ModeMachine.Toggle): (r: SplitModes)
    ensures GetMode(r, SplitTarget(t)) != GetMode(m, SplitTarget(t))
    ensures SplitReads(t, r) == !SplitReads(t, m)
    ensures forall f :: f != SplitTarget(t) ==> GetMode(r, f) == GetMode(m, f)
  {
    match t
    case ToggleTheme => m.(theme := if IsThemeDark(m) then Light else Dark)
    case ToggleHeaderVisible => m.(headerVisible := if IsHeaderHidden(m) then Visible else Hidden)
    case ToggleFooterVisible => m.(footerVisible := if IsFooterHidden(m) then Visible else Hidden)
    case ToggleSidebarVisible => m.(sidebarVisible := if IsSidebarHidden(m) then Visible else Hidden)
    case ToggleSidebarCollapsed => m.(sidebarCollapsed := if IsSidebarCollapsed(m) then Expanded else Collapsed)
    case ToggleInfobarVisible => m.(infobarVisible := if IsInfobarHidden(m) then Visible else Hidden)
    case ToggleInfobarCollapsed => m.(infobarCollapsed := if IsInfobarCollapsed(m) then Expanded else Collapsed)
  }

  /** Every split toggle is an involution from either of its tokens. */
  lemma SplitToggleInvolution(m: SplitModes, t: ModeMachine.Toggle)
    ensures SplitToggle(SplitToggle(m, t), t) == m
  {
    var twice := SplitToggle(SplitToggle(m, t), t);
    forall f ensures GetMode(twice, f) == GetMode(m, f) {
      if f == SplitTarget(t) {
        match t
        case ToggleTheme =>
        case ToggleHeaderVisible =>
        case ToggleFooterVisible =>
        case ToggleSidebarVisible =>
        case ToggleSidebarCollapsed =>
        case ToggleInfobarVisible =>
        case ToggleInfobarCollapsed =>
      }
    }
    SplitModesExtensional(twice, m);
  }

  /** A `setMode(mode, value)` call, typed by its field. */
  datatype SplitSetting =
    | SetTheme(theme: Theme)
    | SetHeaderVisible(visibility: Visibility)
    | SetFooterVisible(visibility: Visibility)
    | SetSidebarVisible(visibility: Visibility)
    | SetSidebarCollapsed(collapse: Collapse)
    | SetInfobarVisible(visibility: Visibility)
    | SetInfobarCollapsed(collapse: Collapse)
  {
    function Field(): SplitField
    {
      match this
      case SetTheme(_) => ThemeField
      case SetHeaderVisible(_) => HeaderVisibleField
      case SetFooterVisible(_) => FooterVisibleField
      case SetSidebarVisible(_) => SidebarVisibleField
      case SetSidebarCollapsed(_) => SidebarCollapsedField
      case SetInfobarVisible(_) => InfobarVisibleField
      case SetInfobarCollapsed(_) => InfobarCollapsedField
    }

    function Token(): string
    {
      match this
      case SetTheme(t) => ThemeToken(t)
      case SetSidebarCollapsed(c) => CollapseToken(c)
      case SetInfobarCollapsed(c) => CollapseToken(c)
      case _ => VisibilityToken(visibility)
    }
  }

  /** `setMode`: `{ ...prev, [mode]: value }`. */
  function SetMode(m: SplitModes, s: SplitSetting): (r: SplitModes)
    ensures GetMode(r, s.Field()) == s.Token()
    ensures forall f :: f != s.Field() ==> GetMode(r, f) == GetMode(m, f)
  {
    match s
    case SetTheme(t) => m.(theme := t)
    case SetHeaderVisible(v) => m.(headerVisible := v)
    case SetFooterVisible(v) => m.(footerVisible := v)
    case SetSidebarVisible(v) => m.(sidebarVisible := v)
    case SetSidebarCollapsed(c) => m.(sidebarCollapsed := c)
    case SetInfobarVisible(v) => m.(infobarVisible := v)
    case SetInfobarCollapsed(c) => m.(infobarCollapsed := c)
  }

  // The presence predicates read slot truthiness only.
  predicate HasSidebar(s: SplitSlots)
  {
    s.sidebar.Some? && (Truthy(s.sidebar.value.header) || Truthy(s.sidebar.value.body) || Truthy(s.sidebar.value.footer))
  }
  predicate HasHeader(s: SplitSlots) { Truthy(s.header) }
  predicate HasContent(s: SplitSlots) { Truthy(s.content) }
  predicate HasInfobar(s: SplitSlots) { Truthy(s.infobar) }
  predicate HasFooter(s: SplitSlots) { Truthy(s.footer) }

  /** The sidebar is present iff its record exists and some sub-slot is
      truthy. The presence predicates take the slots alone, so in this schema
      no mode, hidden included, makes a populated region absent. */
  lemma HasSidebarIff(st: SplitState)
    ensures HasSidebar(st.slots) <==> st.slots.sidebar.Some? && exists k :: Truthy(Sub(st.slots.sidebar.value, k))
  {
    if HasSidebar(st.slots) {
      var sb := st.slots.sidebar.value;
      if Truthy(sb.header) { assert Truthy(Sub(sb, SidebarHeader)); }
      else if Truthy(sb.body) { assert Truthy(Sub(sb, SidebarBody)); }
      else { assert Truthy(Sub(sb, SidebarFooter)); }
    }
  }

  /** `getSlot(slot)`: `slots[slot] ?? null`, the named slot's value, which
      is `null` for a slot never set. A slot's presence predicate is exactly
      the truthiness of what `getSlot` returns. */
  function GetSlot(s: SplitSlots, k: PlainSlot): (n: Node)
    ensures k == PlainSlot.HeaderSlot ==> n == s.header
    ensures k == PlainSlot.ContentSlot ==> n == s.content
    ensures k == PlainSlot.InfobarSlot ==> n == s.infobar
    ensures k == PlainSlot.FooterSlot ==> n == s.footer
    ensures k == PlainSlot.HeaderSlot ==> (Truthy(n) <==> HasHeader(s))
    ensures k == PlainSlot.ContentSlot ==> (Truthy(n) <==> HasContent(s))
    ensures k == PlainSlot.InfobarSlot ==> (Truthy(n) <==> HasInfobar(s))
    ensures k == PlainSlot.FooterSlot ==> (Truthy(n) <==> HasFooter(s))
  {
    match k
    case HeaderSlot => s.header
    case ContentSlot => s.content
    case InfobarSlot => s.infobar
    case FooterSlot => s.footer
  }

  /** `getSidebarSlot(slot)`: `slots.sidebar?.[slot] ?? null`. */
  function GetSidebarSlot(s: SplitSlots, k: SidebarSlotName): (n: Node)
    ensures s.sidebar.None? ==> n == Null
    ensures s.sidebar.Some? ==> n == Sub(s.sidebar.value, k)
  {
    if s.sidebar.Some? then Sub(s.sidebar.value, k) else Null
  }

  /** `setSlot(slot, value)`. */
  function SetSlot(s: SplitSlots, k: PlainSlot, v: Node): (r: SplitSlots)
    ensures GetSlot(r, k) == v
    ensures forall j :: j != k ==> GetSlot(r, j) == GetSlot(s, j)
    ensures r.sidebar == s.sidebar
  {
    match k
    case HeaderSlot => s.(header := v)
    case ContentSlot => s.(content := v)
    case InfobarSlot => s.(infobar := v)
    case FooterSlot => s.(footer := v)
  }

  /** `setSidebarSlots(slots)`: the whole sidebar record replaced. */
  function SetSidebarSlots(s: SplitSlots, sb: Option<SubSlots>): (r: SplitSlots)
    ensures forall k :: GetSidebarSlot(r, k) == (if sb.Some? then Sub(sb.value, k) else Null)
    ensures forall p :: GetSlot(r, p) == GetSlot(s, p)
  {
    s.(sidebar := sb)
  }

  /** `setSidebarSlot(slot, value)`: `{ ...slots.sidebar, [slot]: value }`
      becomes the sidebar record. The other two sub-slots are kept; when the
      record was `null` they read as `null`. */
  function SetSidebarSlot(s: SplitSlots, k: SidebarSlotName, v: Node): (r: SplitSlots)
    ensures r.sidebar.Some?
    ensures GetSidebarSlot(r, k) == v
    ensures forall j :: j != k ==> GetSidebarSlot(r, j) == GetSidebarSlot(s, j)
    ensures forall p :: GetSlot(r, p) == GetSlot(s, p)
  {
    var prev := s.sidebar.GetOr(EmptySubSlots);
    var updated :=
      match k
      case SidebarHeader => prev.(header := v)
      case SidebarBody => prev.(body := v)
      case SidebarFooter => prev.(footer := v);
    SetSidebarSlots(s, Some(updated))
  }
}
