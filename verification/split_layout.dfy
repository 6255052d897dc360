/** The `Layout` shell of src/ui/layout.tsx over the split schema: refuse to
    render without content, include each optional region exactly when its
    presence predicate holds, and expose the seven mode fields as
    `data-*-mode` attributes. */
module SplitLayout {
  import opened Options
  import opened Slots
  import opened Tokens
  import opened SplitSchema

  /** What the shell renders: the optional regions, the content, and the
      attributes of the root element. */
  datatype Frame = Frame(
    header: Option<Node>,
    sidebar: Option<SubSlots>,
    content: Node,
    infobar: Option<Node>,
    footer: Option<Node>,
    attributes: map<string, string>)

  /** The error thrown when no content was supplied. */
  datatype LayoutError = MissingContent

  const AttributeKeys: set<string> := {
    "data-theme-mode", "data-header-visible-mode", "data-footer-visible-mode",
    "data-sidebar-visible-mode", "data-sidebar-collapsed-mode",
    "data-infobar-visible-mode", "data-infobar-collapsed-mode"}

  /** The attribute that exposes a split field. */
  function AttrOf(f: SplitField): string
  {
    match f
    case ThemeField => "data-theme-mode"
    case HeaderVisibleField => "data-header-visible-mode"
    case FooterVisibleField => "data-footer-visible-mode"
    case SidebarVisibleField => "data-sidebar-visible-mode"
    case SidebarCollapsedField => "data-sidebar-collapsed-mode"
    case InfobarVisibleField => "data-infobar-visible-mode"
    case InfobarCollapsedField => "data-infobar-collapsed-mode"
  }

  /** The seven-key attribute map, each key holding its field's token. */
  function Attributes(m: SplitModes): (attrs: map<string, string>)
    ensures attrs.Keys == AttributeKeys
    ensures forall f :: AttrOf(f) in attrs && attrs[AttrOf(f)] == GetMode(m, f)
  {
    map["data-theme-mode" := ThemeToken(m.theme),
        "data-header-visible-mode" := VisibilityToken(m.headerVisible),
        "data-footer-visible-mode" := VisibilityToken(m.footerVisible),
        "data-sidebar-visible-mode" := VisibilityToken(m.sidebarVisible),
        "data-sidebar-collapsed-mode" := CollapseToken(m.sidebarCollapsed),
        "data-infobar-visible-mode" := VisibilityToken(m.infobarVisible),
        "data-infobar-collapsed-mode" := CollapseToken(m.infobarCollapsed)]
  }

  /** The seven attribute names are distinct, so the map has exactly seven keys. */
  lemma SevenAttributes(m: SplitModes)
    ensures |Attributes(m)| == 7
  {
  }

  /** Distinct states give distinct attribute maps: no mode information is
      lost in the attributes. */
  lemma AttributesInjective(a: SplitModes, b: SplitModes)
    requires Attributes(a) == Attributes(b)
    ensures a == b
  {
    forall f ensures GetMode(a, f) == GetMode(b, f) {
      assert Attributes(a)[AttrOf(f)] == Attributes(b)[AttrOf(f)];
    }
    SplitModesExtensional(a, b);
  }

  /** The render step. Without content it fails before producing anything;
      otherwise content is always included, each optional region is included
      iff its `has*` predicate holds, and the attributes mirror the modes. */
  function Render(st: SplitState): (r: Result<Frame, LayoutError>)
    ensures r.Err? <==> !HasContent(st.slots)
    ensures r.Ok? ==> r.value.content == st.slots.content && Truthy(r.value.content)
    ensures r.Ok? ==> (r.value.header.Some? <==> HasHeader(st.slots))
    ensures r.Ok? ==> (r.value.sidebar.Some? <==> HasSidebar(st.slots))
    ensures r.Ok? ==> (r.value.infobar.Some? <==> HasInfobar(st.slots))
    ensures r.Ok? ==> (r.value.footer.Some? <==> HasFooter(st.slots))
    ensures r.Ok? && r.value.header.Some? ==> r.value.header.value == st.slots.header
    ensures r.Ok? && r.value.sidebar.Some? ==> st.slots.sidebar == Some(r.value.sidebar.value)
    ensures r.Ok? && r.value.infobar.Some? ==> r.value.infobar.value == st.slots.infobar
    ensures r.Ok? && r.value.footer.Some? ==> r.value.footer.value == st.slots.footer
    ensures r.Ok? ==> r.value.attributes == Attributes(st.modes)
  {
    if !HasContent(st.slots) then Err(MissingContent)
    else
      var s := st.slots;
      Ok(Frame(
        if HasHeader(s) then Some(s.header) else None,
        if HasSidebar(s) then Some(s.sidebar.value) else None,
        s.content,
        if HasInfobar(s) then Some(s.infobar) else None,
        if HasFooter(s) then Some(s.footer) else None,
        Attributes(st.modes)))
  }

  /** A freshly normalized layout whose configuration supplied no truthy
      content cannot render; a `false` child counts as no content. */
  lemma EmptyContentFatal(config: Option<SplitConfig>)
    requires config.None? || config.value.slots.None? || !Truthy(config.value.slots.value.content)
    ensures Render(NormalizeSplit(config)).Err?
  {
  }

  /** Hiding a region does not remove it from the rendered frame in this
      schema: a populated header is rendered whatever its visibility mode. */
  lemma HiddenHeaderStillRendered(st: SplitState)
    requires HasContent(st.slots) && Truthy(st.slots.header)
    requires IsHeaderHidden(st.modes)
    ensures Render(st).Ok? && Render(st).value.header == Some(st.slots.header)
  {
  }
}
