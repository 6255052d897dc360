/** The configuration normalizer of the three-state schema
    (`normalizeModes`, `normalizeParams`, `normalizeConfig` in
    src/lib/utils.ts): a total map from a partial, possibly absent
    configuration to fully defaulted modes and size parameters. */
module Config {
  import opened Options
  import opened Tokens

  /** The five mode fields, each holding a token of its enumeration. */
  datatype Modes = Modes(theme: Theme, header: BarMode, footer: BarMode, sidebar: PanelMode, infobar: PanelMode)

  /** A `modes` section as a caller writes it: any field may be missing. */
  datatype PartialModes = PartialModes(
    theme: Option<Theme>,
    header: Option<BarMode>,
    footer: Option<BarMode>,
    sidebar: Option<PanelMode>,
    infobar: Option<PanelMode>)

  /** The seven size parameters `normalizeParams` emits; each is an opaque
      CSS length or duration token. */
  datatype Params = Params(
    headerHeight: string,
    footerHeight: string,
    sidebarWidth: string,
    sidebarCollapsedWidth: string,
    infobarWidth: string,
    infobarCollapsedWidth: string,
    transitionDuration: string)

  datatype PartialParams = PartialParams(
    headerHeight: Option<string>,
    footerHeight: Option<string>,
    sidebarWidth: Option<string>,
    sidebarCollapsedWidth: Option<string>,
    infobarWidth: Option<string>,
    infobarCollapsedWidth: Option<string>,
    transitionDuration: Option<string>)

  /** Names of the size parameters, for the one-field update `setParam`. */
  datatype ParamName =
    | HeaderHeight | FooterHeight | SidebarWidth | SidebarCollapsedWidth
    | InfobarWidth | InfobarCollapsedWidth | TransitionDuration

  /** A configuration: both sections optional. */
  datatype LayoutConfig = LayoutConfig(modes: Option<PartialModes>, params: Option<PartialParams>)

  datatype NormalizedConfig = NormalizedConfig(modes: Modes, params: Params)

  /** The zero-length token used for every size default and for hidden regions. */
  const ZeroLength: string := "0rem"
  const DefaultTransition: string := "0.1s"

  const DefaultModes: Modes := Modes(Light, BarBase, BarBase, PanelBase, PanelBase)

  const DefaultParams: Params :=
    Params(ZeroLength, ZeroLength, ZeroLength, ZeroLength, ZeroLength, ZeroLength, DefaultTransition)

  const NoModes: PartialModes := PartialModes(None, None, None, None, None)
  const NoParams: PartialParams := PartialParams(None, None, None, None, None, None, None)

  /** The value of a size parameter, by name. */
  function Param(p: Params, n: ParamName): string
  {
    match n
    case HeaderHeight => p.headerHeight
    case FooterHeight => p.footerHeight
    case SidebarWidth => p.sidebarWidth
    case SidebarCollapsedWidth => p.sidebarCollapsedWidth
    case InfobarWidth => p.infobarWidth
    case InfobarCollapsedWidth => p.infobarCollapsedWidth
    case TransitionDuration => p.transitionDuration
  }

  /** The value a partial parameter section supplies for a name, if any. */
  function Supplied(o: PartialParams, n: ParamName): Option<string>
  {
    match n
    case HeaderHeight => o.headerHeight
    case FooterHeight => o.footerHeight
    case SidebarWidth => o.sidebarWidth
    case SidebarCollapsedWidth => o.sidebarCollapsedWidth
    case InfobarWidth => o.infobarWidth
    case InfobarCollapsedWidth => o.infobarCollapsedWidth
    case TransitionDuration => o.transitionDuration
  }

  /** Two parameter records are equal when they agree on every name. */
  lemma ParamsExtensional(a: Params, b: Params)
    requires forall n :: Param(a, n) == Param(b, n)
    ensures a == b
  {
    assert Param(a, HeaderHeight) == Param(b, HeaderHeight);
    assert Param(a, FooterHeight) == Param(b, FooterHeight);
    assert Param(a, SidebarWidth) == Param(b, SidebarWidth);
    assert Param(a, SidebarCollapsedWidth) == Param(b, SidebarCollapsedWidth);
    assert Param(a, InfobarWidth) == Param(b, InfobarWidth);
    assert Param(a, InfobarCollapsedWidth) == Param(b, InfobarCollapsedWidth);
    assert Param(a, TransitionDuration) == Param(b, TransitionDuration);
  }

  /** `modes ?? {}` followed by `field ?? default` for each field. */
  function NormalizeModes(modes: Option<PartialModes>): (r: Modes)
    ensures modes.None? ==> r == DefaultModes
    ensures modes.Some? ==> ModesAgree(modes.value, r) && DefaultsElsewhere(modes.value, r)
  {
    var m := modes.GetOr(NoModes);
    Modes(
      m.theme.GetOr(Light),
      m.header.GetOr(BarBase),
      m.footer.GetOr(BarBase),
      m.sidebar.GetOr(PanelBase),
      m.infobar.GetOr(PanelBase))
  }

  /** Every field the caller supplied is kept as is. */
  predicate ModesAgree(p: PartialModes, m: Modes)
  {
    && (p.theme.Some? ==> m.theme == p.theme.value)
    && (p.header.Some? ==> m.header == p.header.value)
    && (p.footer.Some? ==> m.footer == p.footer.value)
    && (p.sidebar.Some? ==> m.sidebar == p.sidebar.value)
    && (p.infobar.Some? ==> m.infobar == p.infobar.value)
  }

  /** Every field the caller left out holds its default. */
  predicate DefaultsElsewhere(p: PartialModes, m: Modes)
  {
    && (p.theme.None? ==> m.theme == DefaultModes.theme)
    && (p.header.None? ==> m.header == DefaultModes.header)
    && (p.footer.None? ==> m.footer == DefaultModes.footer)
    && (p.sidebar.None? ==> m.sidebar == DefaultModes.sidebar)
    && (p.infobar.None? ==> m.infobar == DefaultModes.infobar)
  }

  /** The partial section that supplies every field of `m`. */
  function ProvideModes(m: Modes): PartialModes
  {
    PartialModes(Some(m.theme), Some(m.header), Some(m.footer), Some(m.sidebar), Some(m.infobar))
  }

  /** Normalizing fully supplied modes returns them unchanged; in particular
      normalizing a normalized result is the identity. */
  lemma NormalizeModesRoundTrip(m: Modes)
    ensures NormalizeModes(Some(ProvideModes(m))) == m
  {
  }

  lemma NormalizeModesIdempotent(modes: Option<PartialModes>)
    ensures NormalizeModes(Some(ProvideModes(NormalizeModes(modes)))) == NormalizeModes(modes)
  {
    NormalizeModesRoundTrip(NormalizeModes(modes));
  }

  /** The result of `normalizeModes` is determined by its contract: any modes
      that keep the supplied fields and default the rest are the result. */
  lemma NormalizeModesUnique(p: PartialModes, m: Modes)
    requires ModesAgree(p, m) && DefaultsElsewhere(p, m)
    ensures NormalizeModes(Some(p)) == m
  {
  }

  /** `params ?? {}` followed by `field ?? "0rem"` (and `?? "0.1s"` for the
      transition duration). */
  function NormalizeParams(params: Option<PartialParams>): (r: Params)
    ensures forall n :: params.Some? && Supplied(params.value, n).Some? ==> Param(r, n) == Supplied(params.value, n).value
    ensures forall n :: (params.None? || Supplied(params.value, n).None?) ==> Param(r, n) == Param(DefaultParams, n)
    ensures forall n :: n != TransitionDuration && (params.None? || Supplied(params.value, n).None?) ==> Param(r, n) == ZeroLength
  {
    var p := params.GetOr(NoParams);
    Params(
      p.headerHeight.GetOr(ZeroLength),
      p.footerHeight.GetOr(ZeroLength),
      p.sidebarWidth.GetOr(ZeroLength),
      p.sidebarCollapsedWidth.GetOr(ZeroLength),
      p.infobarWidth.GetOr(ZeroLength),
      p.infobarCollapsedWidth.GetOr(ZeroLength),
      p.transitionDuration.GetOr(DefaultTransition))
  }

  /** `config ?? {}`, then each section `?? {}` normalized on its own. */
  function NormalizeConfig(config: Option<LayoutConfig>): (r: NormalizedConfig)
    ensures config.None? ==> r == NormalizedConfig(DefaultModes, DefaultParams)
    ensures config.Some? ==> r.modes == NormalizeModes(config.value.modes)
    ensures config.Some? ==> r.params == NormalizeParams(config.value.params)
  {
    var c := config.GetOr(LayoutConfig(None, None));
    NormalizedConfig(
      NormalizeModes(Some(c.modes.GetOr(NoModes))),
      NormalizeParams(Some(c.params.GetOr(NoParams))))
  }

  /** An absent configuration, an empty one, and one with empty sections all
      normalize to the defaults. */
  lemma AbsentIsEmpty()
    ensures NormalizeConfig(None) == NormalizeConfig(Some(LayoutConfig(None, None)))
    ensures NormalizeConfig(None) == NormalizeConfig(Some(LayoutConfig(Some(NoModes), Some(NoParams))))
    ensures NormalizeConfig(None).params == DefaultParams
  {
  }
}
