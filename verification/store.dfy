/** The state of the `LayoutProvider` of src/structure/provider.tsx: modes,
    size parameters and one presence flag per layout slot, with the
    updates `setMode`, `setParams`, `setParam`, `setHasSlot` and the seven
    toggles, each a transition from one committed state to the next. */
module Store {
  import opened Options
  import opened Config
  import opened ModeMachine
  import opened Slots

  /** Presence flags per slot (`hasSlots`); a key never set reads as absent. */
  type HasSlots = map<LayoutSlotName, bool>

  function HasSlot(h: HasSlots, k: LayoutSlotName): bool
  {
    k in h && h[k]
  }

  datatype State = State(modes: Modes, params: Params, hasSlots: HasSlots)

  /** The initial state: the normalized modes and parameters, and no slot
      marked present. */
  function Init(config: Option<LayoutConfig>): (s: State)
    ensures s.modes == NormalizeConfig(config).modes
    ensures s.params == NormalizeConfig(config).params
    ensures forall k :: !HasSlot(s.hasSlots, k)
  {
    var c := NormalizeConfig(config);
    State(c.modes, c.params, map[])
  }

  /** `{ ...prev, ...params }`: every supplied field replaces the old value,
      every other field is kept. */
  function SetParams(p: Params, over: PartialParams): (r: Params)
    ensures forall n :: Supplied(over, n).Some? ==> Param(r, n) == Supplied(over, n).value
    ensures forall n :: Supplied(over, n).None? ==> Param(r, n) == Param(p, n)
  {
    Params(
      over.headerHeight.GetOr(p.headerHeight),
      over.footerHeight.GetOr(p.footerHeight),
      over.sidebarWidth.GetOr(p.sidebarWidth),
      over.sidebarCollapsedWidth.GetOr(p.sidebarCollapsedWidth),
      over.infobarWidth.GetOr(p.infobarWidth),
      over.infobarCollapsedWidth.GetOr(p.infobarCollapsedWidth),
      over.transitionDuration.GetOr(p.transitionDuration))
  }

  /** `{ ...prev, [name]: value }` on the parameters. */
  function SetParam(p: Params, n: ParamName, v: string): (r: Params)
    ensures Param(r, n) == v
    ensures forall n' :: n' != n ==> Param(r, n') == Param(p, n')
  {
    match n
    case HeaderHeight => p.(headerHeight := v)
    case FooterHeight => p.(footerHeight := v)
    case SidebarWidth => p.(sidebarWidth := v)
    case SidebarCollapsedWidth => p.(sidebarCollapsedWidth := v)
    case InfobarWidth => p.(infobarWidth := v)
    case InfobarCollapsedWidth => p.(infobarCollapsedWidth := v)
    case TransitionDuration => p.(transitionDuration := v)
  }

  /** A partial section supplying one parameter only. */
  function Only(n: ParamName, v: string): (o: PartialParams)
    ensures Supplied(o, n) == Some(v)
    ensures forall n' :: n' != n ==> Supplied(o, n').None?
  {
    match n
    case HeaderHeight => NoParams.(headerHeight := Some(v))
    case FooterHeight => NoParams.(footerHeight := Some(v))
    case SidebarWidth => NoParams.(sidebarWidth := Some(v))
    case SidebarCollapsedWidth => NoParams.(sidebarCollapsedWidth := Some(v))
    case InfobarWidth => NoParams.(infobarWidth := Some(v))
    case InfobarCollapsedWidth => NoParams.(infobarCollapsedWidth := Some(v))
    case TransitionDuration => NoParams.(transitionDuration := Some(v))
  }

  /** `setParam(n, v)` is `setParams({[n]: v})`; `setParams({})` changes
      nothing; and normalizing a parameter section is overlaying it on the
      defaults. */
  lemma OverlayLaws(p: Params, n: ParamName, v: string, over: PartialParams)
    ensures SetParams(p, Only(n, v)) == SetParam(p, n, v)
    ensures SetParams(p, NoParams) == p
    ensures NormalizeParams(Some(over)) == SetParams(DefaultParams, over)
  {
    ParamsExtensional(SetParams(p, Only(n, v)), SetParam(p, n, v));
    ParamsExtensional(SetParams(p, NoParams), p);
    ParamsExtensional(NormalizeParams(Some(over)), SetParams(DefaultParams, over));
  }

  /** Overlay `b` on `a`: what `setParams(a); setParams(b)` supplies. */
  function Merge(a: PartialParams, b: PartialParams): (o: PartialParams)
    ensures forall n :: Supplied(o, n) == (if Supplied(b, n).Some? then Supplied(b, n) else Supplied(a, n))
  {
    PartialParams(
      if b.headerHeight.Some? then b.headerHeight else a.headerHeight,
      if b.footerHeight.Some? then b.footerHeight else a.footerHeight,
      if b.sidebarWidth.Some? then b.sidebarWidth else a.sidebarWidth,
      if b.sidebarCollapsedWidth.Some? then b.sidebarCollapsedWidth else a.sidebarCollapsedWidth,
      if b.infobarWidth.Some? then b.infobarWidth else a.infobarWidth,
      if b.infobarCollapsedWidth.Some? then b.infobarCollapsedWidth else a.infobarCollapsedWidth,
      if b.transitionDuration.Some? then b.transitionDuration else a.transitionDuration)
  }

  /** Two successive overlays are one overlay of the merged sections, the
      later one winning field by field. */
  lemma SetParamsCompose(p: Params, a: PartialParams, b: PartialParams)
    ensures SetParams(SetParams(p, a), b) == SetParams(p, Merge(a, b))
  {
    ParamsExtensional(SetParams(SetParams(p, a), b), SetParams(p, Merge(a, b)));
  }

  /** `setHasSlot`: one flag set, the others kept. */
  function SetHasSlot(h: HasSlots, k: LayoutSlotName, v: bool): (r: HasSlots)
    ensures HasSlot(r, k) == v
    ensures forall j :: j != k ==> HasSlot(r, j) == HasSlot(h, j)
  {
    h[k := v]
  }

  /** A call on the provider's mutation surface. */
  datatype Op =
    | SetModeOp(setting: ModeSetting)
    | SetParamsOp(over: PartialParams)
    | SetParamOp(name: ParamName, value: string)
    | SetHasSlotOp(slot: LayoutSlotName, present: bool)
    | ToggleOp(toggle: Toggle)

  /** One committed transition. Mode updates leave parameters and presence
      alone; parameter updates leave modes and presence alone; presence
      updates leave modes and parameters alone. */
  function Step(s: State, op: Op): (r: State)
    ensures (op.SetModeOp? || op.ToggleOp?) ==> r.params == s.params && r.hasSlots == s.hasSlots
    ensures (op.SetParamsOp? || op.SetParamOp?) ==> r.modes == s.modes && r.hasSlots == s.hasSlots
    ensures op.SetHasSlotOp? ==> r.modes == s.modes && r.params == s.params
    ensures op.ToggleOp? ==> Reads(op.toggle, r.modes) == !Reads(op.toggle, s.modes)
    ensures op.ToggleOp? ==> forall f :: f != op.toggle.Target() ==> ModeToken(r.modes, f) == ModeToken(s.modes, f)
    ensures op.ToggleOp? && !op.toggle.IsBinary() ==> PanelOf(r.modes, op.toggle.Target()) != Avoided(op.toggle)
    ensures op.SetModeOp? ==> ModeToken(r.modes, op.setting.Field()) == op.setting.Token()
    ensures op.SetModeOp? ==> forall f :: f != op.setting.Field() ==> ModeToken(r.modes, f) == ModeToken(s.modes, f)
    ensures op.SetParamsOp? ==> forall n :: Supplied(op.over, n).Some? ==> Param(r.params, n) == Supplied(op.over, n).value
    ensures op.SetParamsOp? ==> forall n :: Supplied(op.over, n).None? ==> Param(r.params, n) == Param(s.params, n)
    ensures op.SetParamOp? ==> Param(r.params, op.name) == op.value
    ensures op.SetParamOp? ==> forall n :: n != op.name ==> Param(r.params, n) == Param(s.params, n)
    ensures op.SetHasSlotOp? ==> HasSlot(r.hasSlots, op.slot) == op.present
    ensures op.SetHasSlotOp? ==> forall j :: j != op.slot ==> HasSlot(r.hasSlots, j) == HasSlot(s.hasSlots, j)
  {
    match op
    case SetModeOp(setting) => s.(modes := SetMode(s.modes, setting))
    case SetParamsOp(over) => s.(params := SetParams(s.params, over))
    case SetParamOp(n, v) => s.(params := SetParam(s.params, n, v))
    case SetHasSlotOp(k, v) => s.(hasSlots := SetHasSlot(s.hasSlots, k, v))
    case ToggleOp(t) => s.(modes := ApplyToggle(s.modes, t))
  }
}
