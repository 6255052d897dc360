/** The `LayoutProvider` of src/structure/layout-provider.tsx: modes, a
    fixed `sizes` value, and the slot registry of the five layout regions,
    with presence predicates that combine slot content with visibility. The
    registrations of `LayoutSlot` (src/structure/layout-slot.tsx) are
    `Attach`/`Detach` on this registry. */
module LayoutStore {
  import opened Options
  import opened Config
  import opened ModeMachine
  import opened Slots

  const AllSlots: set<LayoutSlotName> := {SidebarSlot, HeaderSlot, BodySlot, InfobarSlot, FooterSlot}

  /** `LayoutSizes` (src/lib/types.ts:120-129): optional lengths of the
      regions, the sidebar's header and footer bands included. */
  datatype LayoutSizes = LayoutSizes(
    sidebarWidth: Option<string>,
    sidebarCollapsedWidth: Option<string>,
    sidebarHeaderHeight: Option<string>,
    sidebarFooterHeight: Option<string>,
    infobarWidth: Option<string>,
    infobarCollapsedWidth: Option<string>,
    headerHeight: Option<string>,
    footerHeight: Option<string>)

  /** `sizes` is read once from the normalized configuration and has no
      setter; `normalizeConfig` emits no `sizes` section, so it is absent. */
  datatype LayoutState = LayoutState(modes: Modes, sizes: Option<LayoutSizes>, registry: Registry<LayoutSlotName>)

  /** The initial state: normalized modes, no sizes, every slot `null` with
      class `""`. */
  function Init(config: Option<LayoutConfig>): (s: LayoutState)
    ensures s.modes == NormalizeConfig(config).modes
    ensures s.sizes.None?
    ensures forall k :: SlotOf(s.registry, k) == Null && ClassOf(s.registry, k) == ""
  {
    LayoutState(NormalizeConfig(config).modes, None, Cleared(AllSlots))
  }

  /** The four optional regions that have a presence predicate. */
  datatype Region = HeaderRegion | FooterRegion | SidebarRegion | InfobarRegion
  {
    function Slot(): LayoutSlotName
    {
      match this
      case HeaderRegion => HeaderSlot
      case FooterRegion => FooterSlot
      case SidebarRegion => SidebarSlot
      case InfobarRegion => InfobarSlot
    }

    /** The toggle that shows and hides the region. */
    function VisibleToggle(): Toggle
    {
      match this
      case HeaderRegion => ToggleHeaderVisible
      case FooterRegion => ToggleFooterVisible
      case SidebarRegion => ToggleSidebarVisible
      case InfobarRegion => ToggleInfobarVisible
    }
  }

  /** `isHeaderHidden()`, `isFooterHidden()`, `isSidebarHidden()`,
      `isInfobarHidden()`. */
  predicate IsHidden(m: Modes, region: Region)
  {
    match region
    case HeaderRegion => IsHeaderHidden(m)
    case FooterRegion => IsFooterHidden(m)
    case SidebarRegion => IsSidebarHidden(m)
    case InfobarRegion => IsInfobarHidden(m)
  }

  /** `hasHeader()` and its siblings: `!!slots[region] && !isHidden()`. */
  function Has(s: LayoutState, region: Region): (b: bool)
    ensures b ==> Truthy(SlotOf(s.registry, region.Slot()))
    ensures b ==> ModeToken(s.modes, RegionField(region)) != "hidden"
    ensures Truthy(SlotOf(s.registry, region.Slot())) && ModeToken(s.modes, RegionField(region)) != "hidden" ==> b
  {
    Truthy(SlotOf(s.registry, region.Slot())) && !IsHidden(s.modes, region)
  }

  function RegionField(region: Region): ModeField
  {
    match region
    case HeaderRegion => HeaderField
    case FooterRegion => FooterField
    case SidebarRegion => SidebarField
    case InfobarRegion => InfobarField
  }

  /** Presence and visibility are independent: a populated but hidden region
      reports absent while its slot still holds content, a collapsed one
      still reports present, and a region that was never populated reports
      absent whatever its mode. */
  lemma PresenceVersusVisibility(s: LayoutState, region: Region)
    ensures Truthy(SlotOf(s.registry, region.Slot())) && IsHidden(s.modes, region) ==> !Has(s, region)
    ensures region == SidebarRegion && IsSidebarCollapsed(s.modes) && Truthy(SlotOf(s.registry, SidebarSlot)) ==> Has(s, region)
    ensures region == InfobarRegion && IsInfobarCollapsed(s.modes) && Truthy(SlotOf(s.registry, InfobarSlot)) ==> Has(s, region)
    ensures !Truthy(SlotOf(s.registry, region.Slot())) ==> !Has(s, region)
  {
  }

  /** For a populated region, its visibility toggle flips its presence. */
  lemma VisibleToggleFlipsPresence(s: LayoutState, region: Region)
    requires Truthy(SlotOf(s.registry, region.Slot()))
    ensures Has(Toggle(s, region.VisibleToggle()), region) == !Has(s, region)
  {
  }

  /** `setMode`, on the state. */
  function SetModeIn(s: LayoutState, setting: ModeSetting): (r: LayoutState)
    ensures ModeToken(r.modes, setting.Field()) == setting.Token()
    ensures forall f :: f != setting.Field() ==> ModeToken(r.modes, f) == ModeToken(s.modes, f)
    ensures r.registry == s.registry && r.sizes == s.sizes
  {
    s.(modes := SetMode(s.modes, setting))
  }

  /** `setSlot`: one slot replaced, the last write wins. */
  function SetSlotIn(s: LayoutState, k: LayoutSlotName, v: Node): (r: LayoutState)
    ensures SlotOf(r.registry, k) == v
    ensures forall j :: j != k ==> SlotOf(r.registry, j) == SlotOf(s.registry, j)
    ensures forall j :: ClassOf(r.registry, j) == ClassOf(s.registry, j)
    ensures r.modes == s.modes && r.sizes == s.sizes
  {
    s.(registry := SetSlot(s.registry, k, v))
  }

  /** `setClassName`: one class name replaced. Class names are keyed by slot
      name, `sidebar` included, since `LayoutSlot` passes its own name. */
  function SetClassNameIn(s: LayoutState, k: LayoutSlotName, c: string): (r: LayoutState)
    ensures ClassOf(r.registry, k) == c
    ensures forall j :: j != k ==> ClassOf(r.registry, j) == ClassOf(s.registry, j)
    ensures forall j :: SlotOf(r.registry, j) == SlotOf(s.registry, j)
    ensures r.modes == s.modes && r.sizes == s.sizes
  {
    s.(registry := SetClassName(s.registry, k, c))
  }

  /** A toggle, on the state: the same table as the other provider's, so a
      three-state toggle never lands on the other toggle's token. */
  function Toggle(s: LayoutState, t: Toggle): (r: LayoutState)
    ensures Reads(t, r.modes) == !Reads(t, s.modes)
    ensures forall f :: f != t.Target() ==> ModeToken(r.modes, f) == ModeToken(s.modes, f)
    ensures !t.IsBinary() ==> PanelOf(r.modes, t.Target()) != Avoided(t)
    ensures r.registry == s.registry && r.sizes == s.sizes
  {
    s.(modes := ApplyToggle(s.modes, t))
  }

  /** A call on the provider's mutation surface, or one half of a
      `LayoutSlot` effect. */
  datatype Op =
    | SetModeOp(setting: ModeSetting)
    | SetSlotOp(slot: LayoutSlotName, content: Node)
    | SetClassNameOp(target: LayoutSlotName, value: string)
    | ToggleOp(toggle: Toggle)
    | AttachOp(name: LayoutSlotName, children: Node, className: Option<string>)
    | DetachOp(name: LayoutSlotName)

  /** One committed transition; `sizes` is never written. */
  function Step(s: LayoutState, op: Op): (r: LayoutState)
    ensures r.sizes == s.sizes
    ensures op.SetModeOp? ==> ModeToken(r.modes, op.setting.Field()) == op.setting.Token()
    ensures op.SetModeOp? ==> forall f :: f != op.setting.Field() ==> ModeToken(r.modes, f) == ModeToken(s.modes, f)
    ensures op.ToggleOp? ==> Reads(op.toggle, r.modes) == !Reads(op.toggle, s.modes)
    ensures op.ToggleOp? ==> forall f :: f != op.toggle.Target() ==> ModeToken(r.modes, f) == ModeToken(s.modes, f)
    ensures op.ToggleOp? && !op.toggle.IsBinary() ==> PanelOf(r.modes, op.toggle.Target()) != Avoided(op.toggle)
    ensures (op.SetModeOp? || op.ToggleOp?) ==> r.registry == s.registry
    ensures !op.SetModeOp? && !op.ToggleOp? ==> r.modes == s.modes
    ensures op.SetSlotOp? ==> SlotOf(r.registry, op.slot) == op.content
    ensures op.SetSlotOp? ==> forall j :: j != op.slot ==> SlotOf(r.registry, j) == SlotOf(s.registry, j)
    ensures op.SetSlotOp? ==> forall j :: ClassOf(r.registry, j) == ClassOf(s.registry, j)
    ensures op.SetClassNameOp? ==> ClassOf(r.registry, op.target) == op.value
    ensures op.SetClassNameOp? ==> forall j :: j != op.target ==> ClassOf(r.registry, j) == ClassOf(s.registry, j)
    ensures op.SetClassNameOp? ==> forall j :: SlotOf(r.registry, j) == SlotOf(s.registry, j)
    ensures op.AttachOp? ==> SlotOf(r.registry, op.name) == op.children && ClassOf(r.registry, op.name) == op.className.GetOr("")
    ensures op.DetachOp? ==> SlotOf(r.registry, op.name) == Null && ClassOf(r.registry, op.name) == ""
    ensures (op.AttachOp? || op.DetachOp?) ==> forall j :: j != op.name ==> SlotOf(r.registry, j) == SlotOf(s.registry, j) && ClassOf(r.registry, j) == ClassOf(s.registry, j)
  {
    match op
    case SetModeOp(setting) => SetModeIn(s, setting)
    case SetSlotOp(k, v) => SetSlotIn(s, k, v)
    case SetClassNameOp(k, c) => SetClassNameIn(s, k, c)
    case ToggleOp(t) => Toggle(s, t)
    case AttachOp(k, c, cls) => s.(registry := Attach(s.registry, k, c, cls))
    case DetachOp(k) => s.(registry := Detach(s.registry, k))
  }

  function Run(s: LayoutState, ops: seq<Op>): LayoutState
    decreases |ops|
  {
    if |ops| == 0 then s else Run(Step(s, ops[0]), ops[1..])
  }

  /** `sizes` has no setter: it keeps its initial value through any sequence
      of operations, and slot operations never change the modes. */
  lemma {:induction false} SizesFixed(s: LayoutState, ops: seq<Op>)
    ensures Run(s, ops).sizes == s.sizes
    ensures (forall i :: 0 <= i < |ops| ==> !ops[i].SetModeOp? && !ops[i].ToggleOp?) ==> Run(s, ops).modes == s.modes
    decreases |ops|
  {
    if |ops| > 0 {
      SizesFixed(Step(s, ops[0]), ops[1..]);
      assert forall i :: 0 <= i < |ops| - 1 ==> ops[1..][i] == ops[i + 1];
    }
  }

  /** A `LayoutSlot` that attaches and later detaches leaves its region
      absent, whatever the region held before it attached. */
  lemma DetachedRegionAbsent(s: LayoutState, region: Region, c: Node, cls: Option<string>)
    ensures !Has(Step(Step(s, AttachOp(region.Slot(), c, cls)), DetachOp(region.Slot())), region)
    ensures ClassOf(Step(Step(s, AttachOp(region.Slot(), c, cls)), DetachOp(region.Slot())).registry, region.Slot()) == ""
  {
  }
}
