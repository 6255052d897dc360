/** The `SidebarProvider` of src/structure/sidebar-provider.tsx: the
    sidebar's header, body and footer sub-slots with their class names.
    `SidebarSlot` (src/structure/sidebar-slot.tsx) registers into it with
    `Attach` and clears with `Detach`. */
module SidebarStore {
  import opened Options
  import opened Slots

  const AllSubSlots: set<SidebarSlotName> := {SidebarHeader, SidebarBody, SidebarFooter}

  /** The initial state: every sub-slot `null`, every class name `""`. */
  function Init(): (r: Registry<SidebarSlotName>)
    ensures forall k :: SlotOf(r, k) == Null && ClassOf(r, k) == ""
    ensures r.slots.Keys == AllSubSlots && r.classNames.Keys == AllSubSlots
  {
    Cleared(AllSubSlots)
  }

  /** `setSlot`: one sub-slot replaced, the others kept. */
  function SetSubSlot(r: Registry<SidebarSlotName>, k: SidebarSlotName, v: Node): (r': Registry<SidebarSlotName>)
    ensures SlotOf(r', k) == v
    ensures forall j :: j != k ==> SlotOf(r', j) == SlotOf(r, j)
    ensures forall j :: ClassOf(r', j) == ClassOf(r, j)
  {
    SetSlot(r, k, v)
  }

  /** `setClassName`: one class name replaced, the others kept. */
  function SetSubClassName(r: Registry<SidebarSlotName>, k: SidebarSlotName, c: string): (r': Registry<SidebarSlotName>)
    ensures ClassOf(r', k) == c
    ensures forall j :: j != k ==> ClassOf(r', j) == ClassOf(r, j)
    ensures forall j :: SlotOf(r', j) == SlotOf(r, j)
  {
    SetClassName(r, k, c)
  }

  /** The last `setSlot` on a sub-slot wins. */
  lemma LastSubSlotWriteWins(r: Registry<SidebarSlotName>, k: SidebarSlotName, a: Node, b: Node)
    ensures SetSubSlot(SetSubSlot(r, k, a), k, b) == SetSubSlot(r, k, b)
  {
  }

  /** A `SidebarSlot` mounted into a fresh sidebar and then unmounted leaves
      the sidebar as it started: all sub-slots `null`, all classes `""`. */
  lemma MountUnmountFresh(k: SidebarSlotName, c: Node, cls: Option<string>)
    ensures SlotOf(Detach(Attach(Init(), k, c, cls), k), k) == Null
    ensures SameView(Detach(Attach(Init(), k, c, cls), k), Init())
  {
  }
}
