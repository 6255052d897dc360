/** The slot registry: per named region, the content a collaborator
    registered and a presentation class name. Used with the five layout slot
    names (src/structure/layout-provider.tsx) and with the three sidebar
    sub-slot names (src/structure/sidebar-provider.tsx); `Attach` and
    `Detach` are the two halves of the effect of `LayoutSlot` and
    `SidebarSlot`. */
module Slots {
  import opened Options

  /** Slot content, abstracted to what the layout inspects: `Null` is
      `null`/`undefined`, `Falsy` is a present but falsy child (`false`, `""`,
      `0`), `Element` a renderable child. */
  datatype Node = Null | Falsy | Element(id: nat)

  /** `!!node`. */
  predicate Truthy(n: Node) { n.Element? }

  /** The layout's slot names (`keyof LayoutSlots`). */
  datatype LayoutSlotName = SidebarSlot | HeaderSlot | BodySlot | InfobarSlot | FooterSlot

  /** The sidebar's sub-slot names (`keyof SidebarSlots`). */
  datatype SidebarSlotName = SidebarHeader | SidebarBody | SidebarFooter

  /** The `slots` and `classNames` objects of a provider. */
  datatype Registry<K(==)> = Registry(slots: map<K, Node>, classNames: map<K, string>)

  /** `slots[k]`; a key never written reads as `undefined`. */
  function SlotOf<K(==, !new)>(r: Registry<K>, k: K): Node
  {
    if k in r.slots then r.slots[k] else Null
  }

  /** `classNames[k]`; a key never written reads as the empty class. */
  function ClassOf<K(==, !new)>(r: Registry<K>, k: K): string
  {
    if k in r.classNames then r.classNames[k] else ""
  }

  /** A registry every one of whose `keys` is `null` with class `""`. */
  function Cleared<K(==, !new)>(keys: set<K>): (r: Registry<K>)
    ensures forall k :: SlotOf(r, k) == Null && ClassOf(r, k) == ""
    ensures r.slots.Keys == keys && r.classNames.Keys == keys
  {
    Registry(map k | k in keys :: Null, map k | k in keys :: "")
  }

  /** `setSlot`: `{ ...prev, [slot]: value }` on the slots object. */
  function SetSlot<K(==, !new)>(r: Registry<K>, k: K, v: Node): (r': Registry<K>)
    ensures SlotOf(r', k) == v
    ensures forall j :: j != k ==> SlotOf(r', j) == SlotOf(r, j)
    ensures forall j :: ClassOf(r', j) == ClassOf(r, j)
  {
    r.(slots := r.slots[k := v])
  }

  /** `setClassName`: `{ ...prev, [name]: value }` on the class-name object. */
  function SetClassName<K(==, !new)>(r: Registry<K>, k: K, c: string): (r': Registry<K>)
    ensures ClassOf(r', k) == c
    ensures forall j :: j != k ==> ClassOf(r', j) == ClassOf(r, j)
    ensures forall j :: SlotOf(r', j) == SlotOf(r, j)
  {
    r.(classNames := r.classNames[k := c])
  }

  /** The effect body of a slot component: `setSlot(name, children)` then
      `setClassName(name, className ?? "")`. */
  function Attach<K(==, !new)>(r: Registry<K>, k: K, children: Node, className: Option<string>): (r': Registry<K>)
    ensures SlotOf(r', k) == children
    ensures ClassOf(r', k) == (if className.Some? then className.value else "")
    ensures forall j :: j != k ==> SlotOf(r', j) == SlotOf(r, j) && ClassOf(r', j) == ClassOf(r, j)
  {
    SetClassName(SetSlot(r, k, children), k, className.GetOr(""))
  }

  /** The effect cleanup: `setSlot(name, null)` then `setClassName(name, "")`. */
  function Detach<K(==, !new)>(r: Registry<K>, k: K): (r': Registry<K>)
    ensures SlotOf(r', k) == Null && ClassOf(r', k) == ""
    ensures forall j :: j != k ==> SlotOf(r', j) == SlotOf(r, j) && ClassOf(r', j) == ClassOf(r, j)
  {
    SetClassName(SetSlot(r, k, Null), k, "")
  }

  /** Registries that read the same on every key are the same registry up to
      what can be observed. */
  ghost predicate SameView<K(!new)>(a: Registry<K>, b: Registry<K>)
  {
    forall k :: SlotOf(a, k) == SlotOf(b, k) && ClassOf(a, k) == ClassOf(b, k)
  }

  /** Detaching after attaching leaves `null` and `""` whatever the slot held
      before the attach: nothing is restored, so the pair is observably the
      same as a bare detach. */
  lemma AttachDetach<K(!new)>(r: Registry<K>, k: K, children: Node, className: Option<string>)
    ensures SameView(Detach(Attach(r, k, children, className), k), Detach(r, k))
    ensures SlotOf(Detach(Attach(r, k, children, className), k), k) == Null
  {
  }

  /** Two registrants under one name: the second attach wins, and when the
      first one detaches it clears the slot although the second is still
      registered. */
  lemma SharedNameCleared<K(!new)>(r: Registry<K>, k: K, a: Node, b: Node, ca: Option<string>, cb: Option<string>)
    ensures SlotOf(Attach(Attach(r, k, a, ca), k, b, cb), k) == b
    ensures SlotOf(Detach(Attach(Attach(r, k, a, ca), k, b, cb), k), k) == Null
  {
  }

  /** A dependency change runs the old cleanup, then the new effect: the new
      name holds exactly the new registration and the old name, if different,
      is cleared. */
  lemma Rerun<K(!new)>(r: Registry<K>, k: K, c: Node, cls: Option<string>, k': K, c': Node, cls': Option<string>)
    ensures var r' := Attach(Detach(Attach(r, k, c, cls), k), k', c', cls');
      && SlotOf(r', k') == c'
      && ClassOf(r', k') == cls'.GetOr("")
      && (k != k' ==> SlotOf(r', k) == Null && ClassOf(r', k) == "")
      && (forall j :: j != k && j != k' ==> SlotOf(r', j) == SlotOf(r, j) && ClassOf(r', j) == ClassOf(r, j))
  {
  }

  /** One lifecycle step of a slot component. */
  datatype SlotEvent<K(==)> = Attached(name: K, children: Node, className: Option<string>) | Detached(name: K)

  function Apply<K(==, !new)>(r: Registry<K>, e: SlotEvent<K>): Registry<K>
  {
    match e
    case Attached(k, c, cls) => Attach(r, k, c, cls)
    case Detached(k) => Detach(r, k)
  }

  /** The registry after a sequence of attach/detach events, in order. */
  function Replay<K(==, !new)>(r: Registry<K>, evs: seq<SlotEvent<K>>): Registry<K>
    decreases |evs|
  {
    if |evs| == 0 then r else Apply(Replay(r, evs[..|evs| - 1]), evs[|evs| - 1])
  }

  /** The last event of `evs` that names `k`, if any. */
  function LastFor<K(==, !new)>(evs: seq<SlotEvent<K>>, k: K): Option<SlotEvent<K>>
    decreases |evs|
  {
    if |evs| == 0 then None
    else if evs[|evs| - 1].name == k then Some(evs[|evs| - 1])
    else LastFor(evs[..|evs| - 1], k)
  }

  /** What a slot reads after an event about it. */
  function ReadAfter<K(==, !new)>(e: SlotEvent<K>): (Node, string)
  {
    match e
    case Attached(_, c, cls) => (c, cls.GetOr(""))
    case Detached(_) => (Null, "")
  }

  /** Last registration wins, over any interleaving of attach and detach
      events: a slot holds what its last event wrote, or its initial value if
      no event named it. */
  lemma {:induction false} LastEventWins<K(!new)>(r: Registry<K>, evs: seq<SlotEvent<K>>, k: K)
    ensures LastFor(evs, k).None? ==> SlotOf(Replay(r, evs), k) == SlotOf(r, k) && ClassOf(Replay(r, evs), k) == ClassOf(r, k)
    ensures LastFor(evs, k).Some? ==> (SlotOf(Replay(r, evs), k), ClassOf(Replay(r, evs), k)) == ReadAfter(LastFor(evs, k).value)
    decreases |evs|
  {
    if |evs| > 0 {
      var e := evs[|evs| - 1];
      var prefix := evs[..|evs| - 1];
      LastEventWins(r, prefix, k);
      if e.name != k {
        assert LastFor(evs, k) == LastFor(prefix, k);
      }
    }
  }
}
