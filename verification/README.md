# Lucent layout state engine in Dafny

This project models the state engine of the Lucent React layout toolkit. The
engine has five parts:

- the mode token sets (theme, header, footer, sidebar, infobar);
- the configuration normalizer, which fills every missing mode and size with a fixed default;
- the mode store, with its predicates, its `setMode`/`setParams`/`setParam`/`setHasSlot` updates and its seven toggles;
- the slot registry of the layout and of the sidebar, with the attach/detach effect of `LayoutSlot` and `SidebarSlot`;
- the derived outputs: the `data-*-mode` attribute map, the CSS-variable map and the `cn` class-string join.

The canonical schema is the three-state one: one field per region, with the
sidebar and infobar holding `base`, `hidden` or `collapsed`. The legacy split
schema has an independent visible/hidden field and collapsed/expanded field
per region. It is modelled on its own in `SplitSchema` and `SplitLayout`, with
its provider, its normalizer and its `Layout` shell. The model does not claim
that the two schemas are equivalent. The split schema can be hidden and
collapsed at once (`SplitSchema.HiddenAndCollapsedCoexist`), and the
three-state schema cannot (`ModeMachine.HiddenCollapsedExclusive`).

Each React state update is modelled as a pure transition from one committed
state to the next. Slot content is abstracted to `Slots.Node`:

- `Null` is `null` or `undefined`;
- `Falsy` is a present but falsy child such as `false`, `""` or `0`;
- `Element` is a renderable child.

The `??` operator replaces only `Null`. The `!!` test is true only for `Element`.

Modules, by file:

- `options.dfy`: `Option` (with `GetOr` as `??`) and `Result`.
- `tokens.dfy`: the token enumerations of src/lib/constants.ts.
- `config.dfy`: `normalizeModes`, `normalizeParams`, `normalizeConfig`.
- `mode_machine.dfy`: the predicates, `setMode` and the toggle table shared by both three-state providers.
- `store.dfy`: the provider of src/structure/provider.tsx.
- `slots.dfy`: the generic slot registry, attach/detach, and replay of attach/detach events.
- `layout_store.dfy` and `sidebar_store.dfy`: the providers of src/structure/layout-provider.tsx and src/structure/sidebar-provider.tsx.
- `derive.dfy`: `makeModeAttributes` and `calcStyles`.
- `class_names.dfy`: `cn`.
- `split_schema.dfy` and `split_layout.dfy`: the split schema.

Behaviour worth knowing, as the code has it:

- The size defaults are `"0rem"` and the transition default is `"0.1s"`. `"3.125rem"` and `"15.625rem"` appear only in the demo application's layout configuration.
- `calcStyles` ignores slot presence (`Derive.DerivedIgnoresPresence`): a hidden region gets zero size, an empty one keeps its configured size.
- In the split schema, the collapse fields default to `"collapsed"`, not `"expanded"`.
- The toggles of the three-state sidebar and infobar are not involutions from every state.
- `setMode` rejects nothing.
- The "no active layout" error cannot be reached, because the default context is `{}`, which is truthy.

## Model

| member | source | states |
|---|---|---|
| Tokens.ThemeToken | src/lib/constants.ts:5-6 | the theme token is "light" or "dark" and reads back to the same theme |
| Tokens.BarToken | src/lib/constants.ts:12-20 | the header/footer token is "base" or "hidden" and reads back to the same mode |
| Tokens.PanelToken | src/lib/constants.ts:26-36 | the sidebar/infobar token is "base", "hidden" or "collapsed" and reads back to the same mode |
| Tokens.TokenSetsExact | src/lib/constants.ts:5-36 | the theme has exactly 2 tokens, header/footer 2, sidebar/infobar 3, and each token names one constructor |
| Tokens.TokensInjective | src/lib/constants.ts:5-36 | the tokens of one enumeration are pairwise distinct |
| Config.NormalizeModes | src/lib/utils.ts:60-70 | an absent section gives light/base everywhere; supplied fields are kept and missing ones take their default |
| Config.NormalizeModesRoundTrip | src/lib/utils.ts:64-68 | fully supplied modes pass through normalization unchanged |
| Config.NormalizeModesIdempotent | src/lib/utils.ts:60-70 | normalizing a normalized result changes nothing |
| Config.NormalizeModesUnique | src/lib/utils.ts:60-70 | the keep-supplied, default-missing contract determines the result |
| Config.NormalizeParams | src/lib/utils.ts:77-89 | supplied sizes pass through; missing sizes are "0rem"; a missing transition duration is "0.1s" |
| Config.NormalizeConfig | src/lib/utils.ts:96-103 | an absent config or section counts as empty; the result is the normalized modes and the normalized params |
| Config.AbsentIsEmpty | src/lib/utils.ts:96-103 | an absent config, an empty config and empty sections all normalize to the defaults |
| ModeMachine.HiddenCollapsedExclusive | src/structure/provider.tsx:45-52 | each predicate compares one field with one token; hidden and collapsed never hold together |
| ModeMachine.SetMode | src/structure/provider.tsx:59-64 | the named field takes the value; every other field keeps its token |
| ModeMachine.SetModeLaws | src/structure/provider.tsx:59-64 | writing the current token is a no-op; the second of two writes to one field wins |
| ModeMachine.ApplyToggle | src/structure/provider.tsx:105-150 | each toggle negates the predicate it reads and changes only its own field; a visibility toggle never collapses and a collapse toggle never hides |
| ModeMachine.ToggleContractComplete | src/structure/provider.tsx:105-150 | the contract of the toggles determines their result uniquely |
| ModeMachine.BinaryToggleInvolution | src/structure/provider.tsx:105-122 | the theme, header and footer toggles are involutions |
| ModeMachine.PanelToggleTable | src/structure/provider.tsx:127-150 | visible toggle: hidden becomes base, anything else becomes hidden; collapse toggle: collapsed becomes base, anything else becomes collapsed; the infobar uses the same table |
| ModeMachine.PanelToggleTwice | src/structure/provider.tsx:127-150 | a sidebar/infobar toggle applied twice restores the state iff the start was not the other toggle's token; otherwise it ends at base |
| ModeMachine.CollapsedSidebarVisibleTwice | src/structure/provider.tsx:127-129 | from collapsed, two visibility toggles go to hidden and then to base, not back to collapsed |
| Store.Init | src/structure/provider.tsx:39-43 | the initial state holds the normalized modes and params, with no slot marked present |
| Store.SetParams | src/structure/provider.tsx:71-76 | supplied fields replace the old values; the rest are kept |
| Store.SetParam | src/structure/provider.tsx:83-88 | one parameter is replaced; all others are kept |
| Store.OverlayLaws | src/structure/provider.tsx:71-88 | setParam is setParams with one field; an empty overlay is a no-op; normalizeParams is an overlay on the defaults |
| Store.SetParamsCompose | src/structure/provider.tsx:71-76 | two overlays equal one overlay of the merged sections, with the later one winning |
| Store.SetHasSlot | src/structure/provider.tsx:95-100 | one presence flag is set; the others are unchanged |
| Store.Step | src/structure/provider.tsx:59-150 | each update changes only its own part of the state (modes, params or presence); setMode writes the named field and keeps the others, setParams overlays the supplied fields, setParam writes one parameter and keeps the rest, setHasSlot writes one flag and keeps the rest, and a toggle negates its predicate, keeps the other fields and never lands on the other toggle's token |
| Slots.Attach | src/structure/layout-slot.tsx:12-14 | registers the children and `className ?? ""` under the name; other slots are untouched |
| Slots.Detach | src/structure/layout-slot.tsx:16-19 | sets the slot to null and the class to ""; other slots are untouched |
| Slots.AttachDetach | src/structure/layout-slot.tsx:12-19 | attach then detach is observably a bare detach: null and "", with nothing restored |
| Slots.SharedNameCleared | src/structure/layout-slot.tsx:12-19 | of two registrants under one name, the second wins, and the first one's detach clears the slot |
| Slots.Rerun | src/structure/layout-slot.tsx:12-20 | after a dependency change, the new name holds exactly the new registration and an old, different name is cleared |
| Slots.LastEventWins | src/structure/sidebar-slot.tsx:12-20 | over any sequence of attach/detach events, a slot holds what its last event wrote, or its initial value if no event named it |
| LayoutStore.Init | src/structure/layout-provider.tsx:35-40 | the initial state holds the normalized modes and no sizes, with every slot null and every class "" |
| LayoutStore.Has | src/structure/layout-provider.tsx:79-82 | a region is present iff its slot is truthy and its mode is not "hidden" |
| LayoutStore.PresenceVersusVisibility | src/structure/layout-provider.tsx:79-82 | populated but hidden means absent, while the slot keeps its content; a collapsed region is still present; an empty region is absent |
| LayoutStore.VisibleToggleFlipsPresence | src/structure/layout-provider.tsx:79-103 | for a populated region, the visibility toggle flips its presence |
| LayoutStore.SetModeIn | src/structure/layout-provider.tsx:47-49 | only the named mode field changes; slots and sizes are untouched |
| LayoutStore.SetSlotIn | src/structure/layout-provider.tsx:56-58 | one slot is replaced; the others, the classes, the modes and the sizes are unchanged |
| LayoutStore.SetClassNameIn | src/structure/layout-provider.tsx:65-67 | one class name is replaced; everything else is unchanged |
| LayoutStore.Toggle | src/structure/layout-provider.tsx:85-103 | negates the predicate it reads, keeps every other field and never lands on the other toggle's token, so `ModeMachine.ToggleContractComplete` fixes it to the other provider's table; slots and sizes are untouched |
| LayoutStore.Step | src/structure/layout-provider.tsx:47-103 | each call on the provider, or half of a `LayoutSlot` effect, writes only its own slot, class or mode field and keeps the rest; attach registers the children and `className ?? ""`, detach writes null and ""; `sizes` is never written |
| LayoutStore.SizesFixed | src/structure/layout-provider.tsx:38 | `sizes` keeps its initial value through any sequence of operations; slot-only sequences keep the modes |
| LayoutStore.DetachedRegionAbsent | src/structure/layout-slot.tsx:12-19 | a region whose slot attached and then detached is absent, with class "" |
| SidebarStore.Init | src/structure/sidebar-provider.tsx:10-19 | the header, body and footer sub-slots start null, with class "" |
| SidebarStore.SetSubSlot | src/structure/sidebar-provider.tsx:26-28 | one sub-slot is replaced; the others and the classes are kept |
| SidebarStore.SetSubClassName | src/structure/sidebar-provider.tsx:35-37 | one class name is replaced; the others and the sub-slots are kept |
| SidebarStore.LastSubSlotWriteWins | src/structure/sidebar-provider.tsx:26-28 | the last write to a sub-slot wins |
| SidebarStore.MountUnmountFresh | src/structure/sidebar-slot.tsx:12-19 | mounting a sidebar slot and then unmounting it leaves a fresh sidebar as it started |
| Derive.ModeAttributes | src/lib/utils.ts:110-120 | exactly five `data-*-mode` keys, each holding the current token of its field |
| Derive.ModeAttributesRoundTrip | src/lib/utils.ts:110-120 | the modes can be read back from the attribute map |
| Derive.PanelWidth | src/lib/utils.ts:147-159 | "0rem" when hidden, the collapsed width when collapsed, the full width at base |
| Derive.CalcStyles | src/lib/utils.ts:127-173 | a height is the configured value unless the region is hidden, in which case it is "0rem"; each width takes one of three branches; the transition duration passes through |
| Derive.WidthBranchesExclusive | src/lib/utils.ts:147-164 | when the three candidate widths are distinct, the width is "0rem" iff hidden, the collapsed width iff collapsed, and the full width iff base |
| Derive.DerivedIgnoresPresence | src/lib/utils.ts:127-142 | both derived maps ignore the slot presence flags |
| Derive.DarkThemeScenario | src/lib/utils.ts:96-164 | `{theme: "dark"}` normalizes with the rest at default; the collapse toggle gives the collapsed width, and a second toggle restores the full width |
| Derive.VisibilityTogglesAndSizes | src/lib/utils.ts:139-162 | a visibility toggle moves the header height or sidebar width between the configured value and "0rem" |
| ClassNames.TruthyKeys | src/lib/utils.ts:39-45 | the object piece lists a key iff some entry for it is true |
| ClassNames.TruthyKeysSnoc | src/lib/utils.ts:41-43 | keys are listed in entry order: one more entry appends its key when it is true and nothing otherwise |
| ClassNames.Piece | src/lib/utils.ts:26-50 | undefined, null and false give ""; a string passes through unchanged; true gives "true"; an array gives the words of its items and an empty array ""; a record gives the words of its truthy keys, and "" when none is true |
| ClassNames.Cn | src/lib/utils.ts:24-53 | splitting the result on spaces gives the words of every input's piece, in order; the length is the pieces' length plus one separator per neighbouring pair; no inputs give "" |
| ClassNames.CnDetermined | src/lib/utils.ts:24-53 | any string whose words are those of the pieces is the result of `cn`, so the contract of `Cn` fixes its content |
| ClassNames.ArrayAndObjectWords | src/lib/utils.ts:24-53 | `cn(a, items, record)` splits into `a`, then the items, then the truthy keys in entry order, when none holds a space |
| ClassNames.SplitConcat | src/lib/utils.ts:52 | splitting around one separator splits the two sides independently |
| ClassNames.SplitJoinAll | src/lib/utils.ts:52 | splitting a join gives the words of all pieces, whatever they contain |
| ClassNames.JoinSplit | src/lib/utils.ts:52 | joining the split pieces gives back the string |
| ClassNames.SplitAllFree | src/lib/utils.ts:52 | when no piece holds the separator, the words are the pieces themselves |
| ClassNames.SplitJoin | src/lib/utils.ts:52 | splitting a join on its separator recovers the pieces when none contains it |
| ClassNames.JoinLength | src/lib/utils.ts:52 | a join adds exactly one separator between neighbouring pieces |
| ClassNames.CnPieces | src/lib/utils.ts:24-53 | splitting `cn` on spaces recovers the per-input pieces when they hold no space |
| ClassNames.FalsyKeepsSeparator | src/lib/utils.ts:27-52 | undefined, null, false and "" contribute "", yet the separator stays: `cn(a, false)` is `a + " "` |
| SplitSchema.VisibilityToken | dist/index.js:53-74 | the visibility token is "visible" or "hidden" and reads back to the same value |
| SplitSchema.CollapseToken | dist/index.js:67-76 | the collapse token is "collapsed" or "expanded" and reads back to the same value |
| SplitSchema.NormalizeSplit | dist/index.js:113-140 | absent sections count as {}; theme defaults to light, visibility to visible, collapse to collapsed; supplied modes and slots pass through; the sidebar record always exists with null defaults |
| SplitSchema.NormalizeSplitIdempotent | dist/index.js:113-140 | normalizing a fully supplied normalized state returns it unchanged |
| SplitSchema.NullSidebarNotFixed | dist/index.js:117-134 | a null sidebar record comes back as three null sub-slots |
| SplitSchema.HiddenAndCollapsedCoexist | src/provider.tsx:103-109 | the defaults are collapsed, and one visibility toggle makes the sidebar hidden and collapsed at once |
| SplitSchema.SplitToggle | src/provider.tsx:119-137 | each toggle flips its own field to the other token, negates its predicate and keeps every other field |
| SplitSchema.SplitToggleInvolution | src/provider.tsx:119-137 | every split toggle is an involution from either token |
| SplitSchema.SetMode | src/provider.tsx:51-53 | only the named split field changes |
| SplitSchema.HasSidebarIff | src/provider.tsx:111 | the sidebar is present iff its record exists and some sub-slot is truthy |
| SplitSchema.GetMode | src/provider.tsx:86 | the value read for a field is that field's token and reads back to the field's value, so it is never null |
| SplitSchema.GetSlot | src/provider.tsx:93 | the value read for a plain slot is that slot's value, null when it was never set, and it is truthy iff the slot's `has*` predicate holds |
| SplitSchema.GetSidebarSlot | src/provider.tsx:100 | null when the sidebar record is absent, otherwise the sub-slot |
| SplitSchema.SetSlot | src/provider.tsx:60-62 | one slot is replaced; the others and the sidebar record are kept |
| SplitSchema.SetSidebarSlots | src/provider.tsx:68-70 | the whole sidebar record is replaced; the other slots are kept |
| SplitSchema.SetSidebarSlot | src/provider.tsx:77-79 | one sub-slot is replaced and the other two are kept (null if the record was null); the other slots are untouched |
| SplitLayout.Attributes | src/ui/layout.tsx:31-39 | exactly the seven keys, each holding its split field's token |
| SplitLayout.SevenAttributes | src/ui/layout.tsx:31-39 | the attribute map has seven distinct keys |
| SplitLayout.AttributesInjective | src/ui/layout.tsx:31-39 | distinct modes give distinct attribute maps |
| SplitLayout.Render | src/ui/layout.tsx:20-39 | an error iff there is no truthy content; otherwise content is always included, each region is included iff its `has*` holds, and the attributes mirror the modes |
| SplitLayout.EmptyContentFatal | src/ui/layout.tsx:20-22 | a layout normalized without truthy content cannot render |
| SplitLayout.HiddenHeaderStillRendered | src/ui/layout.tsx:24-28 | in this schema, a populated but hidden header is still rendered |

## Left out

- React machinery is not modelled: rendering, `useState`/`useEffect`/`useCallback` and render scheduling. Each update is one sequential transition. Toggles that read render-time values, so that two toggles in one tick collapse into one, are not modelled.
- The "no active layout" error in src/lib/context.ts cannot be reached, because the default context `{}` is truthy. It is not modelled.
- ModeMachine.SetMode: a `null` value, or a token of another field's enumeration, cannot be represented. The TypeScript signature admits both, and the code does not reject them.
- SplitSchema.SetSidebarSlot: the code builds the new record from `slots.sidebar` as captured at render time, not from the pending state, so two calls in one render keep only the last sub-slot. The model applies each call to the committed state, which is what happens when calls come in separate renders.
- SplitSchema.SetMode: the same restriction as ModeMachine.SetMode. The whole-object setters `setModes` and `setSlots` are plain replacements and are not modelled.
- Store.SetParam: a `null` value cannot be represented.
- Store.SetParams: a key that is present with value `undefined` is treated as absent. Object spread would overwrite the old value with `undefined`.
- LayoutStore.Init: normalizeConfig of src/lib/utils.ts emits no `slots`, `classNames` or `sizes`. The code would start with these `undefined`. The model starts with every slot null and every class "", and with `sizes` absent.
- Store.Init: normalizeConfig emits no `hasSlots`, so the code starts with `undefined`. The model starts with every presence flag false, keyed by the five layout slot names.
- ClassNames.Cn: number inputs are not modelled, and neither are array elements that are not strings. Object entries are taken in enumeration order; JavaScript enumerates integer-like keys first.
- The params type declares `sidebarHeaderHeight`, `sidebarFooterHeight` and `transitionGridDuration`, which `normalizeParams` does not emit. They are not modelled.
- The sidebar API type declares `hasHeader`/`hasFooter`, which `SidebarProvider` does not provide. They are not modelled.
- Not modelled because they are presentation: the vendored third-party code in dist/index.js, the scrollbar wrapper, CSS, the demo application, build configuration, and the per-component inline width/height styles and class composition.
