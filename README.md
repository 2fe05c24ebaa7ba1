# Zoom widget

A Dafny model of deck.gl's zoom widget (`ZoomWidget`). The widget is a pair of
zoom buttons that the host engine mounts as a `div` over its canvas. While
mounted, its configuration can be updated. It keeps track of the host's views
and, on each button press, sends every known view one zoom step as a
fly-to camera transition.

The model covers the widget's whole lifecycle:

- **Construction**: the options are defaulted with JavaScript `||`, so any
  falsy option (`undefined`, `null`, `""`, `0`) takes the default.
- **Mounting** (`onAdd`): a fresh element gets the base classes, the optional
  extra class and the style overrides.
- **Unmounting** (`onRemove`).
- **Property updates** (`setProps`): the mounted element's class and inline
  style are reconciled with the partial update, then the partial is merged
  into the props.
- **The viewport registry** (`onViewportChange`): a dictionary keyed by view
  id, where the last write wins.
- **The zoom commands** (`handleZoom`, `handleZoomIn`, `handleZoomOut`).

The files follow the program's structure:

- `js_values.dfy` (module `JsValues`): the JavaScript values the widget
  handles, truthiness, `||`, property lookup and `Object.assign`. Objects are
  maps from a property name to a value, so that `||`, `Object.assign` and the
  object spread read as they do in the source.
- `dom.dfy` (module `Dom`): the element, as a class with its class list and
  its inline style. It also holds the host's `applyStyles`, `removeStyles` and
  `deepEqual` helpers.
- `host.dfy` (module `Host`): the host engine, as a class that records every
  view-state change it is sent, in order.
- `viewports.dfy` (module `Viewports`): the registry and the zoom commands, as
  functions, with the lemmas about them.
- `zoom_widget.dfy` (module `Widgets`): the constructor's defaulting and the
  reconciliation, as functions. The `ZoomWidget` class updates its fields in
  place as the source does. The file ends with an end-to-end scenario: a
  widget mounted on a host with two views, pressing zoom-in.

Two behaviours of the code are worth stating plainly:

- **The target view does not filter viewports.** The doc comment on `viewId`
  (`zoom-widget.tsx:19-21`) reads as if the widget acted on that one view.
  The code sends one command per registered viewport and routes all of them
  to `viewId`. With `viewId` `"A"` and the views A and B, a zoom-in sends two
  commands, both to `"A"`, and the second carries B's id and B's zoom
  (`TwoViewportsExample`, `TargetViewRoutesEveryCommand`).
- **The `'default-view'` fallback is narrow.** It is used only when no target
  view is configured and the viewport's own id is empty (`Target`).

Objects are maps keyed by `Key`. It has a constructor for each property name
the widget reads or writes, and `Named(name)` for any other name. The
predicate `Canonical` says that no `Named` key spells one of the former.
That way an object holds each property once, as a JavaScript object does.
Props, viewport snapshots and the view states built from them are canonical.

## Model

| member | source | states |
|---|---|---|
| JsValues.Assign | modules/widgets/src/zoom-widget.tsx:119 | `Object.assign`: every key present in the partial, even one holding `undefined`, takes the partial's value. Every key absent from it keeps its old value. No other key appears. Two canonical objects merge into a canonical one. |
| Widgets.AssignKeepsTyped | modules/widgets/src/zoom-widget.tsx:104-119 | Merging a well-typed partial into well-typed props gives well-typed props. |
| Widgets.Construct | modules/widgets/src/zoom-widget.tsx:59-63 | After construction, `id`, `placement` and `orientation` are set strings, and `viewId` is `null` or a non-empty string. Each took the default (`'zoom'`, `null`, `'top-left'`, `'vertical'`) exactly when its input was falsy, and is the input otherwise. |
| Widgets.ConstructFillsProps | modules/widgets/src/zoom-widget.tsx:64-68 | `transitionDuration`, `zoomInLabel`, `zoomOutLabel` and `style` are present and truthy in the kept props. Each is the default (`200`, `'Zoom In'`, `'Zoom Out'`, `{}`) exactly when the input was falsy, so a duration of `0` becomes `200`. Every other key is present iff it was given, with its value unchanged. |
| Widgets.ConstructPropsIdempotent | modules/widgets/src/zoom-widget.tsx:64-68 | The filled-in props are a fixed point of the filling-in. |
| Widgets.ConstructIdempotent | modules/widgets/src/zoom-widget.tsx:59-68 | Constructing from a constructed widget's props gives the same settings and props. |
| Widgets.ZoomWidget.constructor | modules/widgets/src/zoom-widget.tsx:50-69 | The fields are those `Construct` gives. The registry is empty and the widget is not mounted. The invariant `Valid` holds. |
| Widgets.MountedClasses | modules/widgets/src/zoom-widget.tsx:74-75 | A mounted element's classes are `deck-widget` and `deck-widget-zoom`, plus `className` when it is truthy, and nothing else. |
| Dom.WithStyles | modules/widgets/src/zoom-widget.tsx:76 | `applyStyles`: every property of a style object is set on the element. The others are kept. A value that is not a style object changes nothing. |
| Dom.WithoutStyles | modules/widgets/src/zoom-widget.tsx:114 | `removeStyles`: exactly the properties the old style names are cleared. The others keep their values. |
| Dom.Element.constructor | modules/widgets/src/zoom-widget.tsx:73 | A new `div` has no class and no inline style. |
| Dom.Element.AddClass | modules/widgets/src/zoom-widget.tsx:74-75 | `classList.add` adds the token and leaves the style alone. |
| Dom.Element.RemoveClass | modules/widgets/src/zoom-widget.tsx:109 | `classList.remove` removes the token and leaves the style alone. |
| Dom.Element.ApplyStyles | modules/widgets/src/zoom-widget.tsx:76 | The inline style becomes `WithStyles` of the old one. Classes are unchanged. |
| Dom.Element.RemoveStyles | modules/widgets/src/zoom-widget.tsx:114 | The inline style becomes `WithoutStyles` of the old one. Classes are unchanged. |
| Widgets.CreateElement | modules/widgets/src/zoom-widget.tsx:72-76 | The element is fresh, its classes are `MountedClasses(className)`, and its style is the overrides applied to an empty style. |
| Widgets.ZoomWidget.OnAdd | modules/widgets/src/zoom-widget.tsx:71-97 | Records the given host, and a fresh element (distinct from any earlier one) that it returns. That element has the mounted classes and the style overrides. Props, registry and settings are unchanged, and `Valid` is kept. |
| Widgets.ZoomWidget.OnRemove | modules/widgets/src/zoom-widget.tsx:99-102 | Host and element become absent. Props, registry and settings are unchanged. |
| Dom.StylesEqual | modules/widgets/src/zoom-widget.tsx:113 | `deepEqual(old, new, 1)` on two style values holds exactly when they are the same non-object value, or are two style objects with the same property names and the same string under each name. |
| Widgets.ReconcileClasses | modules/widgets/src/zoom-widget.tsx:108-111 | When the stored and the new `className` are equal, the classes are unchanged. Otherwise a truthy new class is present, a truthy old class is gone, and every other class is kept. No class is added beyond the new one. |
| Widgets.ReconcileStyles | modules/widgets/src/zoom-widget.tsx:113-116 | When the styles are deep-equal, the inline style is unchanged. Otherwise every new property holds its new value, and an old property the new style does not name is cleared. Properties neither style names are kept. |
| Widgets.UpdateClass | modules/widgets/src/zoom-widget.tsx:108-111 | The element's classes become `ReconcileClasses` of the old ones. The style is untouched. |
| Widgets.UpdateStyle | modules/widgets/src/zoom-widget.tsx:113-116 | The element's style becomes `ReconcileStyles` of the old one. The classes are untouched. |
| Widgets.ZoomWidget.SetProps | modules/widgets/src/zoom-widget.tsx:104-120 | Props become `Assign(old props, partial)`. A mounted element is reconciled against the stored `className` and `style`. An unmounted widget changes no element. Registry, host and settings (`id`, `viewId`, `placement`, `orientation`) are unchanged, and `Valid` is kept. |
| Widgets.RepeatedSetPropsStable | modules/widgets/src/zoom-widget.tsx:104-119 | Repeating a `setProps` merges nothing new. It leaves the element's class and style alone for each of `className` and `style` that the partial sets. |
| Widgets.OmittedKeysStripElement | modules/widgets/src/zoom-widget.tsx:105-119 | A partial that omits `className` and `style` strips the stored class and style properties from a mounted element, yet the stored props keep both. |
| Widgets.ZoomWidget.OnViewportChange | modules/widgets/src/zoom-widget.tsx:122-124 | The registry files the snapshot under its id. A new id goes last in `Object.values` order and an existing one keeps its place. `Valid` is kept, and nothing else changes. |
| Viewports.Upserted | modules/widgets/src/zoom-widget.tsx:123 | The key order after `viewports[id] = ...`: it holds `id`, and exactly the old keys plus `id`. The old order is kept as a prefix. It grows by one exactly when `id` is new. |
| Viewports.UpsertKeepsRegistry | modules/widgets/src/zoom-widget.tsx:123 | After `viewports[v.id] = v` with a canonical snapshot: the registry stays well formed, the entry for `v.id` is `v`, every other entry is unchanged, and the size grows by one exactly when the id is new. |
| Viewports.LastWriteWins | modules/widgets/src/zoom-widget.tsx:123 | Two snapshots with one id leave one entry, the later one. |
| Viewports.RegistrySize | modules/widgets/src/zoom-widget.tsx:139 | `Object.values` lists as many viewports as the registry holds. |
| Viewports.ValuesOf | modules/widgets/src/zoom-widget.tsx:139 | `Object.values` lists the registry's entries in key order, one per key. |
| Viewports.ViewStateOf | modules/widgets/src/zoom-widget.tsx:128-133 | The spread `{...viewport, zoom, transitionDuration, transitionInterpolator}` holds the new zoom and the configured transition duration. |
| Viewports.ViewStateShape | modules/widgets/src/zoom-widget.tsx:128-133 | A command's view state has the viewport's properties, its id, the new zoom, the configured transition duration and a fly-to interpolator, and nothing else. A canonical snapshot gives a canonical view state, so it has a single `zoom`. |
| Viewports.Target | modules/widgets/src/zoom-widget.tsx:127 | The target is always truthy. It is the configured view when that is truthy, else the viewport's id when non-empty, else `'default-view'`. |
| Widgets.ZoomWidget.HandleZoom | modules/widgets/src/zoom-widget.tsx:126-136 | Exactly one view-state change, to `Target` with `ViewStateOf`, is appended to the host's log. The widget is unchanged. |
| Host.Deck.constructor | modules/widgets/src/zoom-widget.tsx:135 | A host starts with an empty log. |
| Host.Deck.OnViewStateChange | modules/widgets/src/zoom-widget.tsx:135 | Each call appends its change to the host's log. |
| Viewports.ZoomCommands | modules/widgets/src/zoom-widget.tsx:139-147 | One command per viewport, in order, the k-th built from the k-th viewport with its zoom moved by the step. |
| Viewports.ZoomCommandsPrefix | modules/widgets/src/zoom-widget.tsx:139-147 | Each loop iteration appends the next viewport's command to those already sent. |
| Widgets.ZoomWidget.HandleZoomIn | modules/widgets/src/zoom-widget.tsx:138-142 | The host's log grows by exactly `ZoomCommands` of the registry's values with step `+1`. The registry and the widget are not modified. With an empty registry nothing is sent and no host is needed. |
| Widgets.ZoomWidget.HandleZoomOut | modules/widgets/src/zoom-widget.tsx:144-148 | As `HandleZoomIn`, with step `-1`. |
| Viewports.ZoomCommandsPerViewport | modules/widgets/src/zoom-widget.tsx:138-148 | A press sends exactly as many commands as registered viewports. The k-th command is built from the k-th key's entry, and every registered viewport has its command. |
| Viewports.EmptyRegistrySendsNothing | modules/widgets/src/zoom-widget.tsx:138-148 | An empty registry gives zero commands. |
| Viewports.TargetViewRoutesEveryCommand | modules/widgets/src/zoom-widget.tsx:127-147 | With a target view configured, every command goes to it and none is filtered out. |
| Viewports.ZoomInOutDifferOnlyInZoom | modules/widgets/src/zoom-widget.tsx:138-148 | The zoom-in and zoom-out commands for a viewport have the same target and the same view state except the zoom: `zoom + 1` against `zoom - 1`. |
| Viewports.TwoViewportsExample | modules/widgets/src/zoom-widget.tsx:126-148 | Views A (zoom 3) and B (zoom 5) with no target: zooming in sends A→4 and B→6, and zooming out A→2 and B→4. With target `"A"`, two commands are still sent, both to A. |
| Widgets.NewMounted | modules/widgets/src/zoom-widget.tsx:59-97 | A widget built with no props and mounted on a fresh host: no target view, duration `200`, empty registry, empty host log. |
| Widgets.MountedWithTwoViews | modules/widgets/src/zoom-widget.tsx:122-124 | After two views with distinct ids are reported, the registry holds both, in report order. |
| Widgets.TwoViewsZoomIn | modules/widgets/src/zoom-widget.tsx:59-148 | End to end: constructed, mounted, two views reported, one zoom-in press. The host receives A→4 and B→6, each at its own view, with the default duration `200`. |

## Left out

- Rendering is not modelled: the DOM, Preact's `render`, `ButtonGroup` and `GroupedIconButton` (lines 77-91). `orientation`, `placement` and the labels are only stored. The buttons' callbacks are the methods `HandleZoomIn` and `HandleZoomOut`.
- The element's `classList` is a set of strings. DOM token validation (an empty or whitespace token throws) is not modelled. `className` is assumed to be a string or `undefined`, as its declared type says.
- `applyStyles`, `removeStyles` and `deepEqual` come from the host engine. Their code is not modelled; their effect is modelled as map overwrite, map removal and depth-1 equality of style objects with string values. CSS custom properties and non-string style values are not modelled.
- The TypeScript types of `ZoomWidgetProps` become the predicate `WellTyped`, which the constructor and `setProps` require. It also requires the props to be `Canonical`. The props object's other keys are kept as given.
- `FlyToInterpolator` is an opaque value. The empty interaction state passed to `_onViewStateChange` is not kept.
- Widgets.ZoomWidget.HandleZoom: requires a host, because the source throws when `deck` is unset. `HandleZoomIn` and `HandleZoomOut` therefore require a host unless the registry is empty.
- Zoom levels are reals: IEEE-754 rounding, `NaN` and `-0` are not modelled.
- `Object.values` lists keys in insertion order. JavaScript's rule that integer-like keys come first, in numeric order, is not modelled.
- Viewports are plain values: `Viewport(id, zoom, rest)`, with `rest` holding the other own properties that `{...viewport}` copies. `OnViewportChange` requires `rest` to be `Canonical`, as every JavaScript object is.
- The constructor writes its defaults into the caller's props object. The model treats props as a value, so this aliasing is not modelled.
- A host that calls back into the widget (a viewport change during a zoom press) is not modelled. The press iterates over a snapshot of the registry's values taken before the loop.
