/** The zoom widget: a pair of buttons that the host mounts as a `div`, whose
    configuration can be updated while mounted, which tracks the host's
    viewports and sends each of them one zoom step per button press. */
module Widgets {
  import opened JsValues
  import opened Dom
  import opened Host
  import opened Viewports

  const DefaultId := "zoom"
  const DefaultPlacement := "top-left"
  const DefaultOrientation := "vertical"
  const DefaultTransitionDuration := 200.0
  const DefaultZoomInLabel := "Zoom In"
  const DefaultZoomOutLabel := "Zoom Out"

  /** The two classes every mounted widget element starts with. */
  const BaseClasses: set<string> := {"deck-widget", "deck-widget-zoom"}

  /** The property keys the constructor fills in on the props object itself. */
  const FilledKeys: set<Key> := {TransitionDuration, ZoomInLabel, ZoomOutLabel, Style}

  /** An optional string: `undefined` or a string. */
  predicate OptionalString(v: JsValue) {
    v.Undefined? || v.Str?
  }

  /** A props object that type-checks as (a part of) `ZoomWidgetProps`: every
      declared key is optional, so it may also read `undefined`; keys the
      interface does not declare are stored as given. */
  predicate WellTyped(props: Bag) {
    && Canonical(props)
    && OptionalString(Get(props, Id))
    && OptionalString(Get(props, Placement))
    && (OptionalString(Get(props, ViewId)) || Get(props, ViewId).Null?)
    && Get(props, Orientation) in {Undefined, Str("vertical"), Str("horizontal")}
    && OptionalString(Get(props, ZoomInLabel))
    && OptionalString(Get(props, ZoomOutLabel))
    && (Get(props, TransitionDuration).Undefined? || Get(props, TransitionDuration).Num?)
    && (Get(props, Style).Undefined? || Get(props, Style).Dict?)
    && OptionalString(Get(props, ClassName))
  }

  /** Merging a well-typed partial into well-typed props keeps them well typed. */
  lemma AssignKeepsTyped(props: Bag, partial: Bag)
    requires WellTyped(props) && WellTyped(partial)
    ensures WellTyped(Assign(props, partial))
  {
    var merged := Assign(props, partial);
    forall k | true ensures Get(merged, k) == if k in partial then partial[k] else Get(props, k) {
    }
  }

  /** `x || d` took the default exactly when `x` was falsy. */
  predicate DefaultedFrom(input: JsValue, default: JsValue, out: JsValue) {
    (Truthy(input) ==> out == input) && (!Truthy(input) ==> out == default)
  }

  /** What the constructor stores: its four own settings and the props object
      with four keys filled in. */
  datatype Settings = Settings(id: JsValue, viewId: JsValue, placement: JsValue, orientation: JsValue, props: Bag)

  /** The constructor's defaulting, by `||`: a falsy value (absent,
      `undefined`, `null`, `""`, `0`) is replaced by the default, a truthy one
      is kept. Afterwards no defaulted setting is unset. */
  function Construct(props: Bag): (s: Settings)
    requires WellTyped(props)
    ensures WellTyped(s.props)
    ensures s.id.Str? && Truthy(s.id)
    ensures s.placement.Str? && Truthy(s.placement)
    ensures s.orientation == Str("vertical") || s.orientation == Str("horizontal")
    ensures s.viewId == Null || (s.viewId.Str? && Truthy(s.viewId))
    ensures DefaultedFrom(Get(props, Id), Str(DefaultId), s.id)
    ensures DefaultedFrom(Get(props, ViewId), Null, s.viewId)
    ensures DefaultedFrom(Get(props, Placement), Str(DefaultPlacement), s.placement)
    ensures DefaultedFrom(Get(props, Orientation), Str(DefaultOrientation), s.orientation)
  {
    Settings(
      Or(Get(props, Id), Str(DefaultId)),
      Or(Get(props, ViewId), Null),
      Or(Get(props, Placement), Str(DefaultPlacement)),
      Or(Get(props, Orientation), Str(DefaultOrientation)),
      props[TransitionDuration := Or(Get(props, TransitionDuration), Num(DefaultTransitionDuration))]
           [ZoomInLabel := Or(Get(props, ZoomInLabel), Str(DefaultZoomInLabel))]
           [ZoomOutLabel := Or(Get(props, ZoomOutLabel), Str(DefaultZoomOutLabel))]
           [Style := Or(Get(props, Style), Dict(map[]))])
  }

  /** The props the constructor keeps: the transition duration, the two
      labels and the style are filled in by `||` and so are never unset
      afterwards; every other key is kept as given. */
  lemma ConstructFillsProps(props: Bag)
    requires WellTyped(props)
    ensures var filled := Construct(props).props;
      && (forall k :: k in FilledKeys ==> k in filled && Truthy(filled[k]))
      && DefaultedFrom(Get(props, TransitionDuration), Num(DefaultTransitionDuration), filled[TransitionDuration])
      && DefaultedFrom(Get(props, ZoomInLabel), Str(DefaultZoomInLabel), filled[ZoomInLabel])
      && DefaultedFrom(Get(props, ZoomOutLabel), Str(DefaultZoomOutLabel), filled[ZoomOutLabel])
      && DefaultedFrom(Get(props, Style), Dict(map[]), filled[Style])
      && (forall k :: k !in FilledKeys ==> (k in filled <==> k in props))
      && (forall k :: k in props && k !in FilledKeys ==> filled[k] == props[k])
  {
  }

  /** The props a constructed widget keeps are a fixed point of the
      constructor's filling-in. */
  lemma ConstructPropsIdempotent(props: Bag)
    requires WellTyped(props)
    ensures Construct(Construct(props).props).props == Construct(props).props
  {
    var s := Construct(props);
    ConstructFillsProps(props);
    ConstructFillsProps(s.props);
    var t := Construct(s.props);
    assert t.props.Keys == s.props.Keys;
    forall k | k in s.props ensures t.props[k] == s.props[k] {
      if k in FilledKeys {
        assert Get(s.props, k) == s.props[k];
      }
    }
  }

  /** Constructing a widget from the props of a constructed widget gives the
      same settings: the defaulting is idempotent. */
  lemma ConstructIdempotent(props: Bag)
    requires WellTyped(props)
    ensures Construct(Construct(props).props) == Construct(props)
  {
    var s := Construct(props);
    ConstructPropsIdempotent(props);
    ConstructFillsProps(props);
    assert Get(s.props, Id) == Get(props, Id) && Get(s.props, ViewId) == Get(props, ViewId);
    assert Get(s.props, Placement) == Get(props, Placement) && Get(s.props, Orientation) == Get(props, Orientation);
  }

  /** The class token a `className` value adds: itself when it is a
      non-empty string. */
  function ClassToken(className: JsValue): set<string> {
    if className.Str? && className.s != "" then {className.s} else {}
  }

  /** The classes `onAdd` gives a new element. */
  function MountedClasses(className: JsValue): (r: set<string>)
    requires OptionalString(className)
    ensures BaseClasses <= r
    ensures Truthy(className) ==> className.s in r
    ensures forall c :: c in r ==> c in BaseClasses || (Truthy(className) && c == className.s)
  {
    BaseClasses + ClassToken(className)
  }

  /** `setProps` on the element's class list: when the stored and the new
      `className` differ, the old class (if truthy) is removed and the new one
      (if truthy) is added; otherwise the list is left alone. */
  function ReconcileClasses(classes: set<string>, oldClass: JsValue, newClass: JsValue): (r: set<string>)
    requires OptionalString(oldClass) && OptionalString(newClass)
    ensures oldClass == newClass ==> r == classes
    ensures oldClass != newClass && Truthy(newClass) ==> newClass.s in r
    ensures oldClass != newClass && Truthy(oldClass) ==> oldClass.s !in r
    ensures forall c :: c in classes && c !in ClassToken(oldClass) ==> c in r
    ensures forall c :: c in r ==> c in classes || c in ClassToken(newClass)
  {
    if oldClass == newClass then classes else classes - ClassToken(oldClass) + ClassToken(newClass)
  }

  /** `setProps` on the element's inline style: unless the stored and the new
      `style` are deep-equal, the old properties are cleared and the new ones
      set; every other property is left alone. */
  function ReconcileStyles(styles: map<string, string>, oldStyle: JsValue, newStyle: JsValue): (r: map<string, string>)
    ensures StylesEqual(oldStyle, newStyle) ==> r == styles
    ensures !StylesEqual(oldStyle, newStyle) && newStyle.Dict? ==>
      forall k :: k in newStyle.entries ==> k in r && r[k] == newStyle.entries[k]
    ensures !StylesEqual(oldStyle, newStyle) ==>
      forall k :: k in StyleKeys(oldStyle) && k !in StyleKeys(newStyle) ==> k !in r
    ensures forall k :: k in styles && k !in StyleKeys(oldStyle) && k !in StyleKeys(newStyle) ==> k in r && r[k] == styles[k]
    ensures forall k :: k in r ==> k in styles || k in StyleKeys(newStyle)
  {
    if StylesEqual(oldStyle, newStyle) then styles else WithStyles(WithoutStyles(styles, oldStyle), newStyle)
  }

  /** Calling `setProps` twice with the same partial: the second call merges
      nothing new, and for each of `className` and `style` that the partial
      sets, it leaves the element alone. */
  lemma RepeatedSetPropsStable(props: Bag, partial: Bag, classes: set<string>, styles: map<string, string>)
    requires WellTyped(props) && WellTyped(partial)
    ensures var merged := Assign(props, partial);
      && Assign(merged, partial) == merged
      && (ClassName in partial ==> ReconcileClasses(classes, Get(merged, ClassName), Get(partial, ClassName)) == classes)
      && (Style in partial ==> ReconcileStyles(styles, Get(merged, Style), Get(partial, Style)) == styles)
  {
    var merged := Assign(props, partial);
    assert Assign(merged, partial) == merged;
  }

  /** A partial that omits `className` or `style` compares as `undefined`: on
      a mounted element it strips the stored class and style properties, yet
      the stored props keep them, since only present keys are merged. */
  lemma OmittedKeysStripElement(props: Bag, partial: Bag, classes: set<string>, styles: map<string, string>)
    requires WellTyped(props) && WellTyped(partial)
    requires ClassName !in partial && Style !in partial
    ensures Truthy(Get(props, ClassName)) ==>
      && Get(props, ClassName).s !in ReconcileClasses(classes, Get(props, ClassName), Get(partial, ClassName))
      && Get(Assign(props, partial), ClassName) == Get(props, ClassName)
    ensures forall k :: k in StyleKeys(Get(props, Style)) ==>
      k !in ReconcileStyles(styles, Get(props, Style), Get(partial, Style))
    ensures Get(Assign(props, partial), Style) == Get(props, Style)
  {
  }

  /** The element `onAdd` renders into: a fresh `div` with the base classes,
      the extra class when it is truthy, and the style overrides. */
  method CreateElement(className: JsValue, style: JsValue) returns (el: Element)
    requires OptionalString(className)
    ensures fresh(el)
    ensures el.classes == MountedClasses(className)
    ensures el.styles == WithStyles(map[], style)
  {
    el := new Element();
    el.AddClass("deck-widget");
    el.AddClass("deck-widget-zoom");
    if Truthy(className) {
      el.AddClass(className.s);
    }
    el.ApplyStyles(style);
  }

  /** The class half of `setProps` on a mounted element. */
  method UpdateClass(el: Element, oldClass: JsValue, newClass: JsValue)
    requires OptionalString(oldClass) && OptionalString(newClass)
    modifies el
    ensures el.classes == ReconcileClasses(old(el.classes), oldClass, newClass)
    ensures el.styles == old(el.styles)
  {
    if oldClass != newClass {
      if Truthy(oldClass) {
        el.RemoveClass(oldClass.s);
      }
      if Truthy(newClass) {
        el.AddClass(newClass.s);
      }
    }
  }

  /** The style half of `setProps` on a mounted element. */
  method UpdateStyle(el: Element, oldStyle: JsValue, newStyle: JsValue)
    modifies el
    ensures el.styles == ReconcileStyles(old(el.styles), oldStyle, newStyle)
    ensures el.classes == old(el.classes)
  {
    if !StylesEqual(oldStyle, newStyle) {
      el.RemoveStyles(oldStyle);
      el.ApplyStyles(newStyle);
    }
  }

  /** The zoom widget. `deck` and `element` are set while the widget is
      mounted; `order` is the order in which `Object.values` lists the keys
      of `viewports`. */
  class ZoomWidget {
    var id: JsValue
    var props: Bag
    var placement: JsValue
    var orientation: JsValue
    var viewId: JsValue
    var viewports: map<string, Viewport>
    var order: seq<string>
    var deck: Deck?
    var element: Element?

    /** The settings the constructor defaulted stay set, the props stay well
        typed, the registry stays well formed, and the widget is either
        mounted (host and element both set) or not (neither). */
    ghost predicate Valid()
      reads this
    {
      && WellTyped(props)
      && id.Str? && Truthy(id)
      && placement.Str? && Truthy(placement)
      && (orientation == Str("vertical") || orientation == Str("horizontal"))
      && (viewId == Null || (viewId.Str? && Truthy(viewId)))
      && Registry(order, viewports)
      && (deck == null <==> element == null)
    }

    constructor (props: Bag)
      requires WellTyped(props)
      ensures Valid()
      ensures var s := Construct(props);
        && id == s.id && viewId == s.viewId && placement == s.placement
        && orientation == s.orientation && this.props == s.props
      ensures viewports == map[] && order == []
      ensures deck == null && element == null
    {
      var s := Construct(props);
      id := s.id;
      viewId := s.viewId;
      placement := s.placement;
      orientation := s.orientation;
      this.props := s.props;
      viewports := map[];
      order := [];
      deck := null;
      element := null;
    }

    /** Mounting: a fresh element with the base classes, the extra class and
        the style overrides, recorded along with the host and returned. A
        widget mounted already has its element replaced. */
    method OnAdd(host: Deck) returns (el: Element)
      requires Valid()
      modifies this
      ensures Valid()
      ensures fresh(el)
      ensures deck == host && element == el
      ensures el.classes == MountedClasses(Get(props, ClassName))
      ensures el.styles == WithStyles(map[], Get(props, Style))
      ensures props == old(props) && viewports == old(viewports) && order == old(order)
      ensures id == old(id) && viewId == old(viewId) && placement == old(placement) && orientation == old(orientation)
    {
      el := CreateElement(Get(props, ClassName), Get(props, Style));
      deck := host;
      element := el;
    }

    /** Unmounting forgets the host and the element, and nothing else. */
    method OnRemove()
      requires Valid()
      modifies this
      ensures Valid()
      ensures deck == null && element == null
      ensures props == old(props) && viewports == old(viewports) && order == old(order)
      ensures id == old(id) && viewId == old(viewId) && placement == old(placement) && orientation == old(orientation)
    {
      deck := null;
      element := null;
    }

    /** Merges a partial props object into the props, first reconciling the
        mounted element's class and style with it. */
    method SetProps(partial: Bag)
      requires Valid() && WellTyped(partial)
      modifies this, element
      ensures Valid()
      ensures props == Assign(old(props), partial)
      ensures element == old(element) && deck == old(deck)
      ensures element != null ==>
        && element.classes == ReconcileClasses(old(element.classes), Get(old(props), ClassName), Get(partial, ClassName))
        && element.styles == ReconcileStyles(old(element.styles), Get(old(props), Style), Get(partial, Style))
      ensures viewports == old(viewports) && order == old(order)
      ensures id == old(id) && viewId == old(viewId) && placement == old(placement) && orientation == old(orientation)
    {
      var oldProps := props;
      var el := element;
      if el != null {
        UpdateClass(el, Get(oldProps, ClassName), Get(partial, ClassName));
        UpdateStyle(el, Get(oldProps, Style), Get(partial, Style));
      }
      AssignKeepsTyped(props, partial);
      props := Assign(props, partial);
    }

    /** Records a viewport snapshot under its id, replacing any earlier one. */
    method OnViewportChange(viewport: Viewport)
      requires Valid() && Canonical(viewport.rest)
      modifies this
      ensures Valid()
      ensures viewports == old(viewports)[viewport.id := viewport]
      ensures order == Upserted(old(order), viewport.id)
      ensures props == old(props) && deck == old(deck) && element == old(element)
      ensures id == old(id) && viewId == old(viewId) && placement == old(placement) && orientation == old(orientation)
    {
      UpsertKeepsRegistry(order, viewports, viewport);
      viewports := viewports[viewport.id := viewport];
      order := Upserted(order, viewport.id);
    }

    /** Sends the host one view-state change for `viewport` at `nextZoom`.
        The host must be set: without it the call fails. */
    method HandleZoom(viewport: Viewport, nextZoom: real)
      requires deck != null
      modifies deck
      ensures deck.received == old(deck.received) + [ZoomCommand(viewId, Get(props, TransitionDuration), viewport, nextZoom)]
      ensures viewId == old(viewId) && props == old(props)
    {
      var target := Target(viewId, viewport);
      var nextViewState := ViewStateOf(viewport, nextZoom, Get(props, TransitionDuration));
      deck.OnViewStateChange(ViewStateChange(target, nextViewState));
    }

    /** One zoom-in press: one command per registered viewport, zoom plus one,
        in the registry's order. With no viewport registered it sends nothing
        and needs no host. */
    method HandleZoomIn()
      requires Valid()
      requires deck != null || viewports == map[]
      modifies deck
      ensures deck != null ==>
        deck.received == old(deck.received) + ZoomCommands(ValuesOf(order, viewports), viewId, Get(props, TransitionDuration), 1.0)
    {
      RegistrySize(order, viewports);
      var snapshot := ValuesOf(order, viewports);
      if snapshot == [] {
        assert snapshot == snapshot[..0];
        return;
      }
      var host := deck;
      ghost var before := host.received;
      ghost var duration := Get(props, TransitionDuration);
      var i := 0;
      while i < |snapshot|
        invariant 0 <= i <= |snapshot|
        invariant deck == host
        invariant host.received == before + ZoomCommands(snapshot[..i], viewId, duration, 1.0)
      {
        var viewport := snapshot[i];
        ghost var done := ZoomCommands(snapshot[..i], viewId, duration, 1.0);
        var nextZoom := viewport.zoom + 1.0;
        HandleZoom(viewport, nextZoom);
        assert host.received == (before + done) + [CommandFor(viewId, duration, 1.0, viewport)];
        ZoomCommandsPrefix(snapshot, i, viewId, duration, 1.0);
        AppendAssoc(before, done, [CommandFor(viewId, duration, 1.0, viewport)]);
        i := i + 1;
      }
      assert snapshot[..i] == snapshot;
    }

    /** One zoom-out press: as a zoom-in press, with zoom minus one. */
    method HandleZoomOut()
      requires Valid()
      requires deck != null || viewports == map[]
      modifies deck
      ensures deck != null ==>
        deck.received == old(deck.received) + ZoomCommands(ValuesOf(order, viewports), viewId, Get(props, TransitionDuration), -1.0)
    {
      RegistrySize(order, viewports);
      var snapshot := ValuesOf(order, viewports);
      if snapshot == [] {
        assert snapshot == snapshot[..0];
        return;
      }
      var host := deck;
      ghost var before := host.received;
      ghost var duration := Get(props, TransitionDuration);
      var i := 0;
      while i < |snapshot|
        invariant 0 <= i <= |snapshot|
        invariant deck == host
        invariant host.received == before + ZoomCommands(snapshot[..i], viewId, duration, -1.0)
      {
        var viewport := snapshot[i];
        ghost var done := ZoomCommands(snapshot[..i], viewId, duration, -1.0);
        var nextZoom := viewport.zoom - 1.0;
        HandleZoom(viewport, nextZoom);
        assert host.received == (before + done) + [CommandFor(viewId, duration, -1.0, viewport)];
        ZoomCommandsPrefix(snapshot, i, viewId, duration, -1.0);
        AppendAssoc(before, done, [CommandFor(viewId, duration, -1.0, viewport)]);
        i := i + 1;
      }
      assert snapshot[..i] == snapshot;
    }
  }

  /** A widget built with no props and mounted on a fresh host: no target
      view, the default transition duration, no viewport yet. */
  method NewMounted() returns (widget: ZoomWidget, host: Deck)
    ensures fresh(widget) && fresh(host) && widget.Valid()
    ensures widget.deck == host && host.received == []
    ensures widget.order == [] && widget.viewports == map[]
    ensures widget.viewId == Null && Get(widget.props, TransitionDuration) == Num(DefaultTransitionDuration)
  {
    widget := new ZoomWidget(map[]);
    ConstructFillsProps(map[]);
    host := new Deck();
    var _ := widget.OnAdd(host);
  }

  /** The widget of `NewMounted` after its host reported the views `a` and
      then `b`. */
  method MountedWithTwoViews(a: Viewport, b: Viewport) returns (widget: ZoomWidget, host: Deck)
    requires a.id != b.id && Canonical(a.rest) && Canonical(b.rest)
    ensures fresh(widget) && fresh(host) && widget.Valid()
    ensures widget.deck == host && host.received == []
    ensures widget.order == [a.id, b.id] && widget.viewports == map[a.id := a, b.id := b]
    ensures widget.viewId == Null && Get(widget.props, TransitionDuration) == Num(DefaultTransitionDuration)
  {
    widget, host := NewMounted();
    widget.OnViewportChange(a);
    assert widget.order == [a.id];
    widget.OnViewportChange(b);
    assert b.id !in [a.id];
  }

  /** A host with two views, A at zoom 3 and B at zoom 5, and a widget with
      no target view: one zoom-in press sends A to zoom 4 and B to zoom 6,
      each to its own view, in the order the views were reported, with the
      default transition duration. */
  method TwoViewsZoomIn() returns (sent: seq<ViewStateChange>)
    ensures |sent| == 2
    ensures sent[0].viewId == Str("A") && Get(sent[0].viewState, Zoom) == Num(4.0)
    ensures sent[1].viewId == Str("B") && Get(sent[1].viewState, Zoom) == Num(6.0)
    ensures Get(sent[0].viewState, TransitionDuration) == Num(DefaultTransitionDuration)
    ensures Get(sent[1].viewState, TransitionDuration) == Num(DefaultTransitionDuration)
  {
    var a, b := Viewport("A", 3.0, map[]), Viewport("B", 5.0, map[]);
    var widget, host := MountedWithTwoViews(a, b);
    assert ValuesOf(widget.order, widget.viewports) == [a, b];
    widget.HandleZoomIn();
    sent := host.received;
    assert sent == ZoomCommands([a, b], Null, Num(DefaultTransitionDuration), 1.0);
    TwoViewportsExample(Num(DefaultTransitionDuration));
  }
}
