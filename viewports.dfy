/** The widget's registry of viewports and the zoom commands it builds from
    them: a view state that is the viewport's own properties with the zoom
    moved by one step and a fly-to transition added, sent to a target view. */
module Viewports {
  import opened JsValues
  import opened Host

  /** A viewport snapshot pushed by the host: its id, its zoom level, and its
      other own properties (size, position, pitch, bearing, ...) in `rest`.
      A snapshot the host pushes has each property once, so its `rest` is
      `Canonical`. */
  datatype Viewport = Viewport(id: string, zoom: real, rest: Bag)

  const DefaultView := "default-view"

  /** The keys a zoom view state sets on top of the viewport's properties. */
  const ZoomKeys: set<Key> := {Zoom, TransitionDuration, TransitionInterpolator}

  /** The viewport as a plain object: `{...viewport}` copies these. */
  function OwnProperties(v: Viewport): Bag {
    v.rest[Id := Str(v.id)][Zoom := Num(v.zoom)]
  }

  /** `{...viewport, zoom: nextZoom, transitionDuration, transitionInterpolator:
      new FlyToInterpolator()}`. */
  function ViewStateOf(v: Viewport, nextZoom: real, duration: JsValue): (s: Bag)
    ensures Zoom in s && s[Zoom] == Num(nextZoom)
    ensures TransitionDuration in s && s[TransitionDuration] == duration
  {
    OwnProperties(v)[Zoom := Num(nextZoom)][TransitionDuration := duration][TransitionInterpolator := FlyTo]
  }

  /** The view state a zoom command carries: the viewport's own properties,
      with its id, the new zoom, the transition duration and a fly-to
      interpolator, and nothing else. */
  lemma ViewStateShape(v: Viewport, nextZoom: real, duration: JsValue)
    ensures var s := ViewStateOf(v, nextZoom, duration);
      && s.Keys == v.rest.Keys + {Id} + ZoomKeys
      && s[Zoom] == Num(nextZoom)
      && s[TransitionDuration] == duration
      && s[TransitionInterpolator] == FlyTo
      && s[Id] == Str(v.id)
      && (forall k :: k in v.rest && k != Id && k !in ZoomKeys ==> s[k] == v.rest[k])
      && (Canonical(v.rest) ==> Canonical(s))
  {
  }

  /** `this.viewId || viewport?.id || 'default-view'`: the view a command for
      `v` is sent to. */
  function Target(viewId: JsValue, v: Viewport): (t: JsValue)
    ensures Truthy(t)
    ensures Truthy(viewId) ==> t == viewId
    ensures !Truthy(viewId) && v.id != "" ==> t == Str(v.id)
    ensures !Truthy(viewId) && v.id == "" ==> t == Str(DefaultView)
  {
    Or(Or(viewId, Str(v.id)), Str(DefaultView))
  }

  /** The command that moves viewport `v` to `nextZoom`. */
  function ZoomCommand(viewId: JsValue, duration: JsValue, v: Viewport, nextZoom: real): ViewStateChange {
    ViewStateChange(Target(viewId, v), ViewStateOf(v, nextZoom, duration))
  }

  /** The command one press of a zoom button, `delta` steps, sends for
      viewport `v`. */
  function CommandFor(viewId: JsValue, duration: JsValue, delta: real, v: Viewport): ViewStateChange {
    ZoomCommand(viewId, duration, v, v.zoom + delta)
  }

  /** The commands one press sends for the viewports `vs`, in their order. */
  function ZoomCommands(vs: seq<Viewport>, viewId: JsValue, duration: JsValue, delta: real): (cs: seq<ViewStateChange>)
    ensures |cs| == |vs|
    ensures forall k :: 0 <= k < |vs| ==> cs[k] == CommandFor(viewId, duration, delta, vs[k])
  {
    if vs == [] then [] else [CommandFor(viewId, duration, delta, vs[0])] + ZoomCommands(vs[1..], viewId, duration, delta)
  }

  /** One more viewport in a prefix of `vs` adds that viewport's command. */
  lemma ZoomCommandsPrefix(vs: seq<Viewport>, i: nat, viewId: JsValue, duration: JsValue, delta: real)
    requires i < |vs|
    ensures ZoomCommands(vs[..i + 1], viewId, duration, delta) == ZoomCommands(vs[..i], viewId, duration, delta) + [CommandFor(viewId, duration, delta, vs[i])]
  {
    var l, r := ZoomCommands(vs[..i + 1], viewId, duration, delta), ZoomCommands(vs[..i], viewId, duration, delta) + [CommandFor(viewId, duration, delta, vs[i])];
    assert |l| == |r|;
    forall k | 0 <= k < |l| ensures l[k] == r[k] {
      if k < i {
        assert l[k] == CommandFor(viewId, duration, delta, vs[k]);
      }
    }
  }

  /** Appending to a log one command at a time: regrouping `(a + b) + c`.
      Dafny knows this fact; the zoom loops call the lemma to hand the solver
      the one regrouping each step needs, which keeps their proofs small. */
  lemma AppendAssoc<T>(a: seq<T>, b: seq<T>, c: seq<T>)
    ensures (a + b) + c == a + (b + c)
  {
  }

  /** `viewports` keyed by id, and `order` the order `Object.values` lists
      them in: every key once, and every entry filed under its own id. */
  predicate Registry(order: seq<string>, viewports: map<string, Viewport>) {
    && (forall i, j :: 0 <= i < j < |order| ==> order[i] != order[j])
    && (forall id :: id in viewports ==> id in order)
    && (forall i :: 0 <= i < |order| ==> order[i] in viewports)
    && (forall id :: id in viewports ==> viewports[id].id == id)
    && (forall id :: id in viewports ==> Canonical(viewports[id].rest))
  }

  /** The key order after `viewports[id] = ...`: a new key goes last, an
      existing key keeps its place. */
  function Upserted(order: seq<string>, id: string): (r: seq<string>)
    ensures id in r
    ensures forall x :: x in r <==> x in order || x == id
    ensures |r| == if id in order then |order| else |order| + 1
    ensures r[..|order|] == order
  {
    if id in order then order else order + [id]
  }

  /** `Object.values(viewports)`. */
  function ValuesOf(order: seq<string>, viewports: map<string, Viewport>): (vs: seq<Viewport>)
    requires forall i :: 0 <= i < |order| ==> order[i] in viewports
    ensures |vs| == |order|
    ensures forall k :: 0 <= k < |order| ==> vs[k] == viewports[order[k]]
  {
    seq(|order|, k requires 0 <= k < |order| => viewports[order[k]])
  }

  /** `viewports[v.id] = v` keeps the registry well formed, files `v` under
      its id, and leaves every other entry as it was. */
  lemma UpsertKeepsRegistry(order: seq<string>, viewports: map<string, Viewport>, v: Viewport)
    requires Registry(order, viewports) && Canonical(v.rest)
    ensures Registry(Upserted(order, v.id), viewports[v.id := v])
    ensures viewports[v.id := v][v.id] == v
    ensures forall id :: id in viewports && id != v.id ==> viewports[v.id := v][id] == viewports[id]
    ensures |viewports[v.id := v]| == if v.id in viewports then |viewports| else |viewports| + 1
  {
    var order' := Upserted(order, v.id);
    if v.id !in order {
      forall i, j | 0 <= i < j < |order'| ensures order'[i] != order'[j] {
        if j == |order| { assert order'[i] == order[i] && order[i] in order; }
      }
    }
  }

  /** Two snapshots of one view leave one entry: the later one. */
  lemma LastWriteWins(viewports: map<string, Viewport>, earlier: Viewport, later: Viewport)
    requires earlier.id == later.id
    ensures viewports[earlier.id := earlier][later.id := later] == viewports[later.id := later]
    ensures |viewports[earlier.id := earlier][later.id := later]| == |viewports[later.id := later]|
  {
  }

  /** A sequence that lists no element twice has as many elements as its set. */
  lemma {:induction false} DistinctCount(s: seq<string>)
    requires forall i, j :: 0 <= i < j < |s| ==> s[i] != s[j]
    ensures |set x | x in s| == |s|
  {
    if s != [] {
      DistinctCount(s[1..]);
      var tail := set x | x in s[1..];
      assert (set x | x in s) == tail + {s[0]};
      forall x | x in tail ensures x != s[0] {
        var j :| 0 <= j < |s[1..]| && s[1..][j] == x;
        assert s[j + 1] == x;
      }
    }
  }

  /** A registry lists exactly as many keys in its order as it has entries. */
  lemma RegistrySize(order: seq<string>, viewports: map<string, Viewport>)
    requires Registry(order, viewports)
    ensures |order| == |viewports|
  {
    DistinctCount(order);
    assert viewports.Keys == set x | x in order;
  }

  /** One press sends exactly one command per registered viewport: as many
      commands as entries, each entry's command built from that entry, in the
      registry's order. */
  lemma ZoomCommandsPerViewport(order: seq<string>, viewports: map<string, Viewport>, viewId: JsValue, duration: JsValue, delta: real)
    requires Registry(order, viewports)
    ensures var cs := ZoomCommands(ValuesOf(order, viewports), viewId, duration, delta);
      && |cs| == |viewports|
      && (forall k :: 0 <= k < |cs| ==> order[k] in viewports && cs[k] == CommandFor(viewId, duration, delta, viewports[order[k]]))
      && (forall id :: id in viewports ==> exists k :: 0 <= k < |cs| && order[k] == id && cs[k] == CommandFor(viewId, duration, delta, viewports[id]))
  {
    RegistrySize(order, viewports);
    var cs := ZoomCommands(ValuesOf(order, viewports), viewId, duration, delta);
    forall id | id in viewports
      ensures exists k :: 0 <= k < |cs| && order[k] == id && cs[k] == CommandFor(viewId, duration, delta, viewports[id])
    {
      var k :| 0 <= k < |order| && order[k] == id;
      assert cs[k] == CommandFor(viewId, duration, delta, viewports[id]);
    }
  }

  /** An empty registry sends nothing. */
  lemma EmptyRegistrySendsNothing(order: seq<string>, viewId: JsValue, duration: JsValue, delta: real)
    requires Registry(order, map[])
    ensures ZoomCommands(ValuesOf(order, map[]), viewId, duration, delta) == []
  {
    RegistrySize(order, map[]);
  }

  /** With a target view configured every command goes to that view, whatever
      viewport it was built from: the viewports are not filtered by it. */
  lemma TargetViewRoutesEveryCommand(vs: seq<Viewport>, viewId: JsValue, duration: JsValue, delta: real)
    requires Truthy(viewId)
    ensures |ZoomCommands(vs, viewId, duration, delta)| == |vs|
    ensures forall c :: c in ZoomCommands(vs, viewId, duration, delta) ==> c.viewId == viewId
  {
  }

  /** The zoom-in and zoom-out commands for one viewport go to the same view
      and differ only in the zoom, by two steps. */
  lemma ZoomInOutDifferOnlyInZoom(viewId: JsValue, duration: JsValue, v: Viewport)
    ensures var zin, zout := CommandFor(viewId, duration, 1.0, v), CommandFor(viewId, duration, -1.0, v);
      && zin.viewId == zout.viewId
      && zin.viewState.Keys == zout.viewState.Keys
      && (forall k :: k in zin.viewState && k != Zoom ==> zin.viewState[k] == zout.viewState[k])
      && zin.viewState[Zoom] == Num(v.zoom + 1.0)
      && zout.viewState[Zoom] == Num(v.zoom - 1.0)
  {
  }

  /** Two views A (zoom 3) and B (zoom 5) with no target view: zooming in
      sends A to zoom 4 and B to zoom 6, zooming out sends A to 2 and B to 4,
      each to its own view. With the target view "A", zooming in still sends
      two commands, B's included, and both go to A. */
  lemma TwoViewportsExample(duration: JsValue)
    ensures var a, b := Viewport("A", 3.0, map[]), Viewport("B", 5.0, map[]);
      var open := ZoomCommands([a, b], Null, duration, 1.0);
      var out := ZoomCommands([a, b], Null, duration, -1.0);
      var routed := ZoomCommands([a, b], Str("A"), duration, 1.0);
      && |open| == 2 && open[0].viewId == Str("A") && open[1].viewId == Str("B")
      && open[0].viewState[Zoom] == Num(4.0) && open[1].viewState[Zoom] == Num(6.0)
      && open[0].viewState[TransitionDuration] == duration
      && open[1].viewState[TransitionDuration] == duration
      && |out| == 2 && out[0].viewId == Str("A") && out[1].viewId == Str("B")
      && out[0].viewState[Zoom] == Num(2.0) && out[1].viewState[Zoom] == Num(4.0)
      && |routed| == 2 && routed[0].viewId == Str("A") && routed[1].viewId == Str("A")
      && routed[1].viewState[Zoom] == Num(6.0) && routed[1].viewState[Id] == Str("B")
  {
  }
}
