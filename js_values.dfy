/** The JavaScript values the zoom widget handles: the kinds of value its
    properties, style objects and view states hold, JavaScript truthiness, the
    `||` operator, property lookup and `Object.assign`. */
module JsValues {

  /** A JavaScript value. `Dict` is a plain object whose own properties hold
      strings (a style declaration); `FlyTo` is an instance of the host's
      fly-to transition interpolator, which the model keeps opaque. */
  datatype JsValue =
    | Undefined
    | Null
    | Bool(b: bool)
    | Num(n: real)
    | Str(s: string)
    | Dict(entries: map<string, string>)
    | FlyTo

  /** A property name. Each name the widget reads or writes has its own
      constructor (`Id` is `"id"`, `TransitionDuration` is
      `"transitionDuration"`, ...); `Named(name)` is any other name. */
  datatype Key =
    | Id
    | Placement
    | ViewId
    | Orientation
    | ZoomInLabel
    | ZoomOutLabel
    | TransitionDuration
    | Style
    | ClassName
    | Zoom
    | TransitionInterpolator
    | Named(name: string)

  /** A plain object, as its own properties by key. A key it does not have
      reads as `undefined`. */
  type Bag = map<Key, JsValue>

  /** The names that have a constructor of their own in `Key`. */
  const KnownNames: set<string> := {
    "id", "placement", "viewId", "orientation", "zoomInLabel", "zoomOutLabel",
    "transitionDuration", "style", "className", "zoom", "transitionInterpolator"}

  /** Each property of the object is spelled one way only: no `Named` key
      spells a name that has its own constructor, so no property is held
      twice. */
  predicate Canonical(o: Bag) {
    forall k :: k in o && k.Named? ==> k.name !in KnownNames
  }

  /** JavaScript truthiness: `undefined`, `null`, `false`, `0` and `""` are
      falsy, every object is truthy. */
  predicate Truthy(v: JsValue) {
    match v
    case Undefined => false
    case Null => false
    case Bool(b) => b
    case Num(n) => n != 0.0
    case Str(s) => s != ""
    case Dict(_) => true
    case FlyTo => true
  }

  /** `a || b`: the left operand when it is truthy, else the right one. */
  function Or(a: JsValue, b: JsValue): JsValue {
    if Truthy(a) then a else b
  }

  /** `o[k]` on a plain object. */
  function Get(o: Bag, k: Key): JsValue {
    if k in o then o[k] else Undefined
  }

  /** `Object.assign(target, source)`: every key the source has (even one
      whose value is `undefined`) overwrites the target's; every other key of
      the target keeps its value. */
  function Assign(target: Bag, source: Bag): (r: Bag)
    ensures forall k :: k in source ==> k in r && r[k] == source[k]
    ensures forall k :: k in target && k !in source ==> k in r && r[k] == target[k]
    ensures forall k :: k in r ==> k in target || k in source
    ensures Canonical(target) && Canonical(source) ==> Canonical(r)
  {
    target + source
  }
}
