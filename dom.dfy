/** The part of the DOM the widget touches: a `div` element's class list and
    its inline style, and the style helpers `applyStyles`, `removeStyles` and
    `deepEqual` the widget imports from the host engine. */
module Dom {
  import opened JsValues

  /** The style properties a style value names: the keys of a style object,
      none for anything else. */
  function StyleKeys(style: JsValue): set<string> {
    if style.Dict? then style.entries.Keys else {}
  }

  /** `applyStyles(element, style)`: every property of a style object is set
      on the element's inline style; a value that is not a style object
      changes nothing. */
  function WithStyles(applied: map<string, string>, style: JsValue): (r: map<string, string>)
    ensures r.Keys == applied.Keys + StyleKeys(style)
    ensures style.Dict? ==> forall k :: k in style.entries ==> r[k] == style.entries[k]
    ensures forall k :: k in applied && k !in StyleKeys(style) ==> r[k] == applied[k]
  {
    match style
    case Dict(entries) => applied + entries
    case _ => applied
  }

  /** `removeStyles(element, style)`: every property a style object names is
      cleared from the element's inline style; a value that is not a style
      object changes nothing. */
  function WithoutStyles(applied: map<string, string>, style: JsValue): (r: map<string, string>)
    ensures r.Keys == applied.Keys - StyleKeys(style)
    ensures forall k :: k in r ==> r[k] == applied[k]
  {
    match style
    case Dict(entries) => applied - entries.Keys
    case _ => applied
  }

  /** `deepEqual(a, b, 1)` on two style values: equal when they are the same
      value or two style objects with the same keys and the same strings
      under them, which is equality of the model's values. */
  predicate StylesEqual(a: JsValue, b: JsValue)
    ensures StylesEqual(a, b) <==>
      || (!a.Dict? && a == b)
      || (&& a.Dict? && b.Dict? && a.entries.Keys == b.entries.Keys
          && forall k :: k in a.entries ==> a.entries[k] == b.entries[k])
  {
    if a.Dict? && b.Dict? then
      assert a.entries.Keys == b.entries.Keys && (forall k :: k in a.entries ==> a.entries[k] == b.entries[k])
        ==> a.entries == b.entries;
      a == b
    else
      a == b
  }

  /** A rendered `div`: its class tokens and its inline style properties. */
  class Element {
    var classes: set<string>
    var styles: map<string, string>

    /** `document.createElement('div')`. */
    constructor ()
      ensures classes == {} && styles == map[]
    {
      classes := {};
      styles := map[];
    }

    /** `classList.add(token)`. */
    method AddClass(token: string)
      modifies this
      ensures classes == old(classes) + {token}
      ensures styles == old(styles)
    {
      classes := classes + {token};
    }

    /** `classList.remove(token)`. */
    method RemoveClass(token: string)
      modifies this
      ensures classes == old(classes) - {token}
      ensures styles == old(styles)
    {
      classes := classes - {token};
    }

    /** `applyStyles(this, style)`. */
    method ApplyStyles(style: JsValue)
      modifies this
      ensures styles == WithStyles(old(styles), style)
      ensures classes == old(classes)
    {
      styles := WithStyles(styles, style);
    }

    /** `removeStyles(this, style)`. */
    method RemoveStyles(style: JsValue)
      modifies this
      ensures styles == WithoutStyles(old(styles), style)
      ensures classes == old(classes)
    {
      styles := WithoutStyles(styles, style);
    }
  }
}
