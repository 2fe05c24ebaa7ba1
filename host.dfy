/** The host engine (`Deck`), seen only through the entry point the widget
    calls to move a view's camera. */
module Host {
  import opened JsValues

  /** One call `deck._onViewStateChange({viewId, viewState, interactionState})`:
      the target view and the new view state. The interaction state the widget
      passes is always the empty object and is not kept. */
  datatype ViewStateChange = ViewStateChange(viewId: JsValue, viewState: Bag)

  /** A host that records, in order, every view-state change it is sent. */
  class Deck {
    var received: seq<ViewStateChange>

    constructor ()
      ensures received == []
    {
      received := [];
    }

    method OnViewStateChange(change: ViewStateChange)
      modifies this
      ensures received == old(received) + [change]
    {
      received := received + [change];
    }
  }
}
