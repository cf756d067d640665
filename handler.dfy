/**
 * Interactive-message callbacks (gtsr/handler.go): the registry from
 * callback ID to the messenger waiting on it, and what the HTTP handler does
 * with a callback once its payload has been decoded.
 */
module Handler {
  import opened Wrappers
  import opened Messaging

  /** Sentinel ID that is never registered and whose clicks are no-ops. */
  const NoCallback: string := "NOCALLBACK"

  const CollisionPanic: string := "callback id collision"

  /**
   * `registerCallback` on the map `callbacks`: the new map and the status.
   * The sentinel is ignored and an ID already present is fatal.
   */
  function Register(callbacks: map<string, Messenger>, id: string, m: Messenger): (r: (map<string, Messenger>, Status))
    ensures r.1 == Done <==> id == NoCallback || id !in callbacks
    ensures r.1 != Done ==> r.1 == Fatal(CollisionPanic)
    ensures id == NoCallback || r.1 != Done ==> r.0 == callbacks
    ensures id != NoCallback && r.1 == Done ==>
      && r.0.Keys == callbacks.Keys + {id}
      && r.0[id] == m
      && forall k :: k in callbacks ==> r.0[k] == callbacks[k]
  {
    if id == NoCallback then (callbacks, Done)
    else if id in callbacks then (callbacks, Fatal(CollisionPanic))
    else (callbacks[id := m], Done)
  }

  /**
   * `unregisterCallback` on the map `callbacks`: `id` is gone afterwards
   * unless it is the sentinel; an absent ID changes nothing.
   */
  function Unregister(callbacks: map<string, Messenger>, id: string): (r: map<string, Messenger>)
    ensures id == NoCallback || id !in callbacks ==> r == callbacks
    ensures id != NoCallback ==> r.Keys == callbacks.Keys - {id}
    ensures forall k :: k in r ==> r[k] == callbacks[k]
  {
    if id == NoCallback then callbacks else callbacks - {id}
  }

  /** Registering a fresh ID and unregistering it again restores the map. */
  lemma RegisterThenUnregister(callbacks: map<string, Messenger>, id: string, m: Messenger)
    requires id !in callbacks
    ensures Register(callbacks, id, m).1 == Done
    ensures Unregister(Register(callbacks, id, m).0, id) == callbacks
  {
    var r := Register(callbacks, id, m).0;
    assert Unregister(r, id).Keys == callbacks.Keys;
  }

  /** The registry of pending interactive messages, keyed by callback ID. */
  class CallbackListener {
    var callbacks: map<string, Messenger>

    constructor ()
      ensures callbacks == map[]
    {
      callbacks := map[];
    }

    method RegisterCallback(id: string, msngr: Messenger) returns (status: Status)
      modifies this`callbacks
      ensures (callbacks, status) == Register(old(callbacks), id, msngr)
    {
      if id == NoCallback {
        return Done;
      }
      if id in callbacks {
        return Fatal(CollisionPanic);
      }
      callbacks := callbacks[id := msngr];
      status := Done;
    }

    method UnregisterCallback(id: string)
      modifies this`callbacks
      ensures callbacks == Unregister(old(callbacks), id)
    {
      if id == NoCallback {
        return;
      }
      callbacks := callbacks - {id};
    }
  }

  /** The decoded `slack.AttachmentActionCallback`, reduced to what is read. */
  datatype ActionCallback = ActionCallback(token: string, callbackId: string, actions: seq<AttachmentAction>)

  datatype DropReason = IllegalToken | UnparsedAction | UnregisteredCallback

  /**
   * What the handler does with one callback: drop it, treat it as a no-op,
   * call `respond(actionId, true)` on the registered messenger, or crash on an
   * unchecked index (an empty `Actions` or `SelectedOptions`).
   */
  datatype Handling =
    | Dropped(reason: DropReason)
    | NoOp
    | Respond(target: Messenger, actionId: string, flag: bool)
    | IndexPanic

  /**
   * The action ID a well-formed action carries: a button's value or the
   * first selected option's value. `None` for any other action type.
   */
  function SelectedValue(action: AttachmentAction): (r: Option<string>)
    requires action.actionType == SelectType ==> |action.selectedOptions| > 0
    ensures r.Some? <==> action.actionType in {ButtonType, SelectType}
    ensures action.actionType == ButtonType ==> r == Some(action.value)
    ensures action.actionType == SelectType ==> r == Some(action.selectedOptions[0].value)
  {
    if action.actionType == ButtonType then Some(action.value)
    else if action.actionType == SelectType then Some(action.selectedOptions[0].value)
    else None
  }

  /** Whether reading the action ID would index past the end of a slice. */
  predicate Malformed(cb: ActionCallback)
  {
    |cb.actions| == 0 || (cb.actions[0].actionType == SelectType && |cb.actions[0].selectedOptions| == 0)
  }

  /**
   * The post-decode part of `interactionHandler`, with `secret` the bot's
   * verification token and `callbacks` the listener's map, which it only
   * reads.
   */
  function Interaction(secret: string, cb: ActionCallback, callbacks: map<string, Messenger>): (r: Handling)
    ensures cb.token != secret ==> r == Dropped(IllegalToken)
    ensures r == IndexPanic <==> cb.token == secret && Malformed(cb)
    ensures r == Dropped(UnparsedAction) <==>
      cb.token == secret && !Malformed(cb) && SelectedValue(cb.actions[0]).None?
    ensures r == NoOp <==>
      cb.token == secret && !Malformed(cb) && SelectedValue(cb.actions[0]) == Some(NoCallback)
    ensures r.Respond? <==>
      && cb.token == secret && !Malformed(cb)
      && SelectedValue(cb.actions[0]).Some? && SelectedValue(cb.actions[0]).value != NoCallback
      && cb.callbackId in callbacks
    ensures r.Respond? ==>
      r == Respond(callbacks[cb.callbackId], SelectedValue(cb.actions[0]).value, true)
  {
    if cb.token != secret then Dropped(IllegalToken)
    else if |cb.actions| == 0 then IndexPanic
    else
      var action := cb.actions[0];
      if action.actionType == ButtonType then Deliver(action.value, cb.callbackId, callbacks)
      else if action.actionType == SelectType then
        if |action.selectedOptions| == 0 then IndexPanic
        else Deliver(action.selectedOptions[0].value, cb.callbackId, callbacks)
      else Dropped(UnparsedAction)
  }

  /** The sentinel check and the registry lookup, once the action ID is known. */
  function Deliver(actionId: string, callbackId: string, callbacks: map<string, Messenger>): (r: Handling)
    ensures r == NoOp <==> actionId == NoCallback
    ensures r == Dropped(UnregisteredCallback) <==> actionId != NoCallback && callbackId !in callbacks
    ensures r.Respond? <==> actionId != NoCallback && callbackId in callbacks
    ensures r.Respond? ==> r.target == callbacks[callbackId] && r.actionId == actionId && r.flag
  {
    if actionId == NoCallback then NoOp
    else if callbackId !in callbacks then Dropped(UnregisteredCallback)
    else Respond(callbacks[callbackId], actionId, true)
  }

  /** A button click with a given value, as the platform would report it. */
  function ButtonClick(secret: string, callbackId: string, value: string): ActionCallback
  {
    ActionCallback(secret, callbackId, [AttachmentAction("", "", ButtonType, value, [], [])])
  }

  /**
   * Registration and routing agree: once `id` is registered to `m`, a
   * genuine click on `id` reaches exactly `m` with the clicked value; once
   * `id` is unregistered again, the same click is dropped.
   */
  lemma RegisteredCallbackIsRouted(callbacks: map<string, Messenger>, secret: string, id: string, m: Messenger, value: string)
    requires id != NoCallback && id !in callbacks && value != NoCallback
    ensures var after := Register(callbacks, id, m).0;
      && Interaction(secret, ButtonClick(secret, id, value), after) == Respond(m, value, true)
      && Interaction(secret, ButtonClick(secret, id, value), Unregister(after, id)) == Dropped(UnregisteredCallback)
  {
  }

  /**
   * The decision depends on the registry only through the entry for the
   * callback's own ID: registering or removing any other ID changes nothing.
   */
  lemma InteractionIgnoresOtherEntries(secret: string, cb: ActionCallback, callbacks: map<string, Messenger>, other: string, m: Messenger)
    requires other != cb.callbackId
    ensures Interaction(secret, cb, Register(callbacks, other, m).0) == Interaction(secret, cb, callbacks)
    ensures Interaction(secret, cb, Unregister(callbacks, other)) == Interaction(secret, cb, callbacks)
  {
  }
}
