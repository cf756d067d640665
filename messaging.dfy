/**
 * Outgoing messages (gtsr/messenger.go): the unscoped `GlobalMessenger`, the
 * channel-scoped `Messenger`, and the `Message` that plugins build, decorate
 * with buttons and dropdowns, and send. Also the callback-ID generator
 * `randStringRunes` (gtsr/api.go), which `Send` uses.
 *
 * The Slack client is an opaque handle; `Send` returns the request it would
 * hand to `PostMessage` instead of performing it.
 */
module Messaging {

  /** Opaque handle of the Slack web API client (`*slack.Client`). */
  type ApiHandle = nat

  /** The alphabet of generated callback IDs (`rngRunes`). */
  const RngRunes: string := "abcdefghijklmnopqrstuvwxyzABCDEFGHIJKLMNOPQRSTUVWXYZ1234567890"

  /** Length of the callback ID attached to every sent message. */
  const CallbackIdLength: nat := 8

  const ButtonType: string := "button"
  const SelectType: string := "select"

  /** `slack.AttachmentActionOption`. */
  datatype ActionOption = ActionOption(text: string, value: string)

  /** The fields of `slack.AttachmentAction` that the bot sets or reads. */
  datatype AttachmentAction = AttachmentAction(
    name: string,
    text: string,
    actionType: string,
    value: string,
    options: seq<ActionOption>,
    selectedOptions: seq<ActionOption>)

  /** `slack.Attachment`, reduced to its actions and callback ID. */
  datatype Attachment = Attachment(actions: seq<AttachmentAction>, callbackId: string)

  /** `slack.PostMessageParameters`, reduced to the fields `Send` sets. */
  datatype PostMessageParameters = PostMessageParameters(asUser: bool, attachments: seq<Attachment>)

  /** One call of `API.PostMessage(channel, text, params)`. */
  datatype PostRequest = PostRequest(api: ApiHandle, channel: string, text: string, params: PostMessageParameters)

  /** A well-formed callback ID: the right length, drawn from `RngRunes`. */
  predicate IsCallbackId(s: string)
  {
    |s| == CallbackIdLength && forall i :: 0 <= i < |s| ==> s[i] in RngRunes
  }

  /** The unscoped messenger; messenger.go gives it only the API handle. */
  datatype GlobalMessenger = GlobalMessenger(api: ApiHandle)
  {
    /** A messenger bound to `channel` that shares this API handle. */
    function Scope(channel: string): (m: Messenger)
      ensures m.channel == channel
      ensures m.global.api == api
    {
      Messenger(channel, this)
    }

    /** A fresh message for an explicitly named channel. */
    method NewMessage(text: string, channel: string) returns (msg: Message)
      ensures fresh(msg)
      ensures msg.text == text && msg.channel == channel && msg.messenger == this
      ensures msg.actions == []
    {
      msg := new Message(text, channel, this);
    }
  }

  /** A messenger scoped to one channel (or `@user`). */
  datatype Messenger = Messenger(channel: string, global: GlobalMessenger)
  {
    /**
     * The channel this messenger posts to; scoping the global messenger to
     * it gives back this messenger.
     */
    function Channel(): (c: string)
      ensures global.Scope(c) == this
    {
      channel
    }

    /** A fresh message in this messenger's channel, with no actions. */
    method NewMessage(text: string) returns (msg: Message)
      ensures fresh(msg)
      ensures msg.text == text && msg.channel == Channel() && msg.messenger == global
      ensures msg.actions == []
    {
      msg := new Message(text, channel, global);
    }
  }

  /**
   * `randStringRunes(n)`: `n` characters, each picked from `RngRunes` by the
   * random generator. The choice is left open; only the length and the
   * alphabet are promised.
   */
  method RandStringRunes(n: nat) returns (s: string)
    ensures |s| == n
    ensures forall i :: 0 <= i < |s| ==> s[i] in RngRunes
  {
    var b := new char[n];
    var i := 0;
    while i < n
      invariant 0 <= i <= n
      invariant forall k :: 0 <= k < i ==> b[k] in RngRunes
    {
      var r :| 0 <= r < |RngRunes|;
      b[i] := RngRunes[r];
      i := i + 1;
    }
    s := b[..];
  }

  /**
   * The `"select"` action that `AddDropdown` builds before appending it: one
   * option per input string, in input order, shown and sent as that string.
   */
  method DropdownAction(labelText: string, options: seq<string>) returns (action: AttachmentAction)
    ensures action.name == labelText && action.text == labelText && action.actionType == SelectType
    ensures action.value == "" && action.selectedOptions == []
    ensures |action.options| == |options|
    ensures forall k :: 0 <= k < |options| ==> action.options[k] == ActionOption(options[k], options[k])
  {
    action := AttachmentAction(labelText, labelText, SelectType, "", [], []);
    var i := 0;
    while i < |options|
      invariant 0 <= i <= |options|
      invariant action.name == labelText && action.text == labelText && action.actionType == SelectType
      invariant action.value == "" && action.selectedOptions == []
      invariant |action.options| == i
      invariant forall k :: 0 <= k < i ==> action.options[k] == ActionOption(options[k], options[k])
    {
      var opt := options[i];
      action := action.(options := action.options + [ActionOption(opt, opt)]);
      i := i + 1;
    }
  }

  /** An outgoing message, decorated in place before it is sent. */
  class Message {
    var text: string
    var actions: seq<AttachmentAction>
    const messenger: GlobalMessenger
    const channel: string

    constructor (text: string, channel: string, messenger: GlobalMessenger)
      ensures this.text == text && this.channel == channel && this.messenger == messenger
      ensures actions == []
    {
      this.text := text;
      this.channel := channel;
      this.messenger := messenger;
      actions := [];
    }

    /**
     * Appends one button labelled `labelText`. The `id` argument is not used:
     * the button carries no value.
     */
    method AddButton(labelText: string, id: string)
      modifies this`actions
      ensures actions == old(actions) + [AttachmentAction(labelText, labelText, ButtonType, "", [], [])]
    {
      var action := AttachmentAction(labelText, labelText, ButtonType, "", [], []);
      actions := actions + [action];
    }

    /** Appends one dropdown labelled `labelText` offering `options` in order. */
    method AddDropdown(labelText: string, options: seq<string>)
      modifies this`actions
      ensures |actions| == |old(actions)| + 1 && actions[..|old(actions)|] == old(actions)
      ensures var a := actions[|actions| - 1];
        && a.name == labelText && a.text == labelText && a.actionType == SelectType
        && a.value == "" && a.selectedOptions == []
        && |a.options| == |options|
        && forall k :: 0 <= k < |options| ==> a.options[k] == ActionOption(options[k], options[k])
    {
      var action := DropdownAction(labelText, options);
      actions := actions + [action];
    }

    /**
     * The request `Send` posts: as the bot user, to this message's channel
     * with its text, carrying exactly one attachment that holds the actions in
     * order and a freshly generated callback ID. Nothing is registered with
     * the callback listener here.
     */
    method Send() returns (req: PostRequest)
      ensures req.api == messenger.api && req.channel == channel && req.text == text
      ensures req.params.asUser
      ensures |req.params.attachments| == 1
      ensures req.params.attachments[0].actions == actions
      ensures IsCallbackId(req.params.attachments[0].callbackId)
    {
      var callbackId := RandStringRunes(CallbackIdLength);
      var params := PostMessageParameters(true, [Attachment(actions, callbackId)]);
      req := PostRequest(messenger.api, channel, text, params);
    }
  }
}
