/** The Moonraker JSON-RPC channel of the AprilTags camera controller: a
    connection flag pair, a request-id counter restarted on every successful
    connect, and the correlation of replies to requests. The websocket itself
    is outside the model: whether `connect` and `send` succeed are inputs, and
    the messages the socket will deliver are a finite sequence of already
    parsed messages. Running out of messages stands for `recv` raising. */
module RpcChannel {
  import opened Wrappers

  /** A parsed incoming message: its `id` (None when absent or not an
      integer), whether it carries an `error` member, and its `method` member. */
  datatype Message = Message(id: Option<int>, hasError: bool, rpcMethod: Option<string>)

  /** A `printer.gcode.script` request. */
  datatype Request = Request(id: int, script: string)

  /** `websocket is not None`, `running`, and the value the id iterator
      yields next. */
  datatype Channel = Channel(websocketOpen: bool, running: bool, nextId: int)

  const NotifyMethod: string := "notify_gcode_response"

  /** A fresh controller: no socket, not running, ids starting at 1. */
  const InitialChannel: Channel := Channel(false, false, 1)

  /** The guard of `send_gcode`: a socket and the running flag. */
  predicate Connected(ch: Channel) {
    ch.websocketOpen && ch.running
  }

  /** `connect()`, where `handshakeOk` says whether the websocket handshake succeeded. */
  function Connect(ch: Channel, handshakeOk: bool): (r: Channel)
    ensures Connected(r) <==> handshakeOk
    ensures !handshakeOk ==> !r.websocketOpen && !r.running
    ensures handshakeOk ==> r.nextId == 1
    ensures !handshakeOk ==> r.nextId == ch.nextId
  {
    if handshakeOk then Channel(true, true, 1)
    else ch.(websocketOpen := false, running := false)
  }

  /** `disconnect()`: closes the socket if there is one. */
  function Disconnect(ch: Channel): (r: Channel)
    ensures !r.websocketOpen && !r.running
    ensures r.nextId == ch.nextId
  {
    ch.(websocketOpen := false, running := false)
  }

  lemma DisconnectIdempotent(ch: Channel)
    ensures Disconnect(Disconnect(ch)) == Disconnect(ch)
    ensures !Connected(Disconnect(ch))
  {
  }

  /** The position of the first message whose id equals `id`. */
  function FirstMatch(msgs: seq<Message>, id: int): (r: Option<nat>)
    ensures r.Some? ==> r.value < |msgs| && msgs[r.value].id == Some(id)
    ensures r.Some? ==> forall j :: 0 <= j < r.value ==> msgs[j].id != Some(id)
    ensures r.None? ==> forall j :: 0 <= j < |msgs| ==> msgs[j].id != Some(id)
  {
    if |msgs| == 0 then None
    else if msgs[0].id == Some(id) then Some(0)
    else
      match FirstMatch(msgs[1..], id)
      case None => None
      case Some(i) => Some(i + 1)
  }

  /** A match at `k` with no earlier match is the first match. */
  lemma {:induction false} FirstMatchAt(msgs: seq<Message>, id: int, k: nat)
    requires k < |msgs| && msgs[k].id == Some(id)
    requires forall j :: 0 <= j < k ==> msgs[j].id != Some(id)
    ensures FirstMatch(msgs, id) == Some(k)
  {
    if k > 0 {
      assert msgs[0].id != Some(id);
      FirstMatchAt(msgs[1..], id, k - 1);
    }
  }

  /** How `_await_response` ends. */
  datatype Awaited =
    | Reply(message: Message)   // the matching message, returned
    | ReplyError                // the matching message had `error`: RuntimeError
    | StreamEnded               // `recv` raised before a match arrived

  /** The outcome of `_await_response` in terms of the first matching message. */
  function AwaitOutcome(msgs: seq<Message>, id: int): (r: (Awaited, nat))
    ensures r.1 <= |msgs|
  {
    match FirstMatch(msgs, id)
    case None => (StreamEnded, |msgs|)
    case Some(i) => (if msgs[i].hasError then ReplyError else Reply(msgs[i]), i + 1)
  }

  /** `_await_response(request_id)`: receive messages one at a time, skip every
      message with another id (notifications included), and stop at the first
      one carrying the request's id. `consumed` counts the messages received. */
  method AwaitResponse(msgs: seq<Message>, id: int) returns (outcome: Awaited, consumed: nat)
    ensures (outcome, consumed) == AwaitOutcome(msgs, id)
    ensures outcome.Reply? ==> outcome.message.id == Some(id) && !outcome.message.hasError
    ensures forall j :: 0 <= j < consumed - 1 ==> msgs[j].id != Some(id)
  {
    var k := 0;
    while k < |msgs|
      invariant k <= |msgs|
      invariant forall j :: 0 <= j < k ==> msgs[j].id != Some(id)
      decreases |msgs| - k
    {
      var message := msgs[k];
      if message.id == Some(id) {
        FirstMatchAt(msgs, id, k);
        if message.hasError {
          return ReplyError, k + 1;
        }
        return Reply(message), k + 1;
      }
      // a `notify_gcode_response` and any other message alike: keep listening
      k := k + 1;
    }
    return StreamEnded, |msgs|;
  }

  /** What one `send_gcode` call did: the channel afterwards, the request put
      on the wire (if an id was consumed), the response returned, and the
      messages still unread. */
  datatype SendResult = SendResult(
    channel: Channel, request: Option<Request>, response: Option<Message>, rest: seq<Message>)

  /** `send_gcode(gcode)`; `sendOk` says whether `websocket.send` succeeded. */
  function SendGcode(ch: Channel, gcode: string, sendOk: bool, incoming: seq<Message>): (r: SendResult)
    ensures r.channel.websocketOpen == ch.websocketOpen && r.channel.running == ch.running
    ensures gcode == "" || !Connected(ch) ==> r == SendResult(ch, None, None, incoming)
    ensures gcode != "" && Connected(ch) ==>
      r.request == Some(Request(ch.nextId, gcode)) && r.channel.nextId == ch.nextId + 1
    ensures gcode != "" && Connected(ch) && !sendOk ==> r.response.None? && r.rest == incoming
    ensures r.response.Some? ==>
      && r.request.Some?
      && r.response.value.id == Some(r.request.value.id)
      && !r.response.value.hasError
      && r.response.value in incoming
    ensures |r.rest| <= |incoming| && r.rest == incoming[|incoming| - |r.rest|..]
  {
    if gcode == "" || !Connected(ch) then SendResult(ch, None, None, incoming)
    else
      var id := ch.nextId;
      var ch' := ch.(nextId := id + 1);
      if !sendOk then SendResult(ch', Some(Request(id, gcode)), None, incoming)
      else
        var (outcome, consumed) := AwaitOutcome(incoming, id);
        var response := if outcome.Reply? then Some(outcome.message) else None;
        SendResult(ch', Some(Request(id, gcode)), response, incoming[consumed..])
  }

  /** A reply carrying `error` fails only that call: nothing is returned and
      the channel stays connected. */
  lemma ErrorReplyFailsCall(ch: Channel, gcode: string, incoming: seq<Message>, k: nat)
    requires Connected(ch) && gcode != ""
    requires k < |incoming| && incoming[k].id == Some(ch.nextId) && incoming[k].hasError
    requires forall j :: 0 <= j < k ==> incoming[j].id != Some(ch.nextId)
    ensures SendGcode(ch, gcode, true, incoming).response.None?
    ensures Connected(SendGcode(ch, gcode, true, incoming).channel)
    ensures SendGcode(ch, gcode, true, incoming).rest == incoming[k + 1..]
  {
    FirstMatchAt(incoming, ch.nextId, k);
  }

  /** A send that fails still uses up its id: the call returns nothing,
      reads nothing, and the next request carries the following id. */
  lemma FailedSendConsumesId(ch: Channel, gcode: string, next: string, incoming: seq<Message>)
    requires Connected(ch) && gcode != "" && next != ""
    ensures var failed := SendGcode(ch, gcode, false, incoming);
      && failed.response.None? && failed.rest == incoming && Connected(failed.channel)
      && SendGcode(failed.channel, next, true, incoming).request == Some(Request(ch.nextId + 1, next))
  {
  }

  /** Notifications (and any other messages without the request's id) before
      the reply are skipped, and the reply is returned. */
  lemma NotificationsSkipped(ch: Channel, gcode: string, noise: seq<Message>, reply: Message, later: seq<Message>)
    requires Connected(ch) && gcode != ""
    requires forall j :: 0 <= j < |noise| ==> noise[j].id != Some(ch.nextId)
    requires reply.id == Some(ch.nextId) && !reply.hasError
    ensures SendGcode(ch, gcode, true, noise + [reply] + later).response == Some(reply)
    ensures SendGcode(ch, gcode, true, noise + [reply] + later).rest == later
  {
    var incoming := noise + [reply] + later;
    assert incoming[|noise|] == reply;
    assert forall j :: 0 <= j < |noise| ==> incoming[j] == noise[j];
    FirstMatchAt(incoming, ch.nextId, |noise|);
    assert incoming[|noise| + 1..] == later;
  }

  /** A run of `send_gcode` calls on one stream of incoming messages; `sendOks`
      gives the outcome of each `websocket.send`. Returns the final channel,
      the requests put on the wire, and the unread messages. */
  function SendAll(ch: Channel, gcodes: seq<string>, sendOks: seq<bool>, incoming: seq<Message>):
    (r: (Channel, seq<Request>, seq<Message>))
    requires |sendOks| == |gcodes|
    decreases |gcodes|
  {
    if |gcodes| == 0 then (ch, [], incoming)
    else
      var first := SendGcode(ch, gcodes[0], sendOks[0], incoming);
      var (ch', requests, rest) := SendAll(first.channel, gcodes[1..], sendOks[1..], first.rest);
      (ch', (if first.request.Some? then [first.request.value] else []) + requests, rest)
  }

  /** On one connection, the k-th request carries id `nextId + k` and the k-th
      script, whatever the socket does with them. */
  lemma {:induction false} SendAllIdsConsecutive(ch: Channel, gcodes: seq<string>, sendOks: seq<bool>, incoming: seq<Message>)
    requires |sendOks| == |gcodes| && Connected(ch)
    requires forall k :: 0 <= k < |gcodes| ==> gcodes[k] != ""
    ensures var (ch', requests, _) := SendAll(ch, gcodes, sendOks, incoming);
      && Connected(ch')
      && ch'.nextId == ch.nextId + |gcodes|
      && |requests| == |gcodes|
      && forall k :: 0 <= k < |requests| ==> requests[k] == Request(ch.nextId + k, gcodes[k])
    decreases |gcodes|
  {
    if |gcodes| > 0 {
      var first := SendGcode(ch, gcodes[0], sendOks[0], incoming);
      SendAllIdsConsecutive(first.channel, gcodes[1..], sendOks[1..], first.rest);
    }
  }

  /** After a successful connect the requests are numbered 1, 2, 3, ... */
  lemma IdsStartAtOneAfterConnect(ch: Channel, gcodes: seq<string>, sendOks: seq<bool>, incoming: seq<Message>)
    requires |sendOks| == |gcodes|
    requires forall k :: 0 <= k < |gcodes| ==> gcodes[k] != ""
    ensures var requests := SendAll(Connect(ch, true), gcodes, sendOks, incoming).1;
      forall k :: 0 <= k < |requests| ==> requests[k].id == k + 1
  {
    SendAllIdsConsecutive(Connect(ch, true), gcodes, sendOks, incoming);
  }
}
