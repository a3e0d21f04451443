/**
 * The WebSocket hub of server/routes.ts: the `connection` handler with its
 * origin check, the per-connection `message` handler that overwrites the
 * subscription list, and `broadcast`, which sends `{channel, data}` to every
 * open client subscribed to the channel. `wss.clients` is a sequence of
 * connection records; what `client.send` has written to each socket is that
 * connection's outbox. JSON parsing of incoming frames is abstracted into
 * `Message`.
 */
module Hub {
  import opened Wrappers
  import opened Js
  import opened Config

  /** `WebSocket.readyState`. */
  datatype ReadyState = Connecting | Open | Closing | Closed

  /**
   * A client socket. `subscriptions` is the property the connection handler
   * attaches; it stays `None` on a socket that was refused, which also never
   * gets a `message` handler.
   */
  datatype Connection = Connection(state: ReadyState, subscriptions: Option<seq<string>>)

  /** `JSON.stringify({ channel, data })`, kept as the value it serialises. */
  datatype Frame = Frame(channel: string, data: JsValue)

  /**
   * An incoming frame after `JSON.parse`: an object whose `type` is
   * "subscribe" (with its `channels`, `None` when that property is falsy),
   * any other value, or text that does not parse.
   */
  datatype Message = Subscribe(channels: Option<seq<string>>) | Other | Malformed

  /** The test `broadcast` applies to each client. */
  predicate Receives(c: Connection, channel: string)
  {
    c.state == Open && c.subscriptions.Some? && channel in c.subscriptions.value
  }

  /** True when the connection handler closes the socket at once. */
  predicate Refused(settings: Settings, origin: Option<string>)
  {
    IsProduction(settings) && settings.frontendUrl.Some? && settings.frontendUrl.value != ""
    && origin != settings.frontendUrl
  }

  /** The record the connection handler leaves for a new socket with the given `Origin` header. */
  function Admitted(settings: Settings, origin: Option<string>): (c: Connection)
    ensures c.subscriptions.None? <==> Refused(settings, origin)
    ensures c.subscriptions.Some? ==> c.subscriptions.value == [] && c.state == Open
    ensures !(exists ch :: Receives(c, ch))
  {
    if Refused(settings, origin) then Connection(Closing, None) else Connection(Open, Some([]))
  }

  /**
   * The `message` handler: a subscribe message replaces the whole list (with
   * `[]` when `channels` is falsy); anything else, including a frame that
   * fails to parse, changes nothing and never closes the socket.
   */
  function AfterMessage(c: Connection, m: Message): (d: Connection)
    ensures d.state == c.state
    ensures d.subscriptions.Some? <==> c.subscriptions.Some?
    ensures c.subscriptions.Some? && m.Subscribe? ==> d.subscriptions == Some(m.channels.GetOr([]))
    ensures !m.Subscribe? ==> d == c
  {
    if c.subscriptions.None? then c
    else
      match m
      case Subscribe(channels) => c.(subscriptions := Some(channels.GetOr([])))
      case _ => c
  }

  /** A run of messages on one socket. */
  function AfterMessages(c: Connection, ms: seq<Message>): Connection
    decreases |ms|
  {
    if |ms| == 0 then c else AfterMessages(AfterMessage(c, ms[0]), ms[1..])
  }

  /** The channels of the last subscribe message of `ms`, if there is one. */
  function LastSubscription(ms: seq<Message>): Option<seq<string>>
    decreases |ms|
  {
    if |ms| == 0 then None
    else if ms[|ms| - 1].Subscribe? then Some(ms[|ms| - 1].channels.GetOr([]))
    else LastSubscription(ms[..|ms| - 1])
  }

  lemma {:induction false} AfterMessagesSnoc(c: Connection, ms: seq<Message>, m: Message)
    ensures AfterMessages(c, ms + [m]) == AfterMessage(AfterMessages(c, ms), m)
    decreases |ms|
  {
    if |ms| > 0 {
      assert (ms + [m])[1..] == ms[1..] + [m];
      AfterMessagesSnoc(AfterMessage(c, ms[0]), ms[1..], m);
    }
  }

  /**
   * Subscriptions are overwritten, never merged: after any run of messages an
   * accepted socket is subscribed to exactly the channels of the last
   * subscribe message, and to nothing if there was none.
   */
  lemma {:induction false} LastSubscribeWins(settings: Settings, origin: Option<string>, ms: seq<Message>)
    requires !Refused(settings, origin)
    ensures AfterMessages(Admitted(settings, origin), ms).subscriptions == Some(LastSubscription(ms).GetOr([]))
    decreases |ms|
  {
    if |ms| > 0 {
      var init := ms[..|ms| - 1];
      assert ms == init + [ms[|ms| - 1]];
      AfterMessagesSnoc(Admitted(settings, origin), init, ms[|ms| - 1]);
      LastSubscribeWins(settings, origin, init);
    }
  }

  /** A socket refused by the origin check never receives a broadcast, whatever it sends. */
  lemma {:induction false} RefusedNeverReceives(settings: Settings, origin: Option<string>, ms: seq<Message>, channel: string)
    requires Refused(settings, origin)
    ensures AfterMessages(Admitted(settings, origin), ms) == Admitted(settings, origin)
    ensures !Receives(AfterMessages(Admitted(settings, origin), ms), channel)
    decreases |ms|
  {
    if |ms| > 0 {
      RefusedNeverReceives(settings, origin, ms[1..], channel);
    }
  }

  /** The outboxes after `broadcast(channel, payload)`: one more frame exactly for the receiving clients. */
  function Delivered(conns: seq<Connection>, outbox: seq<seq<Frame>>, channel: string, payload: JsValue): (r: seq<seq<Frame>>)
    requires |outbox| == |conns|
    ensures |r| == |outbox|
  {
    seq(|outbox|, i requires 0 <= i < |outbox| =>
      outbox[i] + if Receives(conns[i], channel) then [Frame(channel, payload)] else [])
  }

  /**
   * The fan-out on one socket: after subscribing to "jobs" it gets a "jobs"
   * broadcast and not a "scholarships" one; after an empty subscribe it gets
   * neither.
   */
  lemma ChannelIsolation(conns: seq<Connection>, outbox: seq<seq<Frame>>, i: nat, payload: JsValue)
    requires |outbox| == |conns| && i < |conns|
    requires conns[i].state == Open && conns[i].subscriptions.Some?
    ensures var jobs := conns[i := AfterMessage(conns[i], Subscribe(Some(["jobs"])))];
      Delivered(jobs, outbox, "jobs", payload)[i] == outbox[i] + [Frame("jobs", payload)]
      && Delivered(jobs, outbox, "scholarships", payload)[i] == outbox[i]
    ensures var none := conns[i := AfterMessage(conns[i], Subscribe(Some([])))];
      Delivered(none, outbox, "jobs", payload)[i] == outbox[i]
  {
  }

  /** The connection registry (`wss.clients`) with what has been sent to each client. */
  class Registry {
    const settings: Settings
    var conns: seq<Connection>
    var outbox: seq<seq<Frame>>

    ghost predicate Valid()
      reads this
    {
      |outbox| == |conns|
    }

    constructor (settings: Settings)
      ensures Valid() && this.settings == settings
      ensures conns == [] && outbox == []
    {
      this.settings := settings;
      conns := [];
      outbox := [];
    }

    /** The `connection` event: the new socket joins the clients, refused or not. */
    method Connect(origin: Option<string>) returns (id: nat)
      requires Valid()
      modifies this
      ensures Valid()
      ensures id == |old(conns)|
      ensures conns == old(conns) + [Admitted(settings, origin)]
      ensures outbox == old(outbox) + [[]]
    {
      id := |conns|;
      conns := conns + [Admitted(settings, origin)];
      outbox := outbox + [[]];
    }

    /** A `message` event on socket `id`. */
    method Receive(id: nat, m: Message)
      requires Valid() && id < |conns|
      modifies this`conns
      ensures Valid()
      ensures conns == old(conns)[id := AfterMessage(old(conns)[id], m)]
    {
      conns := conns[id := AfterMessage(conns[id], m)];
    }

    /** The transport reports the socket closed: it is no longer a broadcast target. */
    method Disconnect(id: nat)
      requires Valid() && id < |conns|
      modifies this`conns
      ensures Valid()
      ensures conns == old(conns)[id := old(conns)[id].(state := Closed)]
    {
      conns := conns[id := conns[id].(state := Closed)];
    }

    /**
     * `broadcast(channel, payload)`: one frame to every open subscribed client,
     * in the order of the clients, and nothing to anyone else; no subscription
     * changes.
     */
    method Broadcast(channel: string, payload: JsValue)
      requires Valid()
      modifies this`outbox
      ensures Valid()
      ensures outbox == Delivered(conns, old(outbox), channel, payload)
    {
      var i := 0;
      while i < |conns|
        invariant 0 <= i <= |conns| && |outbox| == |conns|
        invariant forall k :: 0 <= k < i ==> outbox[k] == Delivered(conns, old(outbox), channel, payload)[k]
        invariant forall k :: i <= k < |conns| ==> outbox[k] == old(outbox)[k]
      {
        if conns[i].state == Open && conns[i].subscriptions.Some? && channel in conns[i].subscriptions.value {
          outbox := outbox[i := outbox[i] + [Frame(channel, payload)]];
        }
        i := i + 1;
      }
    }

    /** The broadcasts a handler makes, in order. */
    method Publish(events: seq<Frame>)
      requires Valid()
      modifies this`outbox
      ensures Valid()
      ensures outbox == DeliveredAll(conns, old(outbox), events)
    {
      var j := 0;
      while j < |events|
        invariant 0 <= j <= |events| && Valid()
        invariant outbox == DeliveredAll(conns, old(outbox), events[..j])
      {
        Broadcast(events[j].channel, events[j].data);
        DeliveredAllSnoc(conns, old(outbox), events[..j], events[j]);
        assert events[..j + 1] == events[..j] + [events[j]];
        j := j + 1;
      }
      assert events[..j] == events;
    }
  }

  /** The outboxes after a series of broadcasts. */
  function DeliveredAll(conns: seq<Connection>, outbox: seq<seq<Frame>>, events: seq<Frame>): (r: seq<seq<Frame>>)
    requires |outbox| == |conns|
    ensures |r| == |conns|
    decreases |events|
  {
    if |events| == 0 then outbox
    else DeliveredAll(conns, Delivered(conns, outbox, events[0].channel, events[0].data), events[1..])
  }

  lemma {:induction false} DeliveredAllSnoc(conns: seq<Connection>, outbox: seq<seq<Frame>>, events: seq<Frame>, e: Frame)
    requires |outbox| == |conns|
    ensures DeliveredAll(conns, outbox, events + [e])
         == Delivered(conns, DeliveredAll(conns, outbox, events), e.channel, e.data)
    decreases |events|
  {
    if |events| > 0 {
      assert (events + [e])[1..] == events[1..] + [e];
      DeliveredAllSnoc(conns, Delivered(conns, outbox, events[0].channel, events[0].data), events[1..], e);
    }
  }
}
