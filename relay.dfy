/** The handshake-then-relay protocol of `PlaceRunner::run`
    (src/place_runner.rs:96-120), stated on values: the messages the
    receiver yields, what reaches the output channel, and how the
    conversation ends. The receiver and the channel it talks to are
    modelled at their boundary by the two classes at the end. */
module Relay {
  import opened Wrappers
  import opened Launch

  /** One decoded request from the Studio plugin. `E` is the opaque
      event payload (`RobloxMessage`), passed through unchanged. */
  datatype Message<E> = Start | Stop | Messages(batch: seq<E>)

  /** How the handshake and relay loop end. `Blocked`: every message
      that will ever arrive has been taken and none was `Stop`, so the
      next `recv` never returns. */
  datatype Ending = Timeout | InvalidFirst | Stopped | SendFailed | Blocked

  /** The ending, everything the channel holds afterwards, and how many
      messages were taken from the receiver. */
  datatype Relayed<E> = Relayed(ending: Ending, sent: seq<Option<E>>, consumed: nat)

  // ---------------------------------------------------------------------
  // Reference definitions
  // ---------------------------------------------------------------------

  function Wrap<E>(events: seq<E>): seq<Option<E>> {
    seq(|events|, k requires 0 <= k < |events| => Some(events[k]))
  }

  predicate StopFree<E>(msgs: seq<Message<E>>) {
    forall k :: 0 <= k < |msgs| ==> !msgs[k].Stop?
  }

  /** Every batch's events, in arrival order. */
  function Events<E>(msgs: seq<Message<E>>): seq<E> {
    if msgs == [] then []
    else (if msgs[0].Messages? then msgs[0].batch else []) + Events(msgs[1..])
  }

  /** What relaying `msgs` after the handshake hands a consumer that
      never hangs up: each event as `Some`, up to and including one
      `None` for the first `Stop`. */
  ghost function Stream<E>(msgs: seq<Message<E>>): seq<Option<E>> {
    if msgs == [] then []
    else match msgs[0]
      case Start => Stream(msgs[1..])
      case Stop => [None]
      case Messages(batch) => Wrap(batch) + Stream(msgs[1..])
  }

  /** `n` items fit into a channel whose consumer hangs up after
      `hangUp` items (never, when `hangUp` is `None`). */
  predicate Fits(hangUp: Option<nat>, n: nat) {
    hangUp.None? || n <= hangUp.value
  }

  // ---------------------------------------------------------------------
  // The protocol, step by step
  // ---------------------------------------------------------------------

  /** Sending `items` one by one onto a channel holding `sent`: all go
      through, or those that fit do and the first that does not fails. */
  function Deliver<E>(sent: seq<Option<E>>, items: seq<Option<E>>, hangUp: Option<nat>): (r: (bool, seq<Option<E>>))
    requires Fits(hangUp, |sent|)
    ensures r.0 <==> Fits(hangUp, |sent| + |items|)
    ensures Fits(hangUp, |r.1|) && |sent| <= |r.1| <= |sent| + |items|
    ensures !r.0 ==> |r.1| == hangUp.value
  {
    if Fits(hangUp, |sent| + |items|) then (true, sent + items)
    else (false, (sent + items)[..hangUp.value])
  }

  /** What `Deliver` leaves on the channel: the old items, then items in
      order, all of them exactly when it reports success. */
  lemma DeliverContents<E>(sent: seq<Option<E>>, items: seq<Option<E>>, hangUp: Option<nat>)
    requires Fits(hangUp, |sent|)
    ensures var r := Deliver(sent, items, hangUp);
      sent <= r.1 && r.1 <= sent + items && (r.0 <==> r.1 == sent + items)
  {
  }

  /** A batch whose send fails at item `j`: the channel holds the old
      items and the batch's first `j` events. */
  lemma {:induction false} DeliverFailsAt<E>(sent: seq<Option<E>>, batch: seq<E>, j: nat, hangUp: Option<nat>)
    requires j < |batch| && hangUp.Some? && |sent| + j == hangUp.value
    ensures Deliver(sent, Wrap(batch), hangUp) == (false, sent + Wrap(batch[..j]))
  {
    assert batch == batch[..j] + batch[j..];
    WrapAppend(batch[..j], batch[j..]);
    assert (sent + Wrap(batch))[..hangUp.value] == sent + Wrap(batch[..j]);
  }

  /** The relay loop from message `i` on (src/place_runner.rs:107-120). */
  ghost function RelayLoop<E>(msgs: seq<Message<E>>, i: nat, sent: seq<Option<E>>, hangUp: Option<nat>): (r: Relayed<E>)
    requires i <= |msgs| && Fits(hangUp, |sent|)
    ensures i <= r.consumed <= |msgs|
    ensures r.ending != Timeout && r.ending != InvalidFirst
    decreases |msgs| - i
  {
    if i == |msgs| then Relayed(Blocked, sent, i)
    else match msgs[i]
      case Start => RelayLoop(msgs, i + 1, sent, hangUp)
      case Stop =>
        var (ok, sent') := Deliver(sent, [None], hangUp);
        Relayed(if ok then Stopped else SendFailed, sent', i + 1)
      case Messages(batch) =>
        var (ok, sent') := Deliver(sent, Wrap(batch), hangUp);
        if ok then RelayLoop(msgs, i + 1, sent', hangUp) else Relayed(SendFailed, sent', i + 1)
  }

  /** The handshake and then the relay loop (src/place_runner.rs:96-120),
      for the messages `arrivals` the receiver will yield; an empty
      queue at the handshake is the 60-second timeout. */
  ghost function Converse<E>(arrivals: seq<Message<E>>, sent: seq<Option<E>>, hangUp: Option<nat>): (r: Relayed<E>)
    requires Fits(hangUp, |sent|)
    ensures r.consumed <= |arrivals|
    ensures r.ending == Timeout <==> arrivals == []
    ensures r.ending == InvalidFirst <==> arrivals != [] && !arrivals[0].Start?
  {
    if arrivals == [] then Relayed(Timeout, sent, 0)
    else if !arrivals[0].Start? then Relayed(InvalidFirst, sent, 1)
    else RelayLoop(arrivals, 1, sent, hangUp)
  }

  // ---------------------------------------------------------------------
  // Properties of the reference definitions
  // ---------------------------------------------------------------------

  lemma WrapAppend<E>(a: seq<E>, b: seq<E>)
    ensures Wrap(a + b) == Wrap(a) + Wrap(b)
  {
  }

  lemma SliceCons<T>(s: seq<T>, i: nat, j: nat)
    requires i < j <= |s|
    ensures s[i..j][0] == s[i] && s[i..j][1..] == s[i + 1..j]
  {
  }

  lemma StopFreeCons<E>(msgs: seq<Message<E>>, i: nat, j: nat)
    requires i < j <= |msgs|
    ensures StopFree(msgs[i..j]) <==> !msgs[i].Stop? && StopFree(msgs[i + 1..j])
  {
  }

  /** Over a stretch without `Stop` the stream is every batch's events. */
  lemma {:induction false} StreamOfStopFree<E>(msgs: seq<Message<E>>)
    requires StopFree(msgs)
    ensures Stream(msgs) == Wrap(Events(msgs))
  {
    if msgs != [] {
      assert !msgs[0].Stop?;
      assert StopFree(msgs[1..]) by {
        forall k | 0 <= k < |msgs| - 1 ensures !msgs[1..][k].Stop? { assert msgs[1..][k] == msgs[k + 1]; }
      }
      StreamOfStopFree(msgs[1..]);
      WrapAppend(if msgs[0].Messages? then msgs[0].batch else [], Events(msgs[1..]));
    }
  }

  /** A stretch without `Stop` followed by `Stop`: every event of the
      stretch, in order, then exactly one `None`; nothing after the
      `Stop` counts. */
  lemma {:induction false} StreamThroughStop<E>(body: seq<Message<E>>, tail: seq<Message<E>>)
    requires StopFree(body)
    ensures Stream(body + [Stop] + tail) == Wrap(Events(body)) + [None]
  {
    if body == [] {
      assert (body + [Stop] + tail)[0] == Stop;
    } else {
      var msgs := body + [Stop] + tail;
      assert msgs[0] == body[0];
      assert msgs[1..] == body[1..] + [Stop] + tail;
      assert StopFree(body[1..]) by {
        forall k | 0 <= k < |body| - 1 ensures !body[1..][k].Stop? { assert body[1..][k] == body[k + 1]; }
      }
      assert !body[0].Stop?;
      StreamThroughStop(body[1..], tail);
      WrapAppend(if body[0].Messages? then body[0].batch else [], Events(body[1..]));
    }
  }

  /** A `Start` anywhere in the stream's input changes nothing. */
  lemma {:induction false} StreamSkipsStart<E>(a: seq<Message<E>>, b: seq<Message<E>>)
    ensures Stream(a + [Start] + b) == Stream(a + b)
  {
    if a == [] {
      assert (a + [Start] + b)[0] == Start && (a + [Start] + b)[1..] == b;
      assert a + b == b;
    } else {
      assert (a + [Start] + b)[0] == a[0] && (a + [Start] + b)[1..] == a[1..] + [Start] + b;
      assert (a + b)[0] == a[0] && (a + b)[1..] == a[1..] + b;
      StreamSkipsStart(a[1..], b);
    }
  }

  /** `None` appears in the stream only as its last item, and only when
      the input holds a `Stop`. */
  lemma {:induction false} StreamNoneIsLast<E>(msgs: seq<Message<E>>)
    ensures forall k :: 0 <= k < |Stream(msgs)| && Stream(msgs)[k].None? ==>
      k == |Stream(msgs)| - 1 && !StopFree(msgs)
  {
    if msgs != [] {
      StreamNoneIsLast(msgs[1..]);
      if !StopFree(msgs[1..]) {
        var k :| 0 <= k < |msgs[1..]| && msgs[1..][k].Stop?;
        assert msgs[k + 1].Stop?;
      }
    }
  }

  /** The relay loop, in closed form: the consumer receives the stream
      of the remaining messages, cut short where it hangs up; the loop
      ends at `Stop` when the stream holds one and everything fits, fails
      when it does not fit, and otherwise waits for more. */
  lemma {:induction false} RelayLoopOutput<E>(msgs: seq<Message<E>>, i: nat, sent: seq<Option<E>>, hangUp: Option<nat>)
    requires i <= |msgs| && Fits(hangUp, |sent|)
    ensures var c := RelayLoop(msgs, i, sent, hangUp);
      var all := sent + Stream(msgs[i..]);
      && (Fits(hangUp, |all|) ==> c.sent == all && c.ending == (if StopFree(msgs[i..]) then Blocked else Stopped))
      && (!Fits(hangUp, |all|) ==> c.ending == SendFailed && c.sent == all[..hangUp.value])
    decreases |msgs| - i
  {
    if i == |msgs| {
      assert msgs[i..] == [];
    } else {
      SliceCons(msgs, i, |msgs|);
      StopFreeCons(msgs, i, |msgs|);
      match msgs[i]
      case Start =>
        RelayLoopOutput(msgs, i + 1, sent, hangUp);
      case Stop =>
      case Messages(batch) =>
        if Fits(hangUp, |sent| + |batch|) {
          RelayLoopOutput(msgs, i + 1, sent + Wrap(batch), hangUp);
          assert sent + Wrap(batch) + Stream(msgs[i + 1..]) == sent + Stream(msgs[i..]);
        } else {
          assert (sent + Stream(msgs[i..]))[..hangUp.value] == (sent + Wrap(batch))[..hangUp.value];
        }
    }
  }

  /** The relay loop takes messages from `i` on, never past the end, and
      has taken them all when it waits for more. */
  lemma {:induction false} RelayLoopConsumed<E>(msgs: seq<Message<E>>, i: nat, sent: seq<Option<E>>, hangUp: Option<nat>)
    requires i <= |msgs| && Fits(hangUp, |sent|)
    ensures var c := RelayLoop(msgs, i, sent, hangUp);
      && i <= c.consumed <= |msgs|
      && (c.ending == Stopped || c.ending == SendFailed || c.ending == Blocked)
      && (c.ending == Blocked ==> c.consumed == |msgs|)
      && (c.ending != Blocked ==> i < c.consumed)
    decreases |msgs| - i
  {
    if i < |msgs| {
      match msgs[i]
      case Start =>
        RelayLoopConsumed(msgs, i + 1, sent, hangUp);
      case Stop =>
      case Messages(batch) =>
        if Fits(hangUp, |sent| + |batch|) {
          RelayLoopConsumed(msgs, i + 1, sent + Wrap(batch), hangUp);
        }
    }
  }

  /** A loop that ends at `Stop` has taken exactly the messages up to
      and including the first `Stop`. */
  lemma {:induction false} RelayLoopStopsAtFirstStop<E>(msgs: seq<Message<E>>, i: nat, sent: seq<Option<E>>, hangUp: Option<nat>)
    requires i <= |msgs| && Fits(hangUp, |sent|)
    ensures var c := RelayLoop(msgs, i, sent, hangUp);
      c.ending == Stopped ==>
        i < c.consumed <= |msgs| && msgs[c.consumed - 1].Stop? && StopFree(msgs[i..c.consumed - 1])
    decreases |msgs| - i, 1
  {
    if i < |msgs| {
      match msgs[i]
      case Start =>
        StopsAtFirstStopStep(msgs, i, sent, sent, hangUp);
      case Stop =>
        assert msgs[i..i] == [];
      case Messages(batch) =>
        if Fits(hangUp, |sent| + |batch|) {
          StopsAtFirstStopStep(msgs, i, sent, sent + Wrap(batch), hangUp);
        }
    }
  }

  /** One step of RelayLoopStopsAtFirstStop's induction: message `i`
      went through, leaving `sent'` on the channel. */
  lemma {:induction false} StopsAtFirstStopStep<E>(msgs: seq<Message<E>>, i: nat, sent: seq<Option<E>>, sent': seq<Option<E>>, hangUp: Option<nat>)
    requires i < |msgs| && !msgs[i].Stop? && Fits(hangUp, |sent|) && Fits(hangUp, |sent'|)
    requires RelayLoop(msgs, i, sent, hangUp) == RelayLoop(msgs, i + 1, sent', hangUp)
    ensures var c := RelayLoop(msgs, i, sent, hangUp);
      c.ending == Stopped ==>
        i < c.consumed <= |msgs| && msgs[c.consumed - 1].Stop? && StopFree(msgs[i..c.consumed - 1])
    decreases |msgs| - i, 0
  {
    RelayLoopStopsAtFirstStop(msgs, i + 1, sent', hangUp);
    var c := RelayLoop(msgs, i + 1, sent', hangUp);
    if c.ending == Stopped {
      StopFreeCons(msgs, i, c.consumed - 1);
    }
  }

  /** A loop that fails on a send has taken exactly the messages up to
      and including the first one whose delivery does not fit. */
  lemma {:induction false} RelayLoopFailsAtOverflow<E>(msgs: seq<Message<E>>, i: nat, sent: seq<Option<E>>, hangUp: Option<nat>)
    requires i <= |msgs| && Fits(hangUp, |sent|)
    ensures var c := RelayLoop(msgs, i, sent, hangUp);
      c.ending == SendFailed ==>
        && i < c.consumed <= |msgs|
        && Fits(hangUp, |sent| + |Stream(msgs[i..c.consumed - 1])|)
        && !Fits(hangUp, |sent| + |Stream(msgs[i..c.consumed])|)
    decreases |msgs| - i, 1
  {
    if i < |msgs| {
      match msgs[i]
      case Start =>
        FailsAtOverflowStep(msgs, i, sent, sent, hangUp);
      case Stop =>
        OverflowAtFirst(msgs, i);
      case Messages(batch) =>
        if Fits(hangUp, |sent| + |batch|) {
          FailsAtOverflowStep(msgs, i, sent, sent + Wrap(batch), hangUp);
        } else {
          OverflowAtFirst(msgs, i);
        }
    }
  }

  /** One step of RelayLoopFailsAtOverflow's induction: message `i` went
      through, leaving `sent'` on the channel. */
  lemma {:induction false} FailsAtOverflowStep<E>(msgs: seq<Message<E>>, i: nat, sent: seq<Option<E>>, sent': seq<Option<E>>, hangUp: Option<nat>)
    requires i < |msgs| && !msgs[i].Stop? && Fits(hangUp, |sent'|)
    requires sent' == sent + (if msgs[i].Messages? then Wrap(msgs[i].batch) else [])
    requires RelayLoop(msgs, i, sent, hangUp) == RelayLoop(msgs, i + 1, sent', hangUp)
    ensures var c := RelayLoop(msgs, i, sent, hangUp);
      c.ending == SendFailed ==>
        && i < c.consumed <= |msgs|
        && Fits(hangUp, |sent| + |Stream(msgs[i..c.consumed - 1])|)
        && !Fits(hangUp, |sent| + |Stream(msgs[i..c.consumed])|)
    decreases |msgs| - i, 0
  {
    RelayLoopFailsAtOverflow(msgs, i + 1, sent', hangUp);
    var c := RelayLoop(msgs, i + 1, sent', hangUp);
    if c.ending == SendFailed {
      SliceCons(msgs, i, c.consumed);
      SliceCons(msgs, i, c.consumed - 1);
    }
  }

  /** The stretch before message `i` is empty and the one through it is
      that message alone. */
  lemma OverflowAtFirst<E>(msgs: seq<Message<E>>, i: nat)
    requires i < |msgs|
    ensures msgs[i..i] == [] && msgs[i..i + 1] == [msgs[i]] && msgs[i + 1..i + 1] == []
  {
  }

  // ---------------------------------------------------------------------
  // The properties of the handshake and relay
  // ---------------------------------------------------------------------

  /** No first message within the bound: the timeout error, nothing sent,
      nothing taken. */
  lemma HandshakeTimeoutSendsNothing<E>(sent: seq<Option<E>>, hangUp: Option<nat>)
    requires Fits(hangUp, |sent|)
    ensures Converse([], sent, hangUp) == Relayed(Timeout, sent, 0)
  {
  }

  /** A first message other than `Start`: the invalid-first-message
      error, nothing sent, only that message taken. */
  lemma InvalidFirstMessageSendsNothing<E>(arrivals: seq<Message<E>>, sent: seq<Option<E>>, hangUp: Option<nat>)
    requires Fits(hangUp, |sent|)
    requires arrivals != [] && !arrivals[0].Start?
    ensures var c := Converse(arrivals, sent, hangUp);
      c.ending == InvalidFirst && c.sent == sent && c.consumed == 1
  {
  }

  /** `Start`, then batches and repeated `Start`s, then `Stop`, with a
      consumer that stays: the channel receives every batch's events in
      order as `Some`, then exactly one `None`; the messages after the
      `Stop` are never taken. */
  lemma RelayDeliversEveryBatch<E>(body: seq<Message<E>>, tail: seq<Message<E>>, sent: seq<Option<E>>, hangUp: Option<nat>)
    requires StopFree(body)
    requires Fits(hangUp, |sent| + |Events(body)| + 1)
    ensures var c := Converse([Start] + body + [Stop] + tail, sent, hangUp);
      c == Relayed(Stopped, sent + Wrap(Events(body)) + [None], |body| + 2)
  {
    var msgs := [Start] + body + [Stop] + tail;
    var all := sent + Wrap(Events(body)) + [None];
    assert msgs[1..] == body + [Stop] + tail;
    StreamThroughStop(body, tail);
    assert sent + Stream(msgs[1..]) == all;
    assert |all| == |sent| + |Events(body)| + 1;
    assert !StopFree(msgs[1..]) by { assert msgs[1..][|body|].Stop?; }
    RelayLoopOutput(msgs, 1, sent, hangUp);
    RelayLoopStopsAtFirstStop(msgs, 1, sent, hangUp);
    var c := RelayLoop(msgs, 1, sent, hangUp);
    assert c.ending == Stopped && c.sent == all;
    assert msgs[1..|body| + 1] == body;
    FirstStopIsUnique(msgs, 1, c.consumed - 1, |body| + 1);
  }

  /** Two positions that each hold the first `Stop` after `lo` are the
      same position. */
  lemma FirstStopIsUnique<E>(msgs: seq<Message<E>>, lo: nat, p: nat, q: nat)
    requires lo <= p < |msgs| && msgs[p].Stop? && StopFree(msgs[lo..p])
    requires lo <= q < |msgs| && msgs[q].Stop? && StopFree(msgs[lo..q])
    ensures p == q
  {
    forall k | lo <= k < p ensures !msgs[k].Stop? { assert msgs[lo..p][k - lo] == msgs[k]; }
    forall k | lo <= k < q ensures !msgs[k].Stop? { assert msgs[lo..q][k - lo] == msgs[k]; }
  }

  /** The example session: `Start`, one batch with one event, `Stop`
      yields `Some(event)` then `None`. */
  lemma SingleEventSession<E>(event: E)
    ensures Converse([Start, Messages([event]), Stop], [], None) == Relayed(Stopped, [Some(event), None], 3)
  {
    var body: seq<Message<E>> := [Messages([event])];
    assert StopFree(body);
    assert [Start, Messages([event]), Stop] == [Start] + body + [Stop] + [];
    RelayDeliversEveryBatch(body, [], [], None);
    assert Events(body) == [event] by { assert body[1..] == []; }
  }

  /** A `Start` after the handshake produces nothing and ends nothing:
      the ending and everything sent are as if it had not arrived. */
  lemma StartAfterHandshakeIgnored<E>(a: seq<Message<E>>, b: seq<Message<E>>, sent: seq<Option<E>>, hangUp: Option<nat>)
    requires Fits(hangUp, |sent|)
    requires a != [] && a[0].Start?
    ensures var with := Converse(a + [Start] + b, sent, hangUp);
      var without := Converse(a + b, sent, hangUp);
      with.ending == without.ending && with.sent == without.sent
  {
    var m1 := a + [Start] + b;
    var m2 := a + b;
    assert m1[0] == a[0] && m2[0] == a[0];
    assert m1[1..] == a[1..] + [Start] + b;
    assert m2[1..] == a[1..] + b;
    StreamSkipsStart(a[1..], b);
    assert sent + Stream(m1[1..]) == sent + Stream(m2[1..]);
    RelayLoopOutput(m1, 1, sent, hangUp);
    RelayLoopOutput(m2, 1, sent, hangUp);
    var r1 := RelayLoop(m1, 1, sent, hangUp);
    var r2 := RelayLoop(m2, 1, sent, hangUp);
    assert StopFree(m1[1..]) <==> StopFree(m2[1..]) by {
      if !StopFree(m1[1..]) {
        var k :| 0 <= k < |m1[1..]| && m1[1..][k].Stop?;
        if k < |a| - 1 { assert m2[1..][k] == m1[1..][k]; } else { assert m2[1..][k - 1] == m1[1..][k]; }
      }
      if !StopFree(m2[1..]) {
        var k :| 0 <= k < |m2[1..]| && m2[1..][k].Stop?;
        if k < |a| - 1 { assert m1[1..][k] == m2[1..][k]; } else { assert m1[1..][k + 1] == m2[1..][k]; }
      }
    }
  }

  /** Whatever arrives and whenever the consumer hangs up, the channel
      receives the stream of everything after the handshake, cut short;
      nothing follows a `None`, and a `None` is sent only when the loop
      ends at `Stop`. */
  lemma NothingAfterNone<E>(arrivals: seq<Message<E>>, sent: seq<Option<E>>, hangUp: Option<nat>)
    requires Fits(hangUp, |sent|)
    ensures var c := Converse(arrivals, sent, hangUp);
      && |sent| <= |c.sent|
      && (arrivals != [] ==> c.sent <= sent + Stream(arrivals[1..]))
      && forall k :: |sent| <= k < |c.sent| && c.sent[k].None? ==> k == |c.sent| - 1 && c.ending == Stopped
  {
    if arrivals != [] && arrivals[0].Start? {
      RelayLoopOutput(arrivals, 1, sent, hangUp);
      StreamNoneIsLast(arrivals[1..]);
      var c := Converse(arrivals, sent, hangUp);
      var all := sent + Stream(arrivals[1..]);
      forall k | |sent| <= k < |c.sent| && c.sent[k].None?
        ensures k == |c.sent| - 1 && c.ending == Stopped
      {
        assert c.sent[k] == all[k];
        assert Stream(arrivals[1..])[k - |sent|].None?;
      }
    }
  }

  /** A failed send ends everything at once: the channel holds exactly
      what fitted before the consumer hung up, and the last message taken
      is the first whose delivery did not fit, so no later message is
      taken. */
  lemma SendFailureEndsRelay<E>(arrivals: seq<Message<E>>, sent: seq<Option<E>>, hangUp: Option<nat>)
    requires Fits(hangUp, |sent|)
    ensures var c := Converse(arrivals, sent, hangUp);
      c.ending == SendFailed ==>
        && hangUp.Some? && |c.sent| == hangUp.value
        && !Fits(hangUp, |sent + Stream(arrivals[1..])|)
        && c.sent == (sent + Stream(arrivals[1..]))[..hangUp.value]
        && 1 < c.consumed <= |arrivals|
        && Fits(hangUp, |sent| + |Stream(arrivals[1..c.consumed - 1])|)
        && !Fits(hangUp, |sent| + |Stream(arrivals[1..c.consumed])|)
  {
    if arrivals != [] && arrivals[0].Start? {
      RelayLoopOutput(arrivals, 1, sent, hangUp);
      RelayLoopFailsAtOverflow(arrivals, 1, sent, hangUp);
    }
  }

  // ---------------------------------------------------------------------
  // The receiver and the channel, at their boundary
  // ---------------------------------------------------------------------

  /** `MessageReceiver`: `queue` holds, in order, every message the
      plugin's requests will deliver from now on; `received` those already
      handed out. Token checking and the HTTP listener are not modelled. */
  class MessageReceiver<E> {
    const port: u16
    const serverId: string
    var queue: seq<Message<E>>
    ghost var received: seq<Message<E>>
    var stopped: bool

    constructor Start(port: u16, serverId: string, arrivals: seq<Message<E>>)
      ensures this.port == port && this.serverId == serverId
      ensures queue == arrivals && received == [] && !stopped
    {
      this.port := port;
      this.serverId := serverId;
      queue := arrivals;
      received := [];
      stopped := false;
    }

    /** `recv_timeout`: `None` when nothing arrives within the bound.
        The clock is not modelled: the wait expires exactly when no
        further message will arrive. */
    method RecvTimeout() returns (m: Option<Message<E>>)
      modifies this`queue, this`received
      ensures old(queue) == [] ==> m == None && queue == old(queue) && received == old(received)
      ensures old(queue) != [] ==>
        m == Some(old(queue)[0]) && queue == old(queue)[1..] && received == old(received) + [old(queue)[0]]
    {
      m := Recv();
    }

    /** `recv`: the next message; `None` stands for a call that never
        returns because nothing more will arrive. */
    method Recv() returns (m: Option<Message<E>>)
      modifies this`queue, this`received
      ensures old(queue) == [] ==> m == None && queue == old(queue) && received == old(received)
      ensures old(queue) != [] ==>
        m == Some(old(queue)[0]) && queue == old(queue)[1..] && received == old(received) + [old(queue)[0]]
    {
      if queue == [] {
        m := None;
      } else {
        m := Some(queue[0]);
        received := received + [queue[0]];
        queue := queue[1..];
      }
    }

    method Stop()
      modifies this`stopped
      ensures stopped
    {
      stopped := true;
    }
  }

  /** `mpsc::Sender<Option<RobloxMessage>>`: `sent` is every item whose
      `send` succeeded (items still buffered when the consumer goes away
      are never read, but they were sent); the consumer hangs up after
      `hangUp` items, and every send after that fails. */
  class Sender<E> {
    var sent: seq<Option<E>>
    const hangUp: Option<nat>

    ghost predicate Valid()
      reads this
    {
      Fits(hangUp, |sent|)
    }

    predicate Connected()
      reads this
    {
      hangUp.None? || |sent| < hangUp.value
    }

    constructor (hangUp: Option<nat>)
      ensures Valid() && sent == [] && this.hangUp == hangUp
    {
      sent := [];
      this.hangUp := hangUp;
    }

    method Send(item: Option<E>) returns (ok: bool)
      requires Valid()
      modifies this`sent
      ensures Valid()
      ensures ok == old(Connected())
      ensures sent == if ok then old(sent) + [item] else old(sent)
    {
      ok := Connected();
      if ok {
        sent := sent + [item];
      }
    }
  }
}
