/**
Matching responses to commands on one pattern connection. Each section under the
connection's lock is one step; arriving messages are arbitrary.
*/
module Correlation {
  import opened Wrappers

  // ----- Correlation ids -----

  function Digit(d: nat): char
    requires d < 10
  {
    '0' + d as char
  }

  function Decimal(n: nat): string {
    if n < 10 then [Digit(n)] else Decimal(n / 10) + [Digit(n % 10)]
  }

  lemma {:induction false} DecimalInjective(m: nat, n: nat)
    requires Decimal(m) == Decimal(n)
    ensures m == n
  {
    var s := Decimal(m);
    assert s[|s| - 1] == Digit(m % 10) == Digit(n % 10);
    if m >= 10 && n >= 10 {
      assert s[..|s| - 1] == Decimal(m / 10) == Decimal(n / 10);
      DecimalInjective(m / 10, n / 10);
    }
  }

  function CorrelationId(instance: string, n: nat): string {
    instance + "-" + Decimal(n)
  }

  lemma IdsNeverRepeat(instance: string, m: nat, n: nat)
    requires CorrelationId(instance, m) == CorrelationId(instance, n)
    ensures m == n
  {
    var p := |instance| + 1;
    assert CorrelationId(instance, m)[p..] == Decimal(m);
    assert CorrelationId(instance, n)[p..] == Decimal(n);
    DecimalInjective(m, n);
  }

  // ----- The connection -----

  datatype PatternMessage = PatternMessage(correlationId: string, body: string)

  /** A caller of SendCommand: what its response channel holds, and what it returned. */
  datatype Waiter = Waiter(id: string, channel: seq<PatternMessage>, result: Option<PatternMessage>)

  /** A response channel holds one message. */
  const CAPACITY := 1

  /** The n-th caller has the n-th correlation number; pending says whose channel an id leads to. */
  datatype Connection = Connection(nextId: nat, pending: map<string, nat>, waiters: seq<Waiter>)

  const Fresh := Connection(0, map[], [])

  datatype Event =
    | Send                          // SendCommand takes a number and registers its channel
    | Arrive(msg: PatternMessage)   // the receive loop routes a message
    | Return(waiter: nat)           // a caller takes the response from its channel

  function Register(instance: string, c: Connection): Connection {
    var id := CorrelationId(instance, c.nextId + 1);
    Connection(c.nextId + 1, c.pending[id := |c.waiters|], c.waiters + [Waiter(id, [], None)])
  }

  /** Sending into the channel would block. */
  predicate Blocks(c: Connection, msg: PatternMessage) {
    msg.correlationId in c.pending && c.pending[msg.correlationId] < |c.waiters| &&
    |c.waiters[c.pending[msg.correlationId]].channel| >= CAPACITY
  }

  function Put(c: Connection, k: nat, msg: PatternMessage): seq<Waiter> {
    if k < |c.waiters| then c.waiters[k := c.waiters[k].(channel := c.waiters[k].channel + [msg])] else c.waiters
  }

  function Route(c: Connection, msg: PatternMessage): Connection {
    if msg.correlationId in c.pending
    then c.(waiters := Put(c, c.pending[msg.correlationId], msg), pending := c.pending - {msg.correlationId})
    else c
  }

  predicate CanReturn(c: Connection, k: nat) {
    k < |c.waiters| && c.waiters[k].result.None? && c.waiters[k].channel != []
  }

  function Take(c: Connection, k: nat): Connection
    requires CanReturn(c, k)
  {
    var w := c.waiters[k];
    c.(waiters := c.waiters[k := w.(channel := w.channel[1..], result := Some(w.channel[0]))])
  }

  /** A caller returns when its channel has something; routing goes on only when it does not block. */
  predicate Enabled(c: Connection, e: Event) {
    match e
    case Send => true
    case Arrive(msg) => !Blocks(c, msg)
    case Return(k) => CanReturn(c, k)
  }

  function Step(instance: string, c: Connection, e: Event): Connection
    requires Enabled(c, e)
  {
    match e
    case Send => Register(instance, c)
    case Arrive(msg) => Route(c, msg)
    case Return(k) => Take(c, k)
  }

  // ----- What every step keeps -----

  /** The message the caller has got or will get. */
  function Answer(w: Waiter): Option<PatternMessage> {
    if w.result.Some? then w.result else if w.channel != [] then Some(w.channel[0]) else None
  }

  predicate Holds(w: Waiter) {
    |w.channel| + (if w.result.Some? then 1 else 0) <= 1
  }

  ghost predicate WaiterOk(instance: string, c: Connection, k: nat)
    requires k < |c.waiters|
  {
    var w := c.waiters[k];
    && w.id == CorrelationId(instance, k + 1) && Holds(w)
    && (Answer(w).Some? ==> Answer(w).value.correlationId == w.id && w.id !in c.pending)
    && (Answer(w).None? ==> w.id in c.pending && c.pending[w.id] == k)
  }

  /** Every caller has its own id and at most one message, and is pending exactly until that message is routed. */
  ghost predicate Inv(instance: string, c: Connection) {
    && c.nextId == |c.waiters|
    && (forall k: nat | k < |c.waiters| :: WaiterOk(instance, c, k))
    && (forall id | id in c.pending :: c.pending[id] < |c.waiters| && c.waiters[c.pending[id]].id == id)
  }

  /** Routing into a response channel never blocks. */
  lemma RoutingNeverBlocks(instance: string, c: Connection, msg: PatternMessage)
    requires Inv(instance, c)
    ensures !Blocks(c, msg)
  {
    if msg.correlationId in c.pending {
      assert WaiterOk(instance, c, c.pending[msg.correlationId]);
    }
  }

  lemma RegisterKeeps(instance: string, c: Connection)
    requires Inv(instance, c)
    ensures Inv(instance, Register(instance, c))
  {
    var d := Register(instance, c);
    forall k: nat | k < |d.waiters| ensures WaiterOk(instance, d, k) {
      if k < |c.waiters| {
        assert WaiterOk(instance, c, k);
        if c.waiters[k].id == CorrelationId(instance, c.nextId + 1) {
          IdsNeverRepeat(instance, k + 1, c.nextId + 1);
        }
      }
    }
  }

  lemma RouteKeeps(instance: string, c: Connection, msg: PatternMessage)
    requires Inv(instance, c)
    ensures Inv(instance, Route(c, msg))
  {
    var d := Route(c, msg);
    forall k: nat | k < |d.waiters| ensures WaiterOk(instance, d, k) {
      assert WaiterOk(instance, c, k);
      if msg.correlationId in c.pending && c.waiters[k].id == msg.correlationId {
        var target := c.pending[msg.correlationId];
        assert WaiterOk(instance, c, target);
        IdsNeverRepeat(instance, k + 1, target + 1);
      }
    }
  }

  lemma TakeKeeps(instance: string, c: Connection, k: nat)
    requires Inv(instance, c) && CanReturn(c, k)
    ensures Inv(instance, Take(c, k))
  {
    var d := Take(c, k);
    forall j: nat | j < |d.waiters| ensures WaiterOk(instance, d, j) {
      assert WaiterOk(instance, c, j);
    }
  }

  lemma StepKeeps(instance: string, c: Connection, e: Event)
    requires Inv(instance, c) && Enabled(c, e)
    ensures Inv(instance, Step(instance, c, e))
  {
    match e
    case Send => RegisterKeeps(instance, c);
    case Arrive(msg) => RouteKeeps(instance, c, msg);
    case Return(k) => TakeKeeps(instance, c, k);
  }

  // ----- Runs -----

  /** An interleaving of calls, arrivals and returns; a return happens only when there is something to take. */
  ghost predicate IsRun(instance: string, es: seq<Event>)
    decreases |es|, 0
  {
    es == [] || (IsRun(instance, es[..|es| - 1]) && Enabled(Exec(instance, es[..|es| - 1]), es[|es| - 1]))
  }

  ghost function Exec(instance: string, es: seq<Event>): Connection
    requires IsRun(instance, es)
    decreases |es|, 1
  {
    if es == [] then Fresh else Step(instance, Exec(instance, es[..|es| - 1]), es[|es| - 1])
  }

  lemma {:induction false} RunKeeps(instance: string, es: seq<Event>)
    requires IsRun(instance, es)
    ensures Inv(instance, Exec(instance, es))
  {
    if es != [] {
      RunKeeps(instance, es[..|es| - 1]);
      StepKeeps(instance, Exec(instance, es[..|es| - 1]), es[|es| - 1]);
    }
  }

  /** The receive loop is never stuck in a response channel. */
  lemma ArrivalsNeverBlock(instance: string, es: seq<Event>, msg: PatternMessage)
    requires IsRun(instance, es)
    ensures IsRun(instance, es + [Arrive(msg)])
  {
    RunKeeps(instance, es);
    RoutingNeverBlocks(instance, Exec(instance, es), msg);
    assert (es + [Arrive(msg)])[..|es|] == es;
  }

  function Sends(es: seq<Event>): nat {
    if es == [] then 0 else Sends(es[..|es| - 1]) + if es[|es| - 1].Send? then 1 else 0
  }

  /** The first message bearing the id of the k-th caller that arrives after the call. */
  function FirstFor(instance: string, es: seq<Event>, k: nat): Option<PatternMessage> {
    if es == [] then None
    else
      var before := es[..|es| - 1];
      var e := es[|es| - 1];
      var first := FirstFor(instance, before, k);
      if first.Some? then first
      else if e.Arrive? && k < Sends(before) && e.msg.correlationId == CorrelationId(instance, k + 1) then Some(e.msg)
      else None
  }

  /** One step moves each caller's answer as the specification does. */
  lemma AnswerStep(instance: string, c: Connection, e: Event, k: nat)
    requires Inv(instance, c) && Enabled(c, e) && k < |Step(instance, c, e).waiters|
    ensures Answer(Step(instance, c, e).waiters[k]) ==
            if k >= |c.waiters| then None
            else if Answer(c.waiters[k]).Some? then Answer(c.waiters[k])
            else if e.Arrive? && e.msg.correlationId == CorrelationId(instance, k + 1) then Some(e.msg)
            else None
  {
    if k < |c.waiters| {
      assert WaiterOk(instance, c, k);
      if e.Arrive? && e.msg.correlationId in c.pending {
        var target := c.pending[e.msg.correlationId];
        assert WaiterOk(instance, c, target);
        if e.msg.correlationId == CorrelationId(instance, k + 1) {
          IdsNeverRepeat(instance, k + 1, target + 1);
        }
      }
    }
  }

  lemma {:induction false} NobodyYet(instance: string, es: seq<Event>, k: nat)
    requires k >= Sends(es)
    ensures FirstFor(instance, es, k) == None
  {
    if es != [] {
      NobodyYet(instance, es[..|es| - 1], k);
    }
  }

  /**
  Over every interleaving, with duplicates, unknown ids and unsolicited messages: the k-th caller gets the
  first message bearing its id that arrives after its call, and nothing else.
  */
  lemma {:induction false} CallersGetTheirFirst(instance: string, es: seq<Event>, k: nat)
    requires IsRun(instance, es) && k < |Exec(instance, es).waiters|
    ensures |Exec(instance, es).waiters| == Sends(es)
    ensures Answer(Exec(instance, es).waiters[k]) == FirstFor(instance, es, k)
  {
    if es != [] {
      var before, e := es[..|es| - 1], es[|es| - 1];
      var c := Exec(instance, before);
      RunKeeps(instance, before);
      SendsCount(instance, before);
      SendsCount(instance, es);
      AnswerStep(instance, c, e, k);
      if k < |c.waiters| {
        CallersGetTheirFirst(instance, before, k);
      } else {
        NobodyYet(instance, before, k);
      }
    }
  }

  lemma {:induction false} SendsCount(instance: string, es: seq<Event>)
    requires IsRun(instance, es)
    ensures |Exec(instance, es).waiters| == Sends(es)
  {
    if es != [] {
      SendsCount(instance, es[..|es| - 1]);
    }
  }
}

/** The connection object: channels are shared between a caller and the pending map. */
module PatternConnections {
  import opened Wrappers
  import opened Correlation

  class ResponseChannel {
    const id: string
    var buffer: seq<PatternMessage>
    /** What the caller took out. */
    ghost var taken: Option<PatternMessage>

    constructor (id: string)
      ensures this.id == id && buffer == [] && taken == None
    {
      this.id, buffer, taken := id, [], None;
    }

    ghost function Value(): Waiter
      reads this
    {
      Waiter(id, buffer, taken)
    }
  }

  class PatternConnection {
    const instanceId: string
    var nextCorrelationId: nat
    var pendingResponses: map<string, ResponseChannel>
    ghost var channels: seq<ResponseChannel>
    /** The registered calls, in the order of their registration. */
    ghost var value: Connection

    ghost predicate Valid()
      reads this, channels
    {
      && nextCorrelationId == value.nextId
      && Shows(channels, value.waiters)
      && (forall i, j | 0 <= i < j < |channels| :: channels[i] != channels[j])
      && Pending()
      && Inv(instanceId, value)
    }

    /** The map holds the channel of the call that the identifier belongs to. */
    ghost predicate Pending()
      reads this
    {
      && (forall id :: id in pendingResponses <==> id in value.pending)
      && (forall id | id in value.pending ::
            value.pending[id] < |channels| && pendingResponses[id] == channels[value.pending[id]])
    }

    static ghost predicate Shows(channels: seq<ResponseChannel>, waiters: seq<Waiter>)
      reads channels
    {
      |channels| == |waiters| && forall k | 0 <= k < |channels| :: channels[k].Value() == waiters[k]
    }

    constructor (instanceId: string)
      ensures Valid() && this.instanceId == instanceId && value == Fresh
    {
      this.instanceId, nextCorrelationId, pendingResponses, channels, value := instanceId, 0, map[], [], Fresh;
    }

    /** The locked section of SendCommand. */
    method Register() returns (channel: ResponseChannel)
      requires Valid()
      modifies this
      ensures Valid() && value == Correlation.Register(instanceId, old(value))
      ensures fresh(channel) && channels == old(channels) + [channel]
    {
      RegisterKeeps(instanceId, value);
      nextCorrelationId := nextCorrelationId + 1;
      var id := CorrelationId(instanceId, nextCorrelationId);
      channel := new ResponseChannel(id);
      pendingResponses := pendingResponses[id := channel];
      channels := channels + [channel];
      value := Correlation.Register(instanceId, value);
    }

    /** The locked section of the receive loop. */
    method Route(msg: PatternMessage)
      requires Valid()
      modifies this, channels
      ensures Valid() && value == Correlation.Route(old(value), msg) && channels == old(channels)
    {
      RouteKeeps(instanceId, value, msg);
      if msg.correlationId in pendingResponses {
        var channel := pendingResponses[msg.correlationId];
        channel.buffer := channel.buffer + [msg];
        pendingResponses := pendingResponses - {msg.correlationId};
        value := Correlation.Route(value, msg);
      }
    }

    /** The caller takes the response out of its channel. */
    method Receive(channel: ResponseChannel, ghost k: nat) returns (msg: PatternMessage)
      requires Valid() && k < |channels| && channels[k] == channel && CanReturn(value, k)
      modifies `value, channel
      ensures Valid() && value == Take(old(value), k) && channels == old(channels)
      ensures msg.correlationId == channel.id
    {
      TakeKeeps(instanceId, value, k);
      assert WaiterOk(instanceId, value, k);
      msg := channel.buffer[0];
      channel.buffer := channel.buffer[1..];
      channel.taken := Some(msg);
      value := Take(value, k);
    }
  }
}
