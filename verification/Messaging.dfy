/** The producer and the consumer as objects, proved against ClaimCheck, Dedup and Retry. */
module Messaging {
  import opened Wrappers
  import opened ClaimCheck
  import Dedup
  import Retry

  datatype PublishResult = Published | Duplicate | NotRunning | CheckFailed | PublishFailed

  class Producer {
    const codec: Codec
    const cfg: Config
    const utf8: string -> Bytes
    const deduplication: bool
    const hasStateStore: bool
    const window: int
    var running: bool
    var objects: Objects
    var sink: seq<Sent>
    var published: nat
    var failed: nat
    var deduped: nat
    var seen: Dedup.Store

    constructor (codec: Codec, cfg: Config, utf8: string -> Bytes, deduplication: bool, hasStateStore: bool,
                 window: int)
      ensures this.codec == codec && this.cfg == cfg && this.utf8 == utf8 && this.deduplication == deduplication
      ensures this.hasStateStore == hasStateStore && this.window == window
      ensures !running && deduped == 0 && seen == map[] && Value() == Empty
    {
      this.codec, this.cfg, this.utf8, this.deduplication := codec, cfg, utf8, deduplication;
      this.hasStateStore, this.window := hasStateStore, window;
      running, objects, sink, published, failed, deduped, seen := false, map[], [], 0, 0, 0, map[];
    }

    ghost function Value(): World
      reads this
    {
      World(objects, sink, published, failed)
    }

    /** Uploads the payload and returns what to send instead; fails without effect when the upload does. */
    method CreateClaimCheck(p: Publish) returns (r: Option<Envelope>)
      requires UsesClaim(cfg, p.msg.payload)
      modifies `objects
      ensures objects == PutObject(codec, cfg, old(objects), p)
      ensures r == if p.putOk then Some(Wrap(codec, cfg, p)) else None
    {
      var packed := Pack(codec, cfg.claimCheck.value.compression, p.msg.payload);
      if !p.putOk {
        return None;
      }
      objects := objects[ObjectOf(cfg, p) := packed.data];
      r := Some(Envelope(codec.marshal(ClaimOf(codec, cfg, p)), p.msg.metadata[CLAIM_KEY := "true"]));
    }

    /** Offers the message until the sink takes it, at most MaxRetries + 1 times. */
    method Send(p: Publish, e: Envelope) returns (ok: bool)
      modifies `sink
      ensures ok <==> Accepted(cfg, p)
      ensures sink == if ok then old(sink) + [Sent(p.msg.topic, e)] else old(sink)
    {
      var attempt: nat := 0;
      while attempt <= cfg.maxRetries
        invariant attempt <= cfg.maxRetries + 1 && sink == old(sink)
        invariant forall a: nat :: a < attempt ==> !p.accepts(a)
      {
        if p.accepts(attempt) {
          sink := sink + [Sent(p.msg.topic, e)];
          return true;
        }
        attempt := attempt + 1;
      }
      ok := false;
    }

    method PublishMessage(p: Publish) returns (ok: bool)
      modifies `objects, `sink, `published, `failed
      ensures Value() == After(codec, cfg, old(Value()), p) && (ok <==> Delivered(cfg, p))
    {
      var e := Envelope(p.msg.payload, p.msg.metadata);
      if UsesClaim(cfg, p.msg.payload) {
        var claim := CreateClaimCheck(p);
        if claim.None? {
          return false;
        }
        e := claim.value;
      }
      ok := Send(p, e);
      if ok {
        published := published + 1;
      } else {
        failed := failed + 1;
      }
    }

    /** No result when the state store cannot be read. */
    method IsDuplicate(id: string, now: int, readOk: bool) returns (dup: Option<bool>)
      modifies `seen
      ensures dup == (if !hasStateStore then Some(false)
                      else if readOk then Some(Dedup.IsDuplicate(window, old(seen), id, now))
                      else None)
      ensures seen == if hasStateStore && readOk then Dedup.Purged(old(seen), id, now) else old(seen)
    {
      if !hasStateStore {
        return Some(false);
      }
      if !readOk {
        return None;
      }
      if id in seen && Dedup.Expired(seen[id], now) {
        seen := seen - {id};
      }
      dup := Some(id in seen && now - seen[id].ts < window);
    }

    /** The id a message is filtered by: its own, or a hash of topic and payload. */
    function EffectiveId(m: Message, id: string): string {
      if id == "" && deduplication then codec.sha(utf8(m.topic) + m.payload) else id
    }

    /** The message is filtered. */
    predicate Filters(c: Call) {
      deduplication && hasStateStore && EffectiveId(c.publish.msg, c.id) != ""
    }

    ghost function AttemptOf(c: Call): Dedup.Attempt {
      Dedup.Attempt(EffectiveId(c.publish.msg, c.id), c.sweep, c.check, c.readOk, Delivered(cfg, c.publish), c.ts,
                    c.stored, c.writeOk)
    }

    /** The call gets past the filter. */
    ghost predicate Admitted(store: Dedup.Store, c: Call) {
      Filters(c) ==> c.readOk && !Dedup.Finds(window, store, AttemptOf(c))
    }

    /** The filter and the publish together: a duplicate changes nothing but a counter. */
    method PublishWithID(c: Call) returns (r: PublishResult)
      modifies `objects, `sink, `published, `failed, `deduped, `seen
      ensures !running ==> r == NotRunning && Value() == old(Value()) && seen == old(seen)
      ensures running && !Admitted(old(seen), c) ==>
                Value() == old(Value()) && r == (if c.readOk then Duplicate else CheckFailed)
      ensures running && Admitted(old(seen), c) ==>
                Value() == After(codec, cfg, old(Value()), c.publish) &&
                r == (if Delivered(cfg, c.publish) then Published else PublishFailed)
      ensures running ==>
                seen == if Filters(c) then Dedup.Attempted(window, old(seen), AttemptOf(c)) else old(seen)
      ensures deduped == old(deduped) + if r == Duplicate then 1 else 0
    {
      if !running {
        return NotRunning;
      }
      var key := EffectiveId(c.publish.msg, c.id);
      if key != "" && deduplication {
        var dup := IsDuplicate(key, c.check, c.readOk);
        if dup.None? {
          return CheckFailed;
        }
        if dup.value {
          deduped := deduped + 1;
          return Duplicate;
        }
      }
      var ok := PublishMessage(c.publish);
      if ok && key != "" && deduplication && hasStateStore && c.writeOk {
        seen := seen[key := Dedup.Record(c.ts, Dedup.Expiry(window, c.stored))];
      }
      r := if ok then Published else PublishFailed;
    }

    /** The same seen from the filter alone. */
    method PublishFiltered(c: Call) returns (r: PublishResult)
      requires running && Filters(c)
      modifies `objects, `sink, `published, `failed, `deduped, `seen
      ensures var a := AttemptOf(c);
              && seen == Dedup.Attempted(window, old(seen), a)
              && (r == Duplicate <==> Dedup.Finds(window, old(seen), a))
              && (r == Published <==> Dedup.Passes(window, old(seen), a))
    {
      r := PublishWithID(c);
    }
  }

  /**
  A call of PublishWithID: the store's last sweep before it, the times at which it checks, records and stores, and
  whether the state store can be read and written.
  */
  datatype Call = Call(
    publish: Publish, id: string, sweep: Option<int>, check: int, readOk: bool, ts: int, stored: int, writeOk: bool)

  ghost function Attempts(producer: Producer, calls: seq<Call>): (run: seq<Dedup.Attempt>)
    ensures |run| == |calls| && forall i | 0 <= i < |calls| :: run[i] == producer.AttemptOf(calls[i])
  {
    seq(|calls|, i requires 0 <= i < |calls| => producer.AttemptOf(calls[i]))
  }

  /** The caller is told that attempt j was skipped, or that it was sent, exactly when it was. */
  predicate ResultOf(window: int, run: seq<Dedup.Attempt>, j: nat, r: PublishResult)
    requires j < |run|
  {
    && (r == Duplicate <==> Dedup.Skipped(window, run, j))
    && (r == Published <==> Dedup.Sends(window, run, j))
  }

  // ----- Which messages are taken to be the same -----

  /** What a message without an id is known by. */
  function Content(producer: Producer, c: Call): Bytes {
    producer.utf8(c.publish.msg.topic) + c.publish.msg.payload
  }

  /** Two calls publish the same message: one id, or, without ids, topics and payloads that read the same. */
  predicate SameMessage(producer: Producer, c: Call, d: Call) {
    if c.id == "" && d.id == "" then Content(producer, c) == Content(producer, d)
    else if c.id == "" then d.id == producer.codec.sha(Content(producer, c))
    else if d.id == "" then c.id == producer.codec.sha(Content(producer, d))
    else c.id == d.id
  }

  /** The hash tells the contents of the calls apart. */
  ghost predicate HashesDiffer(producer: Producer, calls: seq<Call>) {
    forall c, d | c in calls && d in calls :: HashDiffers(producer.codec, Content(producer, c), Content(producer, d))
  }

  predicate HashDiffers(codec: Codec, x: Bytes, y: Bytes) {
    codec.sha(x) == codec.sha(y) ==> x == y
  }

  /** The filter takes two calls for the same message exactly if they publish the same message. */
  lemma SameIdExactly(producer: Producer, c: Call, d: Call)
    requires producer.deduplication && HashDiffers(producer.codec, Content(producer, c), Content(producer, d))
    ensures producer.AttemptOf(c).id == producer.AttemptOf(d).id <==> SameMessage(producer, c, d)
  {
  }

  /** A topic and a payload are not told apart: "ab" with "c" is "a" with "bc". */
  lemma TopicRunsIntoPayload(producer: Producer, c: Call, d: Call, a: string, b: string)
    requires producer.deduplication && c.id == "" && d.id == ""
    requires producer.utf8(a + b) == producer.utf8(a) + producer.utf8(b)
    requires c.publish.msg.topic == a + b && d.publish.msg.topic == a
    requires d.publish.msg.payload == producer.utf8(b) + c.publish.msg.payload
    ensures producer.AttemptOf(c).id == producer.AttemptOf(d).id
  {
    assert Content(producer, c) == Content(producer, d);
  }

  /** Call j publishes again what an earlier call has published and recorded within the window, and is found out. */
  ghost predicate Repeats(producer: Producer, calls: seq<Call>, j: nat)
    requires j < |calls|
  {
    calls[j].readOk && exists i: nat :: i < j && RepeatOf(producer, calls, i, j)
  }

  ghost predicate RepeatOf(producer: Producer, calls: seq<Call>, i: nat, j: nat)
    requires i < j < |calls|
  {
    && SameMessage(producer, calls[i], calls[j]) && calls[j].check - calls[i].ts < producer.window
    && Dedup.Records(producer.window, Attempts(producer, calls), i)
  }

  lemma SkippedExactly(producer: Producer, calls: seq<Call>, j: nat)
    requires producer.deduplication && Dedup.Honoured(producer.window) && Dedup.Timed(Attempts(producer, calls))
    requires HashesDiffer(producer, calls) && j < |calls|
    ensures Dedup.Skipped(producer.window, Attempts(producer, calls), j) <==> Repeats(producer, calls, j)
  {
    var run := Attempts(producer, calls);
    Dedup.SkippedExactly(producer.window, run, j);
    forall i: nat | i < j
      ensures Dedup.RecentAs(producer.window, run, i, j) <==> RepeatOf(producer, calls, i, j)
    {
      assert calls[i] in calls && calls[j] in calls;
      SameIdExactly(producer, calls[i], calls[j]);
    }
  }

  /** A sequence of calls on a fresh filter: who is skipped and who reaches the sink is what Dedup says of the run. */
  method PublishAll(producer: Producer, calls: seq<Call>) returns (results: seq<PublishResult>)
    requires producer.running && producer.seen == map[]
    requires forall i | 0 <= i < |calls| :: producer.Filters(calls[i])
    modifies producer
    ensures |results| == |calls|
    ensures forall j: nat | j < |calls| :: ResultOf(producer.window, Attempts(producer, calls), j, results[j])
    ensures Dedup.Honoured(producer.window) && Dedup.Timed(Attempts(producer, calls)) ==>
              HashesDiffer(producer, calls) ==>
              forall j: nat | j < |calls| :: results[j] == Duplicate <==> Repeats(producer, calls, j)
  {
    results := [];
    ghost var run := Attempts(producer, calls);
    for i := 0 to |calls|
      invariant producer.running && |results| == i
      invariant producer.seen == Dedup.StoreAfter(producer.window, run[..i])
      invariant forall j: nat | j < i :: ResultOf(producer.window, run, j, results[j])
    {
      var c := calls[i];
      Dedup.StoreNext(producer.window, run, i);
      producer.seen := Dedup.Swept(producer.seen, c.sweep);
      var r := producer.PublishFiltered(c);
      assert ResultOf(producer.window, run, i, r);
      results := results + [r];
    }
    if Dedup.Honoured(producer.window) && Dedup.Timed(run) && HashesDiffer(producer, calls) {
      forall j: nat | j < |calls| ensures results[j] == Duplicate <==> Repeats(producer, calls, j) {
        SkippedExactly(producer, calls, j);
      }
    }
  }

  class PubSubMessage {
    const id: string
    var payload: Bytes
    var metadata: Metadata

    constructor (id: string, e: Envelope)
      ensures this.id == id && Value() == e
    {
      this.id, payload, metadata := id, e.payload, e.metadata;
    }

    function Value(): Envelope
      reads this
    {
      Envelope(payload, metadata)
    }
  }

  /**
  A message that arrives: what the object store holds when it is resolved, what the processor makes of it, and
  whether the state store and the dead-letter queue take what follows.
  */
  datatype Received = Received(
    id: string, envelope: Envelope, objects: Objects, accepted: bool, saveOk: bool, letterOk: bool)

  class Consumer {
    const codec: Codec
    const hasObjectStore: bool
    const deleteAfterRead: bool
    const settings: Retry.Settings
    const hasDeadLetter: bool
    var state: Retry.ConsumerState
    var saved: Retry.ConsumerState
    var deadLetters: seq<Envelope>
    var deletions: seq<ObjectId>   // goroutines started to delete what has been read

    constructor (codec: Codec, hasObjectStore: bool, deleteAfterRead: bool, settings: Retry.Settings,
                 hasDeadLetter: bool, loaded: Retry.ConsumerState)
      ensures this.codec == codec && this.hasObjectStore == hasObjectStore && this.deleteAfterRead == deleteAfterRead
      ensures this.settings == settings && this.hasDeadLetter == hasDeadLetter
      ensures state == saved == loaded && deadLetters == [] && deletions == []
    {
      this.codec, this.hasObjectStore, this.deleteAfterRead := codec, hasObjectStore, deleteAfterRead;
      this.settings, this.hasDeadLetter := settings, hasDeadLetter;
      state, saved, deadLetters, deletions := loaded, loaded, [], [];
    }

    /** The store as the consumer sees it. */
    function Seen(objects: Objects): Option<Objects> {
      if hasObjectStore then Some(objects) else None
    }

    /** What a successful redemption has deleted, if so configured. */
    function Deletes(objects: Objects, e: Envelope): seq<ObjectId> {
      if deleteAfterRead && Resolve(codec, Seen(objects), e).Success? then [ClaimedObject(codec, e)] else []
    }

    /** Rewrites the message in place, or leaves it alone and says why. */
    method ResolveClaimCheck(msg: PubSubMessage, objects: Objects) returns (err: Option<ResolveError>)
      modifies msg, `deletions
      ensures Resolve(codec, Seen(objects), old(msg.Value())) ==
              (if err.None? then Success(msg.Value()) else Failure(err.value))
      ensures err.Some? ==> msg.Value() == old(msg.Value())
      ensures deletions == old(deletions) + Deletes(objects, old(msg.Value()))
    {
      if !hasObjectStore {
        return Some(NoObjectStore);
      }
      var claim := codec.unmarshal(msg.payload);
      if claim.None? {
        return Some(InvalidClaim);
      }
      var id := ObjectId(claim.value.bucket, claim.value.objectKey);
      if id !in objects {
        return Some(MissingObject);
      }
      var data := Unpack(codec, claim.value.compression, objects[id]);
      if data.None? {
        return Some(CannotDecompress);
      }
      if codec.sha(data.value) != claim.value.checksum {
        return Some(ChecksumMismatch);
      }
      msg.payload := data.value;
      if claim.value.contentType != "" {
        msg.metadata := msg.metadata[CONTENT_TYPE := claim.value.contentType];
      }
      msg.metadata := msg.metadata - {CLAIM_KEY};
      if deleteAfterRead {
        deletions := deletions + [id];
      }
      err := None;
    }

    /** What handling a message comes to. */
    function OutcomeOf(m: Received): Retry.Outcome {
      Retry.Outcome(m.id, Deliver(codec, Seen(m.objects), m.envelope).Success? && m.accepted, m.saveOk)
    }

    /** The message as it is after the attempt: rewritten if its claim was redeemed. */
    function Rewritten(m: Received): Envelope {
      var d := Deliver(codec, Seen(m.objects), m.envelope);
      if d.Success? then d.value else m.envelope
    }

    function DeletesFor(m: Received): seq<ObjectId> {
      if Get(m.envelope.metadata, CLAIM_KEY) == "true" then Deletes(m.objects, m.envelope) else []
    }

    method ProcessMessage(msg: PubSubMessage, m: Received) returns (ok: bool)
      requires msg.id == m.id && msg.Value() == m.envelope
      modifies msg, `deletions
      ensures ok == OutcomeOf(m).ok
      ensures msg.Value() == Rewritten(m) && deletions == old(deletions) + DeletesFor(m)
    {
      if Get(msg.metadata, CLAIM_KEY) == "true" {
        var err := ResolveClaimCheck(msg, m.objects);
        if err.Some? {
          return false;
        }
      }
      ok := m.accepted;
    }

    method Handle(m: Received)
      modifies this
      ensures state == Retry.Next(settings, old(state), OutcomeOf(m))
      ensures saved == Retry.NextSaved(settings, old(saved), old(state), OutcomeOf(m))
      ensures deadLetters == WithLetter(old(deadLetters), old(state), m)
      ensures deletions == old(deletions) + DeletesFor(m)
    {
      var msg := new PubSubMessage(m.id, m.envelope);
      var ok := ProcessMessage(msg, m);
      if !ok {
        if state.retryCount < settings.maxRetries {
          state := state.(retryCount := state.retryCount + 1);
          if m.saveOk {
            saved := state;
          }
        } else {
          if hasDeadLetter && m.letterOk {
            deadLetters := deadLetters + [msg.Value()];
          }
          state := state.(retryCount := 0);
        }
      } else {
        state := Retry.ConsumerState(state.offset + 1, msg.id, 0);
        if settings.autoCommit && m.saveOk {
          saved := state;
        }
      }
    }

    function Outcomes(ms: seq<Received>): (os: seq<Retry.Outcome>)
      ensures |os| == |ms| && forall i | 0 <= i < |ms| :: os[i] == OutcomeOf(ms[i])
    {
      seq(|ms|, i requires 0 <= i < |ms| => OutcomeOf(ms[i]))
    }

    /** The dead-letter queue after the messages: each one given up on is appended as it then is. */
    function LettersAfter(was: seq<Envelope>, st: Retry.ConsumerState, ms: seq<Received>): seq<Envelope> {
      if ms == [] then was
      else
        var k := |ms| - 1;
        WithLetter(LettersAfter(was, st, ms[..k]), Retry.After(settings, st, Outcomes(ms[..k])), ms[k])
    }

    /** The objects that are to be deleted after the messages. */
    function DeletesOver(ms: seq<Received>): seq<ObjectId> {
      if ms == [] then [] else DeletesOver(ms[..|ms| - 1]) + DeletesFor(ms[|ms| - 1])
    }

    function WithLetter(letters: seq<Envelope>, st: Retry.ConsumerState, m: Received): seq<Envelope> {
      if hasDeadLetter && m.letterOk && Retry.DeadLetters(settings, st, OutcomeOf(m)) then letters + [Rewritten(m)]
      else letters
    }

    /** What one more message adds. */
    lemma OneMore(ms: seq<Received>, i: nat, st: Retry.ConsumerState, saved0: Retry.ConsumerState,
                  letters0: seq<Envelope>)
      requires i < |ms|
      ensures var before, o := Outcomes(ms[..i]), OutcomeOf(ms[i]);
              var now := Retry.After(settings, st, before);
              && Retry.After(settings, st, Outcomes(ms[..i + 1])) == Retry.Next(settings, now, o)
              && Retry.SavedAfter(settings, saved0, st, Outcomes(ms[..i + 1])) ==
                 Retry.NextSaved(settings, Retry.SavedAfter(settings, saved0, st, before), now, o)
              && LettersAfter(letters0, st, ms[..i + 1]) == WithLetter(LettersAfter(letters0, st, ms[..i]), now, ms[i])
              && DeletesOver(ms[..i + 1]) == DeletesOver(ms[..i]) + DeletesFor(ms[i])
    {
      assert ms[..i + 1][..i] == ms[..i];
      assert Outcomes(ms[..i + 1])[..i] == Outcomes(ms[..i]);
    }

    /** The consume loop over the messages that arrive. */
    method Consume(ms: seq<Received>)
      modifies this
      ensures state == Retry.After(settings, old(state), Outcomes(ms))
      ensures saved == Retry.SavedAfter(settings, old(saved), old(state), Outcomes(ms))
      ensures deadLetters == LettersAfter(old(deadLetters), old(state), ms)
      ensures deletions == old(deletions) + DeletesOver(ms)
    {
      for i := 0 to |ms|
        invariant state == Retry.After(settings, old(state), Outcomes(ms[..i]))
        invariant saved == Retry.SavedAfter(settings, old(saved), old(state), Outcomes(ms[..i]))
        invariant deadLetters == LettersAfter(old(deadLetters), old(state), ms[..i])
        invariant deletions == old(deletions) + DeletesOver(ms[..i])
      {
        OneMore(ms, i, old(state), old(saved), old(deadLetters));
        Handle(ms[i]);
      }
      assert ms[..|ms|] == ms;
    }

    // ----- Lost messages -----

    /** Message j is given up on, and the dead-letter queue takes it. */
    predicate Kept(st: Retry.ConsumerState, ms: seq<Received>, j: nat)
      requires j < |ms|
    {
      && hasDeadLetter && ms[j].letterOk
      && Retry.DeadLetters(settings, Retry.After(settings, st, Outcomes(ms[..j])), OutcomeOf(ms[j]))
    }

    /** Which of the messages end up in the dead-letter queue. */
    function InQueue(st: Retry.ConsumerState, ms: seq<Received>): (js: seq<nat>)
      ensures forall i, k | 0 <= i < k < |js| :: js[i] < js[k]
      ensures forall i | 0 <= i < |js| :: js[i] < |ms|
    {
      if ms == [] then []
      else
        var k := |ms| - 1;
        var before := InQueue(st, ms[..k]);
        if Kept(st, ms, k) then before + [k] else before
    }

    function LettersOf(ms: seq<Received>, js: seq<nat>): (letters: seq<Envelope>)
      requires forall i | 0 <= i < |js| :: js[i] < |ms|
      ensures |letters| == |js| && forall i | 0 <= i < |js| :: letters[i] == Rewritten(ms[js[i]])
    {
      seq(|js|, i requires 0 <= i < |js| => Rewritten(ms[js[i]]))
    }

    lemma {:induction false} KeptIsInQueue(st: Retry.ConsumerState, ms: seq<Received>, j: nat)
      requires j < |ms|
      ensures j in InQueue(st, ms) <==> Kept(st, ms, j)
    {
      var k := |ms| - 1;
      if j < k {
        KeptIsInQueue(st, ms[..k], j);
        assert ms[..k][..j] == ms[..j];
      }
    }

    /** The queue gets those messages, in order and as they then are, and no others. */
    lemma {:induction false} QueueHolds(was: seq<Envelope>, st: Retry.ConsumerState, ms: seq<Received>)
      ensures LettersAfter(was, st, ms) == was + LettersOf(ms, InQueue(st, ms))
    {
      if ms != [] {
        var k := |ms| - 1;
        QueueHolds(was, st, ms[..k]);
        assert LettersOf(ms, InQueue(st, ms[..k])) == LettersOf(ms[..k], InQueue(st, ms[..k]));
      }
    }

    /** A letter holds what the processor was given, or the message as it came if its claim could not be redeemed. */
    lemma LettersExactly(was: seq<Envelope>, st: Retry.ConsumerState, ms: seq<Received>, i: nat)
      requires i < |InQueue(st, ms)|
      ensures |LettersAfter(was, st, ms)| == |was| + |InQueue(st, ms)|
      ensures var m := ms[InQueue(st, ms)[i]];
        LettersAfter(was, st, ms)[|was| + i] ==
        match Deliver(codec, if hasObjectStore then Some(m.objects) else None, m.envelope)
        case Success(e) => e
        case Failure(_) => m.envelope
    {
      QueueHolds(was, st, ms);
    }

    /** Message j failed, the loop has gone on to the next one, and the dead-letter queue does not have it. */
    predicate Lost(st: Retry.ConsumerState, ms: seq<Received>, j: nat)
      requires j < |ms|
    {
      !OutcomeOf(ms[j]).ok && j !in InQueue(st, ms)
    }

    /**
    A failed message is lost exactly if the failures in a row up to it are not a multiple of MaxRetries + 1, or there
    is no dead-letter queue, or the queue refuses it.
    */
    lemma LostExactly(st: Retry.ConsumerState, ms: seq<Received>, j: nat)
      requires j < |ms|
      ensures Lost(st, ms, j) <==>
              && !OutcomeOf(ms[j]).ok
              && (|| Retry.Trailing(Retry.Carried(settings, st), Outcomes(ms[..j + 1])) % (settings.maxRetries + 1) != 0
                  || !hasDeadLetter
                  || !ms[j].letterOk)
    {
      KeptIsInQueue(st, ms, j);
      assert Outcomes(ms[..j + 1])[..j] == Outcomes(ms[..j]);
      Retry.DeadLettersExactly(settings, st, Outcomes(ms[..j + 1]), j);
      assert Outcomes(ms[..j + 1])[..j + 1] == Outcomes(ms[..j + 1]);
    }

    /** The queue refuses no message, or may refuse some. */
    ghost predicate Allowed(refuses: bool, ms: seq<Received>) {
      refuses || forall m | m in ms :: m.letterOk
    }

    /** No failed message is ever lost exactly if there are no retries and a queue that takes every letter. */
    lemma NothingLostExactly(refuses: bool)
      ensures (forall st, ms, j: nat :: j < |ms| && Allowed(refuses, ms) ==> !Lost(st, ms, j)) <==>
              settings.maxRetries == 0 && hasDeadLetter && !refuses
    {
      if settings.maxRetries == 0 && hasDeadLetter && !refuses {
        forall st, ms, j: nat | j < |ms| && Allowed(refuses, ms) ensures !Lost(st, ms, j) {
          assert ms[j] in ms;
          LostExactly(st, ms, j);
        }
      } else {
        var st := Retry.ConsumerState(0, "", 0);
        var bad := Received("m", Envelope([], map[]), map[], false, true, !refuses);
        assert [bad][..0] == [];
        KeptIsInQueue(st, [bad], 0);
        assert Allowed(refuses, [bad]) && Lost(st, [bad], 0);
      }
    }

    /** Without retries, a single failure is lost if there is no queue, or one that refuses it. */
    lemma LostWithoutQueue(was: seq<Envelope>, st: Retry.ConsumerState, m: Received)
      requires settings.maxRetries == 0 && (!hasDeadLetter || !m.letterOk) && !m.accepted
      ensures Lost(st, [m], 0) && LettersAfter(was, st, [m]) == was
    {
      KeptIsInQueue(st, [m], 0);
      QueueHolds(was, st, [m]);
    }
  }
}
