/**
Large payloads travel through an object store: the producer leaves a claim in the message,
the consumer redeems it. Values and theorems; the loops and in-place updates are in Messaging.
*/
module ClaimCheck {
  import opened Wrappers

  newtype Byte = x: int | 0 <= x < 256

  type Bytes = seq<Byte>
  type Metadata = map<string, string>

  const CLAIM_KEY := "prism-claim-check"
  const CONTENT_TYPE := "content-type"

  datatype Claim = Claim(
    claimId: string, bucket: string, objectKey: string, originalSize: int, compression: string, contentType: string,
    checksum: string, expiresAt: int)

  /** SHA-256, gzip and JSON as the code uses them; only compression and decoding can fail. */
  datatype Codec = Codec(
    sha: Bytes -> string, gzip: Bytes -> Option<Bytes>, gunzip: Bytes -> Option<Bytes>,
    marshal: Claim -> Bytes, unmarshal: Bytes -> Option<Claim>)

  /** What the libraries promise. */
  ghost predicate Faithful(codec: Codec) {
    && (forall x :: codec.gzip(x).Some? ==> codec.gunzip(codec.gzip(x).value) == Some(x))
    && (forall c :: codec.unmarshal(codec.marshal(c)) == Some(c))
  }

  datatype ClaimConfig = ClaimConfig(enabled: bool, threshold: int, bucket: string, ttl: int, compression: string)

  datatype Config = Config(name: string, claimCheck: Option<ClaimConfig>, hasObjectStore: bool, maxRetries: nat)

  datatype Message = Message(topic: string, payload: Bytes, metadata: Metadata)

  /** What a message sink carries. */
  datatype Envelope = Envelope(payload: Bytes, metadata: Metadata)

  datatype ObjectId = ObjectId(bucket: string, key: string)

  type Objects = map<ObjectId, Bytes>

  /** Reading a Go map: the empty string for a missing key. */
  function Get(m: Metadata, k: string): string {
    if k in m then m[k] else ""
  }

  // ----- Producer -----

  predicate UsesClaim(cfg: Config, payload: Bytes) {
    cfg.claimCheck.Some? && cfg.claimCheck.value.enabled && cfg.hasObjectStore &&
    |payload| > cfg.claimCheck.value.threshold
  }

  function Compress(codec: Codec, algorithm: string, payload: Bytes): Option<Bytes> {
    if algorithm == "gzip" then codec.gzip(payload) else None
  }

  datatype Packed = Packed(data: Bytes, compression: string)

  /** An algorithm that fails or is not supported leaves the payload uncompressed. */
  function Pack(codec: Codec, algorithm: string, payload: Bytes): Packed {
    if algorithm == "" || algorithm == "none" then Packed(payload, "none")
    else match Compress(codec, algorithm, payload)
      case Some(data) => Packed(data, algorithm)
      case None => Packed(payload, "none")
  }

  function ObjectKey(name: string, topic: string, claimId: string): string {
    name + "/" + topic + "/" + claimId
  }

  /** One publish: the message, the claim id drawn for it, and how the object store and the sink respond. */
  datatype Publish = Publish(msg: Message, claimId: string, putOk: bool, accepts: nat -> bool, now: int)

  function ObjectOf(cfg: Config, p: Publish): ObjectId
    requires cfg.claimCheck.Some?
  {
    ObjectId(cfg.claimCheck.value.bucket, ObjectKey(cfg.name, p.msg.topic, p.claimId))
  }

  function ClaimOf(codec: Codec, cfg: Config, p: Publish): Claim
    requires cfg.claimCheck.Some?
  {
    var cc := cfg.claimCheck.value;
    Claim(p.claimId, cc.bucket, ObjectOf(cfg, p).key, |p.msg.payload|,
          Pack(codec, cc.compression, p.msg.payload).compression, Get(p.msg.metadata, CONTENT_TYPE),
          codec.sha(p.msg.payload), if cc.ttl > 0 then p.now + cc.ttl else 0)
  }

  /** What is handed to the sink. */
  function Wrap(codec: Codec, cfg: Config, p: Publish): Envelope {
    if UsesClaim(cfg, p.msg.payload)
    then Envelope(codec.marshal(ClaimOf(codec, cfg, p)), p.msg.metadata[CLAIM_KEY := "true"])
    else Envelope(p.msg.payload, p.msg.metadata)
  }

  /** The sink takes the message on one of the attempts. */
  ghost predicate Accepted(cfg: Config, p: Publish) {
    exists attempt: nat :: attempt <= cfg.maxRetries && p.accepts(attempt)
  }

  /** The message gets past the object store. */
  predicate Stored(cfg: Config, p: Publish) {
    UsesClaim(cfg, p.msg.payload) ==> p.putOk
  }

  datatype Sent = Sent(topic: string, envelope: Envelope)

  datatype World = World(objects: Objects, sink: seq<Sent>, published: nat, failed: nat)

  const Empty := World(map[], [], 0, 0)

  function PutObject(codec: Codec, cfg: Config, objects: Objects, p: Publish): Objects {
    if UsesClaim(cfg, p.msg.payload) && p.putOk
    then objects[ObjectOf(cfg, p) := Pack(codec, cfg.claimCheck.value.compression, p.msg.payload).data]
    else objects
  }

  ghost function After(codec: Codec, cfg: Config, w: World, p: Publish): World {
    var objects := PutObject(codec, cfg, w.objects, p);
    if !Stored(cfg, p) then w.(objects := objects)
    else if Accepted(cfg, p) then
      World(objects, w.sink + [Sent(p.msg.topic, Wrap(codec, cfg, p))], w.published + 1, w.failed)
    else World(objects, w.sink, w.published, w.failed + 1)
  }

  ghost function Run(codec: Codec, cfg: Config, ps: seq<Publish>): World {
    if ps == [] then Empty else After(codec, cfg, Run(codec, cfg, ps[..|ps| - 1]), ps[|ps| - 1])
  }

  // ----- Consumer -----

  datatype ResolveError = NoObjectStore | InvalidClaim | MissingObject | CannotDecompress | ChecksumMismatch

  function Decompress(codec: Codec, algorithm: string, data: Bytes): Option<Bytes> {
    if algorithm == "gzip" then codec.gunzip(data) else None
  }

  function Unpack(codec: Codec, compression: string, data: Bytes): Option<Bytes> {
    if compression == "none" || compression == "" then Some(data) else Decompress(codec, compression, data)
  }

  function Redeemed(e: Envelope, claim: Claim, data: Bytes): Envelope {
    var typed := if claim.contentType != "" then e.metadata[CONTENT_TYPE := claim.contentType] else e.metadata;
    Envelope(data, typed - {CLAIM_KEY})
  }

  /** The object a message's claim refers to. */
  function ClaimedObject(codec: Codec, e: Envelope): ObjectId {
    match codec.unmarshal(e.payload)
    case Some(claim) => ObjectId(claim.bucket, claim.objectKey)
    case None => ObjectId("", "")
  }

  function Resolve(codec: Codec, objects: Option<Objects>, e: Envelope): Result<Envelope, ResolveError> {
    if objects.None? then Failure(NoObjectStore)
    else match codec.unmarshal(e.payload)
      case None => Failure(InvalidClaim)
      case Some(claim) =>
        var id := ObjectId(claim.bucket, claim.objectKey);
        if id !in objects.value then Failure(MissingObject)
        else match Unpack(codec, claim.compression, objects.value[id])
          case None => Failure(CannotDecompress)
          case Some(data) =>
            if codec.sha(data) != claim.checksum then Failure(ChecksumMismatch) else Success(Redeemed(e, claim, data))
  }

  /** What reaches the processor. */
  function Deliver(codec: Codec, objects: Option<Objects>, e: Envelope): Result<Envelope, ResolveError> {
    if Get(e.metadata, CLAIM_KEY) == "true" then Resolve(codec, objects, e) else Success(e)
  }

  // ----- Round trip of one message -----

  lemma UnpackInvertsPack(codec: Codec, algorithm: string, payload: Bytes)
    requires Faithful(codec)
    ensures var p := Pack(codec, algorithm, payload); Unpack(codec, p.compression, p.data) == Some(payload)
  {
  }

  /** The message does not use the reserved key in a way that gets in the way of its own delivery. */
  predicate Clean(cfg: Config, m: Message) {
    if UsesClaim(cfg, m.payload) then CLAIM_KEY !in m.metadata else Get(m.metadata, CLAIM_KEY) != "true"
  }

  /** The object store holds what this publish put there. */
  predicate Holds(codec: Codec, cfg: Config, objects: Objects, p: Publish) {
    UsesClaim(cfg, p.msg.payload) ==>
      && ObjectOf(cfg, p) in objects
      && objects[ObjectOf(cfg, p)] == Pack(codec, cfg.claimCheck.value.compression, p.msg.payload).data
  }

  lemma ClaimResolves(codec: Codec, cfg: Config, objects: Objects, p: Publish)
    requires Faithful(codec) && UsesClaim(cfg, p.msg.payload) && Holds(codec, cfg, objects, p)
    ensures Deliver(codec, Some(objects), Wrap(codec, cfg, p)) ==
            Success(Redeemed(Wrap(codec, cfg, p), ClaimOf(codec, cfg, p), p.msg.payload))
  {
    var claim := ClaimOf(codec, cfg, p);
    assert codec.unmarshal(codec.marshal(claim)) == Some(claim);
    UnpackInvertsPack(codec, cfg.claimCheck.value.compression, p.msg.payload);
  }

  /** Redeeming keeps the metadata exactly when the reserved key was not in it. */
  lemma RedeemedMetadata(m: Metadata)
    ensures var typed := if Get(m, CONTENT_TYPE) != ""
                         then m[CLAIM_KEY := "true"][CONTENT_TYPE := Get(m, CONTENT_TYPE)]
                         else m[CLAIM_KEY := "true"];
            typed - {CLAIM_KEY} == m <==> CLAIM_KEY !in m
  {
    assert CLAIM_KEY[0] != CONTENT_TYPE[0];
  }

  /** The processor gets the message with the payload and metadata it was published with. */
  predicate Intact(codec: Codec, objects: Objects, e: Envelope, m: Message) {
    Deliver(codec, Some(objects), e) == Success(Envelope(m.payload, m.metadata))
  }

  /** A message whose object is in place is delivered as it was published, exactly when it is clean. */
  lemma DeliveredExactly(codec: Codec, cfg: Config, objects: Objects, p: Publish)
    requires Faithful(codec) && Holds(codec, cfg, objects, p)
    ensures Intact(codec, objects, Wrap(codec, cfg, p), p.msg) <==> Clean(cfg, p.msg)
    ensures UsesClaim(cfg, p.msg.payload) ==>
              Deliver(codec, Some(objects), Wrap(codec, cfg, p)).Success? &&
              Deliver(codec, Some(objects), Wrap(codec, cfg, p)).value.payload == p.msg.payload
  {
    if UsesClaim(cfg, p.msg.payload) {
      ClaimResolves(codec, cfg, objects, p);
      RedeemedMetadata(p.msg.metadata);
    } else if !Clean(cfg, p.msg) {
      ResolvingDropsKey(codec, objects, Wrap(codec, cfg, p));
    }
  }

  lemma ResolvingDropsKey(codec: Codec, objects: Objects, e: Envelope)
    ensures Resolve(codec, Some(objects), e).Success? ==>
              CLAIM_KEY !in Resolve(codec, Some(objects), e).value.metadata
  {
  }

  // ----- Any sequence of publishes -----

  /** UUID strings have one length and are never drawn twice. */
  ghost predicate FreshIds(ps: seq<Publish>) {
    && (forall i | 0 <= i < |ps| :: |ps[i].claimId| == 36)
    && (forall i, j | 0 <= i < j < |ps| :: ps[i].claimId != ps[j].claimId)
  }

  /** Whatever slashes a topic holds, two claims with ids of one length get different keys. */
  lemma KeysDiffer(name: string, t: string, u: string, a: string, b: string)
    requires |a| == |b| && a != b
    ensures ObjectKey(name, t, a) != ObjectKey(name, u, b)
  {
    var x, y := ObjectKey(name, t, a), ObjectKey(name, u, b);
    assert x[|x| - |a|..] == a;
    assert y[|y| - |b|..] == b;
  }

  /** Objects are never overwritten: after any run each successful publish still finds its own. */
  lemma {:induction false} ObjectsStay(codec: Codec, cfg: Config, ps: seq<Publish>, i: nat)
    requires FreshIds(ps) && i < |ps| && Stored(cfg, ps[i])
    ensures Holds(codec, cfg, Run(codec, cfg, ps).objects, ps[i])
  {
    var k := |ps| - 1;
    if i < k {
      var before := ps[..k];
      assert before[i] == ps[i];
      ObjectsStay(codec, cfg, before, i);
      if UsesClaim(cfg, ps[i].msg.payload) {
        KeysDiffer(cfg.name, ps[i].msg.topic, ps[k].msg.topic, ps[i].claimId, ps[k].claimId);
      }
    }
  }

  ghost predicate Delivered(cfg: Config, p: Publish) {
    Stored(cfg, p) && Accepted(cfg, p)
  }

  /** Which publish each message in the sink comes from. */
  ghost function Origins(cfg: Config, ps: seq<Publish>): (os: seq<nat>)
    ensures forall j | 0 <= j < |os| :: os[j] < |ps| && Delivered(cfg, ps[os[j]])
    ensures forall j, k | 0 <= j < k < |os| :: os[j] < os[k]
    ensures forall i: nat | i < |ps| && Delivered(cfg, ps[i]) :: i in os
  {
    if ps == [] then []
    else
      var k := |ps| - 1;
      var os := Origins(cfg, ps[..k]);
      assert forall i: nat | i < k && Delivered(cfg, ps[i]) :: ps[..k][i] == ps[i] && i in os;
      if Delivered(cfg, ps[k]) then os + [k] else os
  }

  /** The sink holds exactly one message for each delivered publish, in publish order. */
  lemma {:induction false} SinkIs(codec: Codec, cfg: Config, ps: seq<Publish>)
    ensures var w, os := Run(codec, cfg, ps), Origins(cfg, ps);
            && |w.sink| == |os| == w.published
            && forall j | 0 <= j < |os| :: w.sink[j] == Sent(ps[os[j]].msg.topic, Wrap(codec, cfg, ps[os[j]]))
  {
    if ps != [] {
      SinkIs(codec, cfg, ps[..|ps| - 1]);
    }
  }

  /**
  After any sequence of publishes, each message in the sink is delivered with the payload and metadata it was
  published with, exactly when it does not misuse the reserved key; and a claim is always redeemed.
  */
  lemma {:induction false} RoundTrip(codec: Codec, cfg: Config, ps: seq<Publish>, j: nat)
    requires Faithful(codec) && FreshIds(ps) && j < |Run(codec, cfg, ps).sink|
    ensures |Origins(cfg, ps)| == |Run(codec, cfg, ps).sink|
    ensures var w, p := Run(codec, cfg, ps), ps[Origins(cfg, ps)[j]];
            && w.sink[j].topic == p.msg.topic
            && (Intact(codec, w.objects, w.sink[j].envelope, p.msg) <==> Clean(cfg, p.msg))
            && (UsesClaim(cfg, p.msg.payload) ==> Deliver(codec, Some(w.objects), w.sink[j].envelope).Success?)
  {
    SinkIs(codec, cfg, ps);
    var i := Origins(cfg, ps)[j];
    ObjectsStay(codec, cfg, ps, i);
    DeliveredExactly(codec, cfg, Run(codec, cfg, ps).objects, ps[i]);
  }

  // ----- Deleting after reading -----

  /** The objects left when those of the publishes in `read` have been deleted. */
  function Remaining(cfg: Config, objects: Objects, ps: seq<Publish>, read: set<nat>): Objects {
    objects - (set i | i in read && i < |ps| && UsesClaim(cfg, ps[i].msg.payload) :: ObjectOf(cfg, ps[i]))
  }

  /** A redeemed claim refers to the object its own publish put there. */
  lemma ClaimedIsOwn(codec: Codec, cfg: Config, p: Publish)
    requires Faithful(codec) && UsesClaim(cfg, p.msg.payload)
    ensures ClaimedObject(codec, Wrap(codec, cfg, p)) == ObjectOf(cfg, p)
  {
    var claim := ClaimOf(codec, cfg, p);
    assert codec.unmarshal(codec.marshal(claim)) == Some(claim);
  }

  /** Deleting other publishes' objects leaves this one's in place. */
  lemma OwnRemains(codec: Codec, cfg: Config, objects: Objects, ps: seq<Publish>, read: set<nat>, i: nat)
    requires FreshIds(ps) && i < |ps| && i !in read && Holds(codec, cfg, objects, ps[i])
    ensures Holds(codec, cfg, Remaining(cfg, objects, ps, read), ps[i])
  {
    forall k | k in read && k < |ps| && UsesClaim(cfg, ps[k].msg.payload)
      ensures UsesClaim(cfg, ps[i].msg.payload) ==> ObjectOf(cfg, ps[k]) != ObjectOf(cfg, ps[i])
    {
      KeysDiffer(cfg.name, ps[i].msg.topic, ps[k].msg.topic, ps[i].claimId, ps[k].claimId);
    }
  }

  lemma OwnIsMissing(codec: Codec, cfg: Config, objects: Objects, ps: seq<Publish>, read: set<nat>, i: nat)
    requires Faithful(codec) && i < |ps| && i in read && UsesClaim(cfg, ps[i].msg.payload)
    ensures Deliver(codec, Some(Remaining(cfg, objects, ps, read)), Wrap(codec, cfg, ps[i])) == Failure(MissingObject)
  {
    var claim := ClaimOf(codec, cfg, ps[i]);
    assert codec.unmarshal(codec.marshal(claim)) == Some(claim);
    assert ObjectOf(cfg, ps[i]) !in Remaining(cfg, objects, ps, read);
  }

  /**
  With delete-after-read, whichever objects have been deleted so far: a message is delivered as it was published
  exactly if it does not misuse the reserved key and its own object, if it has one, has not been read before. A
  second delivery of a redeemed claim fails.
  */
  lemma {:induction false} RoundTripWithDeletes(codec: Codec, cfg: Config, ps: seq<Publish>, read: set<nat>, j: nat)
    requires Faithful(codec) && FreshIds(ps) && j < |Run(codec, cfg, ps).sink|
    ensures |Origins(cfg, ps)| == |Run(codec, cfg, ps).sink|
    ensures var w, i := Run(codec, cfg, ps), Origins(cfg, ps)[j];
            var left := Remaining(cfg, w.objects, ps, read);
            && (Intact(codec, left, w.sink[j].envelope, ps[i].msg) <==>
                Clean(cfg, ps[i].msg) && (UsesClaim(cfg, ps[i].msg.payload) ==> i !in read))
            && (UsesClaim(cfg, ps[i].msg.payload) && i in read ==>
                  Deliver(codec, Some(left), w.sink[j].envelope) == Failure(MissingObject))
  {
    SinkIs(codec, cfg, ps);
    var w, i := Run(codec, cfg, ps), Origins(cfg, ps)[j];
    if UsesClaim(cfg, ps[i].msg.payload) && i in read {
      OwnIsMissing(codec, cfg, w.objects, ps, read, i);
    } else {
      ObjectsStay(codec, cfg, ps, i);
      if i !in read { OwnRemains(codec, cfg, w.objects, ps, read, i); }
      DeliveredExactly(codec, cfg, Remaining(cfg, w.objects, ps, read), ps[i]);
    }
  }
}
