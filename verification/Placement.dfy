/**
Where payloads go: which stay in the message and which go to the object store, what is stored there and what the
claim says, in terms of the configuration and the sizes alone; and that nothing but the published payload is ever
delivered for a claim.
*/
module Placement {
  import opened Wrappers
  import opened ClaimCheck

  /** Claim checks are on, there is an object store, and the payload is over the threshold. */
  predicate Large(cfg: Config, payload: Bytes) {
    match cfg.claimCheck
    case None => false
    case Some(cc) => cc.enabled && cfg.hasObjectStore && cc.threshold < |payload|
  }

  /** The payload as it is stored: compressed if gzip is asked for and works. */
  function StoredAs(codec: Codec, cc: ClaimConfig, payload: Bytes): Bytes {
    if cc.compression == "gzip" && codec.gzip(payload).Some? then codec.gzip(payload).value else payload
  }

  /** The object of a publish: bucket, and producer, topic and claim id with slashes in between. */
  function PlaceOf(cfg: Config, cc: ClaimConfig, p: Publish): ObjectId {
    ObjectId(cc.bucket, cfg.name + "/" + p.msg.topic + "/" + p.claimId)
  }

  /** Publish i uploads to the object. */
  predicate Uploads(cfg: Config, ps: seq<Publish>, i: nat, o: ObjectId) {
    i < |ps| && Large(cfg, ps[i].msg.payload) && ps[i].putOk && o == PlaceOf(cfg, cfg.claimCheck.value, ps[i])
  }

  /** After any sequence of publishes the store holds an object for each large payload that it took, and no other. */
  lemma {:induction false} ObjectsExactly(codec: Codec, cfg: Config, ps: seq<Publish>, o: ObjectId)
    ensures o in Run(codec, cfg, ps).objects <==> exists i: nat :: Uploads(cfg, ps, i, o)
  {
    if ps != [] {
      var k := |ps| - 1;
      ObjectsExactly(codec, cfg, ps[..k], o);
      forall i: nat | i < k ensures Uploads(cfg, ps[..k], i, o) <==> Uploads(cfg, ps, i, o) { }
      if i: nat :| Uploads(cfg, ps, i, o) { assert i == k || Uploads(cfg, ps[..k], i, o); }
      if i: nat :| Uploads(cfg, ps[..k], i, o) { assert Uploads(cfg, ps, i, o); }
      assert Uploads(cfg, ps, k, o) <==>
             UsesClaim(cfg, ps[k].msg.payload) && ps[k].putOk && o == ObjectOf(cfg, ps[k]);
    }
  }

  /** ... and what it holds is the payload, compressed if so configured. */
  lemma {:induction false} ContentsExactly(codec: Codec, cfg: Config, ps: seq<Publish>, i: nat)
    requires FreshIds(ps) && i < |ps| && Large(cfg, ps[i].msg.payload) && ps[i].putOk
    ensures var cc, objects := cfg.claimCheck.value, Run(codec, cfg, ps).objects;
      && PlaceOf(cfg, cc, ps[i]) in objects
      && objects[PlaceOf(cfg, cc, ps[i])] == StoredAs(codec, cc, ps[i].msg.payload)
  {
    ObjectsStay(codec, cfg, ps, i);
  }

  /** A message in the sink holds its payload, or a claim on it, as its size says. */
  ghost predicate Carried(codec: Codec, cfg: Config, e: Envelope, p: Publish) {
    if !Large(cfg, p.msg.payload) then e == Envelope(p.msg.payload, p.msg.metadata)
    else
      var cc, payload := cfg.claimCheck.value, p.msg.payload;
      && codec.unmarshal(e.payload).Some?
      && var claim := codec.unmarshal(e.payload).value;
         && ObjectId(claim.bucket, claim.objectKey) == PlaceOf(cfg, cc, p)
         && claim.claimId == p.claimId && claim.originalSize == |payload| && claim.checksum == codec.sha(payload)
         && (claim.compression == "gzip" <==> cc.compression == "gzip" && codec.gzip(payload).Some?)
         && claim.contentType == (if CONTENT_TYPE in p.msg.metadata then p.msg.metadata[CONTENT_TYPE] else "")
         && (if cc.ttl > 0 then claim.expiresAt == p.now + cc.ttl else claim.expiresAt == 0)
  }

  lemma {:induction false} CarriedExactly(codec: Codec, cfg: Config, ps: seq<Publish>, j: nat)
    requires Faithful(codec) && j < |Run(codec, cfg, ps).sink|
    ensures |Origins(cfg, ps)| == |Run(codec, cfg, ps).sink|
    ensures Carried(codec, cfg, Run(codec, cfg, ps).sink[j].envelope, ps[Origins(cfg, ps)[j]])
  {
    SinkIs(codec, cfg, ps);
    var p := ps[Origins(cfg, ps)[j]];
    if Large(cfg, p.msg.payload) {
      var claim := ClaimOf(codec, cfg, p);
      assert codec.unmarshal(codec.marshal(claim)) == Some(claim);
    }
  }

  /**
  Whatever the object store holds by then: if a claim is redeemed, then for a payload with the published one's hash, so
  for the published payload itself if the hash tells them apart.
  */
  lemma OnlyThePublished(codec: Codec, cfg: Config, objects: Objects, p: Publish)
    requires Faithful(codec) && Large(cfg, p.msg.payload)
    requires Deliver(codec, Some(objects), Wrap(codec, cfg, p)).Success?
    ensures var data := Deliver(codec, Some(objects), Wrap(codec, cfg, p)).value.payload;
      && codec.sha(data) == codec.sha(p.msg.payload)
      && ((forall x | codec.sha(x) == codec.sha(p.msg.payload) :: x == p.msg.payload) ==> data == p.msg.payload)
  {
    var claim := ClaimOf(codec, cfg, p);
    assert codec.unmarshal(codec.marshal(claim)) == Some(claim);
  }

  /** What a claim on the object of publish p comes to when the store holds `found` in its place. */
  function Verdict(codec: Codec, cfg: Config, cc: ClaimConfig, p: Publish, found: Option<Bytes>): Option<ResolveError> {
    if found.None? then Some(MissingObject)
    else
      var zipped := cc.compression == "gzip" && codec.gzip(p.msg.payload).Some?;
      var data := if zipped then codec.gunzip(found.value) else found;
      if data.None? then Some(CannotDecompress)
      else if codec.sha(data.value) != codec.sha(p.msg.payload) then Some(ChecksumMismatch)
      else None
  }

  /** A published claim is redeemed, or rejected with the reason, whatever has become of the object. */
  lemma RejectedExactly(codec: Codec, cfg: Config, objects: Objects, p: Publish)
    requires Faithful(codec) && Large(cfg, p.msg.payload)
    ensures var cc := cfg.claimCheck.value;
      var o := PlaceOf(cfg, cc, p);
      var verdict := Verdict(codec, cfg, cc, p, if o in objects then Some(objects[o]) else None);
      var delivered := Deliver(codec, Some(objects), Wrap(codec, cfg, p));
      if verdict.Some? then delivered == Failure(verdict.value) else delivered.Success?
    ensures Deliver(codec, None, Wrap(codec, cfg, p)) == Failure(NoObjectStore)
  {
    var claim := ClaimOf(codec, cfg, p);
    assert codec.unmarshal(codec.marshal(claim)) == Some(claim);
  }

  /** A message marked as a claim that is none is rejected as such. */
  lemma ForgedIsInvalid(codec: Codec, objects: Objects, e: Envelope)
    requires CLAIM_KEY in e.metadata && e.metadata[CLAIM_KEY] == "true" && codec.unmarshal(e.payload).None?
    ensures Deliver(codec, Some(objects), e) == Failure(InvalidClaim)
  {
  }

  /** A sink that refuses k times and then accepts gets the message exactly if k retries are allowed. */
  lemma RetriesExactly(cfg: Config, p: Publish, k: nat)
    requires (forall a: nat | a < k :: !p.accepts(a)) && p.accepts(k)
    ensures Accepted(cfg, p) <==> k <= cfg.maxRetries
  {
  }

  /** Publishes whose payload the object store refused. */
  function Refused(cfg: Config, ps: seq<Publish>): nat {
    if ps == [] then 0
    else
      var p := ps[|ps| - 1];
      Refused(cfg, ps[..|ps| - 1]) + if Large(cfg, p.msg.payload) && !p.putOk then 1 else 0
  }

  /** Every publish is counted once, as published or as failed, unless the object store refused it. */
  lemma {:induction false} CountersExactly(codec: Codec, cfg: Config, ps: seq<Publish>)
    ensures var w := Run(codec, cfg, ps);
      w.published + w.failed + Refused(cfg, ps) == |ps| && w.published == |w.sink|
  {
    if ps != [] { CountersExactly(codec, cfg, ps[..|ps| - 1]); }
  }
}
