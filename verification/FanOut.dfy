/**
Multicast delivery: one goroutine per target, each retrying on its own, all sending their
result into one channel that is read when everybody is done.
*/
module FanOut {
  datatype Status = Delivered | Failed

  datatype DeliveryResult = DeliveryResult(target: nat, identity: string, status: Status)

  /** The n targets, how often each delivery is retried, and how the messaging backend answers each attempt. */
  datatype Multicast = Multicast(targets: seq<string>, retryAttempts: int, publishes: (nat, nat) -> bool)

  /** A goroutine is about to make an attempt, or has sent the result that is at a position in the channel. */
  datatype Worker = Attempting(attempt: nat) | Done(position: nat)

  datatype State = State(workers: seq<Worker>, channel: seq<DeliveryResult>)

  function Init(m: Multicast): State {
    State(seq(|m.targets|, _ => Attempting(0)), [])
  }

  predicate Enabled(m: Multicast, s: State, i: nat) {
    |s.workers| == |m.targets| && i < |s.workers| && s.workers[i].Attempting?
  }

  /** The channel was made with room for one result per target. */
  predicate Blocks(m: Multicast, s: State) {
    |s.channel| >= |m.targets|
  }

  function Sends(m: Multicast, s: State, i: nat, status: Status): State
    requires Enabled(m, s, i)
  {
    State(s.workers[i := Done(|s.channel|)], s.channel + [DeliveryResult(i, m.targets[i], status)])
  }

  /** One attempt of worker i, or its giving up. */
  function Step(m: Multicast, s: State, i: nat): State
    requires Enabled(m, s, i)
  {
    var attempt := s.workers[i].attempt;
    if attempt > m.retryAttempts then Sends(m, s, i, Failed)
    else if m.publishes(i, attempt) then Sends(m, s, i, Delivered)
    else s.(workers := s.workers[i := Attempting(attempt + 1)])
  }

  // ----- What every step keeps -----

  /** One of the allowed attempts succeeds. */
  ghost predicate Reachable(m: Multicast, i: nat) {
    exists a: nat :: a <= m.retryAttempts && m.publishes(i, a)
  }

  ghost predicate ResultOk(m: Multicast, r: DeliveryResult) {
    && r.target < |m.targets| && r.identity == m.targets[r.target]
    && (r.status == Delivered <==> Reachable(m, r.target))
  }

  ghost predicate WorkerOk(m: Multicast, s: State, i: nat)
    requires i < |s.workers|
  {
    match s.workers[i]
    case Attempting(attempt) => forall a: nat :: a < attempt && a <= m.retryAttempts ==> !m.publishes(i, a)
    case Done(p) => p < |s.channel| && s.channel[p].target == i
  }

  /** Finished workers and results correspond one to one. */
  ghost predicate Inv(m: Multicast, s: State) {
    && |s.workers| == |m.targets|
    && (forall i: nat | i < |s.workers| :: WorkerOk(m, s, i))
    && (forall p: nat | p < |s.channel| ::
          ResultOk(m, s.channel[p]) && s.workers[s.channel[p].target] == Done(p))
  }

  lemma StepKeeps(m: Multicast, s: State, i: nat)
    requires Inv(m, s) && Enabled(m, s, i)
    ensures Inv(m, Step(m, s, i))
  {
    var next := Step(m, s, i);
    assert WorkerOk(m, s, i);
    forall j: nat | j < |next.workers| ensures WorkerOk(m, next, j) {
      assert WorkerOk(m, s, j);
    }
  }

  // ----- Runs -----

  ghost predicate IsRun(m: Multicast, schedule: seq<nat>)
    decreases |schedule|, 0
  {
    schedule == [] ||
    (var k := |schedule| - 1; IsRun(m, schedule[..k]) && Enabled(m, Exec(m, schedule[..k]), schedule[k]))
  }

  ghost function Exec(m: Multicast, schedule: seq<nat>): State
    requires IsRun(m, schedule)
    decreases |schedule|, 1
  {
    if schedule == [] then Init(m)
    else Step(m, Exec(m, schedule[..|schedule| - 1]), schedule[|schedule| - 1])
  }

  lemma {:induction false} RunKeeps(m: Multicast, schedule: seq<nat>)
    requires IsRun(m, schedule)
    ensures Inv(m, Exec(m, schedule))
  {
    if schedule != [] {
      var k := |schedule| - 1;
      RunKeeps(m, schedule[..k]);
      StepKeeps(m, Exec(m, schedule[..k]), schedule[k]);
    }
  }

  // ----- Counting -----

  function Targets(rs: seq<DeliveryResult>): set<nat> {
    set p | 0 <= p < |rs| :: rs[p].target
  }

  ghost predicate OneEach(rs: seq<DeliveryResult>) {
    forall p, q | 0 <= p < q < |rs| :: rs[p].target != rs[q].target
  }

  lemma {:induction false} TargetCount(rs: seq<DeliveryResult>)
    requires OneEach(rs)
    ensures |Targets(rs)| == |rs|
  {
    if rs != [] {
      var k := |rs| - 1;
      TargetCount(rs[..k]);
      assert rs == rs[..k] + [rs[k]];
      assert Targets(rs) == Targets(rs[..k]) + {rs[k].target};
      assert rs[k].target !in Targets(rs[..k]);
    }
  }

  function Below(n: nat): (r: set<nat>)
    ensures |r| == n && forall i: nat :: i in r <==> i < n
  {
    if n == 0 then {} else Below(n - 1) + {n - 1}
  }

  lemma SubsetCount(a: set<nat>, b: set<nat>)
    requires a <= b
    ensures |a| <= |b| && (|a| == |b| ==> a == b)
  {
    assert b == a + (b - a);
  }

  lemma ResultsOneEach(m: Multicast, s: State)
    requires Inv(m, s)
    ensures OneEach(s.channel) && Targets(s.channel) <= Below(|m.targets|)
  {
    forall p, q | 0 <= p < q < |s.channel| ensures s.channel[p].target != s.channel[q].target {
      assert s.workers[s.channel[p].target] == Done(p);
      assert s.workers[s.channel[q].target] == Done(q);
    }
  }

  /** A worker that is still at it finds room in the channel. */
  lemma SendingNeverBlocks(m: Multicast, s: State, i: nat)
    requires Inv(m, s) && Enabled(m, s, i)
    ensures !Blocks(m, s)
  {
    ResultsOneEach(m, s);
    TargetCount(s.channel);
    forall p: nat | p < |s.channel| ensures s.channel[p].target != i {
      assert s.workers[s.channel[p].target] == Done(p);
    }
    assert i in Below(|m.targets|) && i !in Targets(s.channel);
    SubsetCount(Targets(s.channel), Below(|m.targets|));
  }

  ghost predicate AllDone(s: State) {
    forall i: nat | i < |s.workers| :: s.workers[i].Done?
  }

  lemma EveryoneReports(m: Multicast, s: State)
    requires Inv(m, s) && AllDone(s)
    ensures Targets(s.channel) == Below(|m.targets|)
  {
    ResultsOneEach(m, s);
    forall i: nat | i < |m.targets| ensures i in Targets(s.channel) {
      assert WorkerOk(m, s, i);
      assert s.channel[s.workers[i].position].target == i;
    }
  }

  function CountOf(rs: seq<DeliveryResult>, status: Status): nat {
    if rs == [] then 0 else CountOf(rs[..|rs| - 1], status) + if rs[|rs| - 1].status == status then 1 else 0
  }

  lemma {:induction false} CountsAddUp(rs: seq<DeliveryResult>)
    ensures CountOf(rs, Delivered) + CountOf(rs, Failed) == |rs|
  {
    if rs != [] {
      CountsAddUp(rs[..|rs| - 1]);
    }
  }

  /**
  Whatever the interleaving, when all workers are done there is exactly one result per target, it says Delivered
  exactly when one of the allowed attempts succeeds, and the counts add up to the targets.
  */
  lemma {:induction false} OneResultPerTarget(m: Multicast, schedule: seq<nat>)
    requires IsRun(m, schedule) && AllDone(Exec(m, schedule))
    ensures var rs := Exec(m, schedule).channel;
            && |rs| == |m.targets| && OneEach(rs) && Targets(rs) == Below(|m.targets|)
            && (forall p: nat | p < |rs| :: ResultOk(m, rs[p]))
            && CountOf(rs, Delivered) + CountOf(rs, Failed) == |m.targets|
  {
    var s := Exec(m, schedule);
    RunKeeps(m, schedule);
    ResultsOneEach(m, s);
    EveryoneReports(m, s);
    TargetCount(s.channel);
    CountsAddUp(s.channel);
  }

  // ----- Termination -----

  /** The steps worker i still has to make at most. */
  function Left(m: Multicast, w: Worker): nat {
    match w
    case Attempting(a) => if a <= m.retryAttempts then m.retryAttempts - a + 2 else 1
    case Done(_) => 0
  }

  function TotalLeft(m: Multicast, ws: seq<Worker>): nat {
    if ws == [] then 0 else TotalLeft(m, ws[..|ws| - 1]) + Left(m, ws[|ws| - 1])
  }

  lemma {:induction false} TotalDrops(m: Multicast, ws: seq<Worker>, i: nat, w: Worker)
    requires i < |ws| && Left(m, w) < Left(m, ws[i])
    ensures TotalLeft(m, ws[i := w]) < TotalLeft(m, ws)
  {
    var k := |ws| - 1;
    if i < k {
      TotalDrops(m, ws[..k], i, w);
      assert ws[i := w][..k] == ws[..k][i := w];
    } else {
      assert ws[i := w][..k] == ws[..k];
    }
  }

  /** No schedule goes on forever: the deliveries come to an end however they are interleaved. */
  lemma {:induction false} RunsEnd(m: Multicast, schedule: seq<nat>)
    requires IsRun(m, schedule)
    ensures |schedule| + TotalLeft(m, Exec(m, schedule).workers) <= TotalLeft(m, Init(m).workers)
  {
    if schedule != [] {
      var k := |schedule| - 1;
      RunsEnd(m, schedule[..k]);
      var s := Exec(m, schedule[..k]);
      TotalDrops(m, s.workers, schedule[k], Step(m, s, schedule[k]).workers[schedule[k]]);
    }
  }

  // ----- Aggregation -----

  datatype MulticastResponse = MulticastResponse(targetCount: nat, deliveredCount: nat, failedCount: nat,
                                                 results: seq<DeliveryResult>)

  method Aggregate(targetCount: nat, channel: seq<DeliveryResult>) returns (r: MulticastResponse)
    ensures r == MulticastResponse(targetCount, CountOf(channel, Delivered), CountOf(channel, Failed), channel)
  {
    var delivered, failed, results := 0, 0, [];
    for i := 0 to |channel|
      invariant results == channel[..i]
      invariant delivered == CountOf(channel[..i], Delivered) && failed == CountOf(channel[..i], Failed)
    {
      assert channel[..i + 1][..i] == channel[..i];
      results := results + [channel[i]];
      if channel[i].status == Delivered {
        delivered := delivered + 1;
      } else {
        failed := failed + 1;
      }
    }
    assert channel[..|channel|] == channel;
    r := MulticastResponse(targetCount, delivered, failed, results);
  }
}
