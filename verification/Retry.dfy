/** The consumer's bookkeeping: offsets, retry counts, dead letters and what is saved of them. */
module Retry {
  import opened Wrappers

  datatype ConsumerState = ConsumerState(offset: int, lastMessageId: string, retryCount: nat)

  datatype Settings = Settings(maxRetries: nat, autoCommit: bool)

  /** A message was handled: did the processor succeed, and would the state store take the new state? */
  datatype Outcome = Outcome(messageId: string, ok: bool, saveOk: bool)

  predicate ShouldRetry(s: Settings, st: ConsumerState) {
    st.retryCount < s.maxRetries
  }

  predicate DeadLetters(s: Settings, st: ConsumerState, o: Outcome) {
    !o.ok && !ShouldRetry(s, st)
  }

  function Next(s: Settings, st: ConsumerState, o: Outcome): ConsumerState {
    if o.ok then ConsumerState(st.offset + 1, o.messageId, 0)
    else if ShouldRetry(s, st) then st.(retryCount := st.retryCount + 1)
    else st.(retryCount := 0)
  }

  /** The new state is saved after a success with auto-commit, and after a failure unless it ends in a dead letter. */
  predicate Saves(s: Settings, st: ConsumerState, o: Outcome) {
    if o.ok then s.autoCommit else ShouldRetry(s, st)
  }

  /** What the state store holds afterwards. */
  function NextSaved(s: Settings, saved: ConsumerState, st: ConsumerState, o: Outcome): ConsumerState {
    if Saves(s, st, o) && o.saveOk then Next(s, st, o) else saved
  }

  function After(s: Settings, st: ConsumerState, os: seq<Outcome>): ConsumerState {
    if os == [] then st else Next(s, After(s, st, os[..|os| - 1]), os[|os| - 1])
  }

  function SavedAfter(s: Settings, saved: ConsumerState, st: ConsumerState, os: seq<Outcome>): ConsumerState {
    if os == [] then saved
    else
      var k := |os| - 1;
      NextSaved(s, SavedAfter(s, saved, st, os[..k]), After(s, st, os[..k]), os[k])
  }

  // ----- What the counters mean -----

  function Successes(os: seq<Outcome>): nat {
    if os == [] then 0 else Successes(os[..|os| - 1]) + if os[|os| - 1].ok then 1 else 0
  }

  /** Failures since the last success; with none, the count carried in goes on. */
  function Trailing(carried: nat, os: seq<Outcome>): nat {
    if os == [] then carried
    else if os[|os| - 1].ok then 0
    else Trailing(carried, os[..|os| - 1]) + 1
  }

  /** A count carried in above the limit acts as the limit. */
  function Carried(s: Settings, st: ConsumerState): nat {
    if st.retryCount <= s.maxRetries then st.retryCount else s.maxRetries
  }

  lemma Multiples(a: int, b: int, n: int)
    requires a < b && n >= 0
    ensures a * n + n <= b * n
  {
    assert (a + 1) * n <= b * n;
  }

  lemma Residue(x: nat, q: nat, n: nat, r: nat)
    requires r < n && x == q * n + r
    ensures x % n == r
  {
    var p := x / n;
    assert x == p * n + x % n;
    if p < q {
      Multiples(p, q, n);
    } else if p > q {
      Multiples(q, p, n);
    }
  }

  /** One more failure, on the residue. */
  lemma NextResidue(t: nat, m: nat, c: nat)
    requires c == t % (m + 1)
    ensures (t + 1) % (m + 1) == if c < m then c + 1 else 0
  {
    var n := m + 1;
    var q := t / n;
    assert t == q * n + c;
    if c < m {
      Residue(t + 1, q, n, c + 1);
    } else {
      assert (q + 1) * n == q * n + n;
      Residue(t + 1, q + 1, n, 0);
    }
  }

  lemma CarriedNext(s: Settings, st: ConsumerState, o: Outcome)
    ensures Carried(s, Next(s, st, o)) ==
            if !o.ok && Carried(s, st) < s.maxRetries then Carried(s, st) + 1 else 0
    ensures Next(s, st, o).retryCount <= s.maxRetries
    ensures DeadLetters(s, st, o) <==> !o.ok && Carried(s, st) == s.maxRetries
  {
  }

  /** The offset grows by exactly the number of successes. */
  lemma {:induction false} OffsetCounts(s: Settings, st: ConsumerState, os: seq<Outcome>)
    ensures After(s, st, os).offset == st.offset + Successes(os)
  {
    if os != [] {
      OffsetCounts(s, st, os[..|os| - 1]);
    }
  }

  /**
  After any sequence of outcomes the retry count is the number of trailing failures, the carried-in
  count included, modulo MaxRetries + 1.
  */
  lemma {:induction false} RetryCountIs(s: Settings, st: ConsumerState, os: seq<Outcome>)
    ensures Carried(s, After(s, st, os)) == Trailing(Carried(s, st), os) % (s.maxRetries + 1)
    ensures os != [] || st.retryCount <= s.maxRetries ==> After(s, st, os).retryCount <= s.maxRetries
  {
    if os == [] {
      Residue(Carried(s, st), 0, s.maxRetries + 1, Carried(s, st));
    } else {
      var k := |os| - 1;
      RetryCountIs(s, st, os[..k]);
      CarriedNext(s, After(s, st, os[..k]), os[k]);
      if os[k].ok {
        Residue(0, 0, s.maxRetries + 1, 0);
      } else {
        NextResidue(Trailing(Carried(s, st), os[..k]), s.maxRetries, Carried(s, After(s, st, os[..k])));
      }
    }
  }

  /** A dead letter is attempted exactly at each (MaxRetries + 1)-th consecutive failure. */
  lemma DeadLettersExactly(s: Settings, st: ConsumerState, os: seq<Outcome>, j: nat)
    requires j < |os|
    ensures DeadLetters(s, After(s, st, os[..j]), os[j]) <==>
            !os[j].ok && Trailing(Carried(s, st), os[..j + 1]) % (s.maxRetries + 1) == 0
  {
    RetryCountIs(s, st, os[..j]);
    assert os[..j + 1][..j] == os[..j];
    CarriedNext(s, After(s, st, os[..j]), os[j]);
    NextResidue(Trailing(Carried(s, st), os[..j]), s.maxRetries, Carried(s, After(s, st, os[..j])));
  }

  /** Outcome k is the last success. */
  ghost predicate LastSuccess(os: seq<Outcome>, k: nat) {
    k < |os| && os[k].ok && forall j | k < j < |os| :: !os[j].ok
  }

  /** The last message is the one that succeeded last; before any has, the one carried in. */
  lemma {:induction false} LastMessageIs(s: Settings, st: ConsumerState, os: seq<Outcome>, k: nat)
    ensures LastSuccess(os, k) ==> After(s, st, os).lastMessageId == os[k].messageId
    ensures (forall j | 0 <= j < |os| :: !os[j].ok) ==> After(s, st, os).lastMessageId == st.lastMessageId
  {
    if os != [] {
      var n := |os| - 1;
      if LastSuccess(os, k) && k < n { assert LastSuccess(os[..n], k); }
      LastMessageIs(s, st, os[..n], k);
    }
  }

  // ----- Restarts -----

  /** Outcome j brings the saved state up to date: a success with auto-commit, or a failure with retries left. */
  predicate Commits(s: Settings, st: ConsumerState, os: seq<Outcome>, j: nat)
    requires j < |os|
  {
    os[j].saveOk && if os[j].ok then s.autoCommit else After(s, st, os[..j]).retryCount < s.maxRetries
  }

  lemma CommitsBefore(s: Settings, st: ConsumerState, os: seq<Outcome>, n: nat, j: nat)
    requires j < n <= |os|
    ensures Commits(s, st, os[..n], j) == Commits(s, st, os, j)
  {
    assert os[..n][..j] == os[..j];
  }

  /** What is saved is the state in memory as it was after the last outcome that was committed. */
  lemma {:induction false} SavedIsLastCommitted(s: Settings, saved: ConsumerState, st: ConsumerState, os: seq<Outcome>,
                                                k: nat)
    requires k < |os| && Commits(s, st, os, k) && forall j | k < j < |os| :: !Commits(s, st, os, j)
    ensures SavedAfter(s, saved, st, os) == After(s, st, os[..k + 1])
  {
    var n := |os| - 1;
    if k < n {
      assert !Commits(s, st, os, n);
      forall j: nat | j < n ensures Commits(s, st, os[..n], j) == Commits(s, st, os, j) {
        CommitsBefore(s, st, os, n, j);
      }
      SavedIsLastCommitted(s, saved, st, os[..n], k);
      assert os[..n][..k + 1] == os[..k + 1];
    } else {
      assert os[..k + 1] == os;
    }
  }

  lemma {:induction false} NothingCommitted(s: Settings, saved: ConsumerState, st: ConsumerState, os: seq<Outcome>)
    requires forall j | 0 <= j < |os| :: !Commits(s, st, os, j)
    ensures SavedAfter(s, saved, st, os) == saved
  {
    if os != [] {
      var n := |os| - 1;
      assert !Commits(s, st, os, n);
      forall j: nat | j < n ensures !Commits(s, st, os[..n], j) { CommitsBefore(s, st, os, n, j); }
      NothingCommitted(s, saved, st, os[..n]);
    }
  }

  /** The state store never fails. */
  predicate Reliable(os: seq<Outcome>) {
    forall o | o in os :: o.saveOk
  }

  predicate EndsInLetter(s: Settings, st: ConsumerState, os: seq<Outcome>) {
    os != [] && DeadLetters(s, After(s, st, os[..|os| - 1]), os[|os| - 1])
  }

  /** No restart loses progress: what is saved has the offset and the last message of the state in memory. */
  lemma {:induction false} SavedKeepsUp(s: Settings, st: ConsumerState, os: seq<Outcome>)
    requires s.autoCommit && Reliable(os)
    ensures var saved, now := SavedAfter(s, st, st, os), After(s, st, os);
            && saved.offset == now.offset && saved.lastMessageId == now.lastMessageId
            && (!EndsInLetter(s, st, os) ==> saved == now)
  {
    if os != [] {
      assert os[|os| - 1] in os;
      SavedKeepsUp(s, st, os[..|os| - 1]);
    }
  }

  predicate SomeSucceed(os: seq<Outcome>) {
    exists o :: o in os && o.ok
  }

  lemma SucceedSplit(os: seq<Outcome>)
    requires os != []
    ensures SomeSucceed(os) <==> SomeSucceed(os[..|os| - 1]) || os[|os| - 1].ok
  {
    assert os == os[..|os| - 1] + [os[|os| - 1]];
  }

  /** Without retries the saved count is the one carried in until something succeeds. */
  lemma {:induction false} SavedWithoutRetries(s: Settings, st: ConsumerState, os: seq<Outcome>)
    requires s.autoCommit && Reliable(os) && s.maxRetries == 0
    ensures SavedAfter(s, st, st, os).retryCount == if SomeSucceed(os) then 0 else st.retryCount
    ensures os != [] ==> After(s, st, os).retryCount == 0
  {
    if os != [] {
      var k := |os| - 1;
      SavedWithoutRetries(s, st, os[..k]);
      SucceedSplit(os);
    }
  }

  /** With retries, the count saved when a letter is sent is at the limit or beyond. */
  lemma {:induction false} SavedBeforeLetter(s: Settings, st: ConsumerState, os: seq<Outcome>)
    requires s.autoCommit && Reliable(os) && EndsInLetter(s, st, os) && s.maxRetries > 0
    ensures SavedAfter(s, st, st, os).retryCount >= s.maxRetries && After(s, st, os).retryCount == 0
  {
    SavedKeepsUp(s, st, os[..|os| - 1]);
  }

  /** The saved state is the one in memory, except right after a dead letter, unless there are no retries to count. */
  lemma SavedExactly(s: Settings, st: ConsumerState, os: seq<Outcome>)
    requires s.autoCommit && Reliable(os)
    ensures SavedAfter(s, st, st, os) == After(s, st, os) <==>
            !EndsInLetter(s, st, os) || (s.maxRetries == 0 && (st.retryCount == 0 || SomeSucceed(os)))
  {
    SavedKeepsUp(s, st, os);
    if EndsInLetter(s, st, os) {
      if s.maxRetries == 0 {
        SavedWithoutRetries(s, st, os);
      } else {
        SavedBeforeLetter(s, st, os);
      }
    }
  }

  /** What that costs: restarted from the saved state, the consumer gives up on the very next failure. */
  lemma RestartAfterLetter(s: Settings, st: ConsumerState, os: seq<Outcome>, next: Outcome)
    requires s.autoCommit && Reliable(os) && EndsInLetter(s, st, os) && s.maxRetries > 0 && !next.ok
    ensures DeadLetters(s, SavedAfter(s, st, st, os), next) && !DeadLetters(s, After(s, st, os), next)
  {
    SavedBeforeLetter(s, st, os);
  }

  /** One retry, two failures: memory says none, the store says one. */
  lemma LetterIsNotSaved()
    ensures var s, st, bad := Settings(1, true), ConsumerState(0, "", 0), Outcome("m", false, true);
            After(s, st, [bad, bad]).retryCount == 0 && SavedAfter(s, st, st, [bad, bad]).retryCount == 1
  {
    var s, st, bad := Settings(1, true), ConsumerState(0, "", 0), Outcome("m", false, true);
    OneMoreOutcome(s, st, st, [], bad);
    OneMoreOutcome(s, st, st, [bad], bad);
    assert [] + [bad] == [bad] && [bad] + [bad] == [bad, bad];
  }

  lemma OneMoreOutcome(s: Settings, saved: ConsumerState, st: ConsumerState, os: seq<Outcome>, o: Outcome)
    ensures After(s, st, os + [o]) == Next(s, After(s, st, os), o)
    ensures SavedAfter(s, saved, st, os + [o]) == NextSaved(s, SavedAfter(s, saved, st, os), After(s, st, os), o)
  {
    assert (os + [o])[..|os + [o]| - 1] == os;
  }

  // ----- Dead letters are few -----

  function Failures(os: seq<Outcome>): nat {
    if os == [] then 0 else Failures(os[..|os| - 1]) + if os[|os| - 1].ok then 0 else 1
  }

  /** Messages given up on. */
  function Letters(s: Settings, st: ConsumerState, os: seq<Outcome>): nat {
    if os == [] then 0
    else Letters(s, st, os[..|os| - 1]) + if EndsInLetter(s, st, os) then 1 else 0
  }

  /** Of every MaxRetries + 1 failures at most one reaches the dead letters, counting those carried in. */
  lemma {:induction false} LettersAreFew(s: Settings, st: ConsumerState, os: seq<Outcome>)
    ensures Letters(s, st, os) * (s.maxRetries + 1) + Carried(s, After(s, st, os)) <= Failures(os) + Carried(s, st)
  {
    if os != [] {
      var k := |os| - 1;
      LettersAreFew(s, st, os[..k]);
      CarriedNext(s, After(s, st, os[..k]), os[k]);
      OneLetterMore(Letters(s, st, os[..k]), s.maxRetries + 1);
    }
  }

  lemma OneLetterMore(l: nat, n: nat)
    ensures (l + 1) * n == l * n + n
  {
  }
}
