/**
What a restored replica can go on to do. A snapshot is a protobuf clone, which leaves an empty map nil, and the
decoder does not bring it back; the first handler to insert into such a map panics.
*/
module AdminRestore {
  import opened Wrappers
  import opened AdminState
  import opened AdminReplication

  /** Which of the four maps are nil. */
  datatype Nils = Nils(namespaces: bool, proxies: bool, launchers: bool, patterns: bool)

  datatype Replica = Crashed | Running(state: State, nils: Nils)

  const NONE_NIL := Nils(false, false, false, false)

  /** A new machine makes its maps. */
  const Started := Running(Initial, NONE_NIL)

  function Empties(s: State): Nils {
    Nils(s.namespaces == map[], s.proxies == map[], s.launchers == map[], s.patterns == map[])
  }

  /** The command puts a new entry into a map that is nil. */
  predicate Panics(s: State, nils: Nils, c: Command) {
    match c
    case CreateNamespace(ns, _, _, _, _) => nils.namespaces && ns !in s.namespaces
    case RegisterProxy(id, _, _, _, _, _) => nils.proxies && id !in s.proxies
    case RegisterLauncher(id, _, _, _, _, _, _, _) => nils.launchers && id !in s.launchers
    case AssignPattern(id, _, _, _, _) => nils.patterns && id !in s.patterns
    case _ => false
  }

  function ApplyAt(r: Replica, e: Entry, now: int): Replica {
    if r.Crashed? || e.data.None? then r
    else if Panics(r.state, r.nils, e.data.value) then Crashed
    else r.(state := Apply(r.state, e, now))
  }

  function ReplayAt(r: Replica, log: seq<Entry>, clock: nat -> int): Replica {
    if log == [] then r
    else ApplyAt(ReplayAt(r, log[..|log| - 1], clock), log[|log| - 1], clock(|log| - 1))
  }

  /** A replica restored from a snapshot with the given value. */
  function Restored(s: State): Replica {
    Running(s, Empties(s))
  }

  /** The command is of the kind that inserts into one of the maps. */
  predicate Fills(nils: Nils, c: Command) {
    match c
    case CreateNamespace(_, _, _, _, _) => nils.namespaces
    case RegisterProxy(_, _, _, _, _, _) => nils.proxies
    case RegisterLauncher(_, _, _, _, _, _, _, _) => nils.launchers
    case AssignPattern(_, _, _, _, _) => nils.patterns
    case _ => false
  }

  /** Some entry of the log is a command to insert into a map that was empty. */
  ghost predicate FillsAny(nils: Nils, log: seq<Entry>) {
    exists i :: 0 <= i < |log| && log[i].data.Some? && Fills(nils, log[i].data.value)
  }

  /** Nil maps are empty. */
  predicate NilsAreEmpty(s: State, nils: Nils) {
    && (nils.namespaces ==> s.namespaces == map[]) && (nils.proxies ==> s.proxies == map[])
    && (nils.launchers ==> s.launchers == map[]) && (nils.patterns ==> s.patterns == map[])
  }

  lemma FillingPanics(s: State, nils: Nils, c: Command)
    requires NilsAreEmpty(s, nils)
    ensures Panics(s, nils, c) <==> Fills(nils, c)
  {
  }

  lemma OthersStayEmpty(s: State, nils: Nils, e: Entry, now: int)
    requires NilsAreEmpty(s, nils) && (e.data.Some? ==> !Fills(nils, e.data.value))
    ensures NilsAreEmpty(Apply(s, e, now), nils)
  {
  }

  /** A machine whose maps are all made never panics. */
  lemma {:induction false} MadeNeverPanics(s: State, log: seq<Entry>, clock: nat -> int)
    ensures ReplayAt(Running(s, NONE_NIL), log, clock) == Running(Replay(s, log, clock), NONE_NIL)
  {
    if log != [] { MadeNeverPanics(s, log[..|log| - 1], clock); }
  }

  /**
  A replica with nil maps survives a log exactly if no entry is to be put into one of them; then the log has its
  usual effect.
  */
  lemma {:induction false} SurvivesExactly(s: State, nils: Nils, log: seq<Entry>, clock: nat -> int)
    requires NilsAreEmpty(s, nils)
    ensures ReplayAt(Running(s, nils), log, clock) ==
            if FillsAny(nils, log) then Crashed else Running(Replay(s, log, clock), nils)
    ensures !FillsAny(nils, log) ==> NilsAreEmpty(Replay(s, log, clock), nils)
  {
    if log != [] {
      var k := |log| - 1;
      SurvivesExactly(s, nils, log[..k], clock);
      assert FillsAny(nils, log) <==> FillsAny(nils, log[..k]) || (log[k].data.Some? && Fills(nils, log[k].data.value));
      if !FillsAny(nils, log[..k]) {
        var t := Replay(s, log[..k], clock);
        if log[k].data.Some? { FillingPanics(t, nils, log[k].data.value); }
        if !FillsAny(nils, log) { OthersStayEmpty(t, nils, log[k], clock(k)); }
      }
    }
  }

  /** The replica runs, and is in agreement with the given state. */
  ghost predicate RunsLike(r: Replica, s: State, b: Beats) {
    r.Running? && Agree(r.state, s, b)
  }

  /**
  Restoring a snapshot taken at any point of the log and replaying the rest gives, clocks apart, what applying the
  whole log gives, exactly if nothing in the rest goes into a table that was empty in the snapshot. If something
  does, the replica crashes.
  */
  lemma RestoreAndReplayExactly(prefix: seq<Entry>, suffix: seq<Entry>, taker: nat -> int, restorer: nat -> int,
                                whole: nat -> int)
    ensures var snap := Replay(Initial, prefix, taker);
      var r := ReplayAt(Restored(snap), suffix, restorer);
      && (RunsLike(r, Replay(Initial, prefix + suffix, whole), BeatsOver(NoBeats, prefix + suffix)) <==>
          !FillsAny(Empties(snap), suffix))
      && (r.Crashed? <==> FillsAny(Empties(snap), suffix))
  {
    var snap := Replay(Initial, prefix, taker);
    SurvivesExactly(snap, Empties(snap), suffix, restorer);
    ValuesAgree(prefix, suffix, taker, restorer, whole);
  }

  /** A snapshot of a machine with one proxy and no namespaces: the first namespace afterwards crashes the replica. */
  lemma FirstNamespaceCrashes(clock: nat -> int, other: nat -> int)
    ensures var register := Entry(1, 1, Some(RegisterProxy("p", "a", "r", "v", [], map[])));
      var create := Entry(2, 1, Some(CreateNamespace("n", 0, "p", map[], "me")));
      ReplayAt(Restored(Replay(Initial, [register], clock)), [create], other).Crashed?
  {
    var register := Entry(1, 1, Some(RegisterProxy("p", "a", "r", "v", [], map[])));
    assert [register][..0] == [];
    assert Replay(Initial, [register], clock).namespaces == map[];
  }
}
