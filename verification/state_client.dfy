/**
 * `put_if_higher`: any number of concurrent writers raise one key of etcd by compare-and-swap on its mod
 * revision (common/src/ingestion/state_client.rs, etcd/src/kv.rs).
 */
module StateClient {
  import opened Core

  datatype Kv = Absent | Stored(value: nat, modRevision: nat)

  /** A missing key has mod revision 0. */
  function ModRevision(kv: Kv): nat {
    if kv.Absent? then 0 else kv.modRevision
  }

  /** etcd: one revision counter for all keys, and the key under attention. */
  datatype Etcd = Etcd(revision: nat, kv: Kv)

  function Put(e: Etcd, value: nat): Etcd {
    Etcd(e.revision + 1, Stored(value, e.revision + 1))
  }

  /** The condition and the put are one atomic step. */
  function PutIfModRevision(e: Etcd, value: nat, modRevision: nat): (Etcd, bool) {
    if ModRevision(e.kv) == modRevision then (Put(e, value), true) else (e, false)
  }

  datatype Pc = Reading | Writing(modRevision: nat) | Returned(applied: bool) | Crashed

  /** `attempts` counts conditional puts; `since` is how many puts had been applied at the last read. */
  datatype Writer = Writer(block: nat, pc: Pc, attempts: nat, since: nat)

  /** `applied` lists the writers whose put was applied, in order. */
  datatype State = State(etcd: Etcd, writers: seq<Writer>, applied: seq<nat>)

  datatype Action = Reads(i: nat) | Writes(i: nat) | Crashes(i: nat) | OtherKeyChanges

  predicate Enabled(s: State, a: Action) {
    match a
    case Reads(i) => i < |s.writers| && s.writers[i].pc.Reading?
    case Writes(i) => i < |s.writers| && s.writers[i].pc.Writing?
    case Crashes(i) => i < |s.writers| && !s.writers[i].pc.Returned?
    case OtherKeyChanges => true
  }

  function Read(kv: Kv, block: nat): Pc {
    if kv.Stored? && kv.value >= block then Returned(false) else Writing(ModRevision(kv))
  }

  function Step(s: State, a: Action): State
    requires Enabled(s, a)
  {
    match a
    case Reads(i) =>
      s.(writers := s.writers[i := s.writers[i].(pc := Read(s.etcd.kv, s.writers[i].block), since := |s.applied|)])
    case Writes(i) =>
      var w := s.writers[i];
      var (etcd, ok) := PutIfModRevision(s.etcd, w.block, w.pc.modRevision);
      State(etcd, s.writers[i := w.(pc := if ok then Returned(true) else Reading, attempts := w.attempts + 1)],
            if ok then s.applied + [i] else s.applied)
    case Crashes(i) => s.(writers := s.writers[i := s.writers[i].(pc := Crashed)])
    case OtherKeyChanges => s.(etcd := s.etcd.(revision := s.etcd.revision + 1))
  }

  // ------------------------------------------------------------------ the invariant

  predicate AtLeast(kv: Kv, block: nat) {
    kv.Stored? && kv.value >= block
  }

  /** Failed attempts are paid for by puts of others that were applied since. */
  predicate WriterOk(s: State, i: nat)
    requires i < |s.writers|
  {
    var w, count := s.writers[i], |s.applied|;
    && w.since <= count
    && match w.pc
       case Reading => w.attempts <= count && i !in s.applied
       case Writing(seen) =>
         && w.attempts <= w.since && i !in s.applied
         && seen <= ModRevision(s.etcd.kv)
         && (seen == ModRevision(s.etcd.kv) ==> w.since == count && !AtLeast(s.etcd.kv, w.block))
         && (seen < ModRevision(s.etcd.kv) ==> w.since < count)
       case Returned(applied) =>
         AtLeast(s.etcd.kv, w.block) && (applied <==> i in s.applied)
         && (if applied then w.attempts <= count else w.attempts <= w.since)
       case Crashed => i !in s.applied && w.attempts <= count
  }

  predicate Distinct(indices: seq<nat>) {
    forall i, j :: 0 <= i < j < |indices| ==> indices[i] != indices[j]
  }

  /** `initial` is what the key held before. */
  ghost predicate Inv(s: State, initial: Kv) {
    && (s.etcd.kv.Stored? ==> 1 <= s.etcd.kv.modRevision <= s.etcd.revision)
    && (initial.Stored? ==> AtLeast(s.etcd.kv, initial.value))
    && (s.applied == [] ==> s.etcd.kv == initial)
    && (forall k :: 0 <= k < |s.applied| ==> s.applied[k] < |s.writers|)
    && (s.applied != [] ==> s.etcd.kv.Stored? && s.etcd.kv.value == s.writers[s.applied[|s.applied| - 1]].block)
    && Distinct(s.applied)
    && forall i :: 0 <= i < |s.writers| ==> WriterOk(s, i)
  }

  ghost predicate Initially(s: State) {
    && (s.etcd.kv.Stored? ==> 1 <= s.etcd.kv.modRevision <= s.etcd.revision)
    && s.applied == [] && forall i :: 0 <= i < |s.writers| ==> s.writers[i] == Writer(s.writers[i].block, Reading, 0, 0)
  }

  lemma ReadKeepsInv(s: State, initial: Kv, i: nat)
    requires Inv(s, initial) && Enabled(s, Reads(i))
    ensures Inv(Step(s, Reads(i)), initial)
  {
    var s' := Step(s, Reads(i));
    forall j | 0 <= j < |s'.writers|
      ensures WriterOk(s', j)
    {
      assert WriterOk(s, j);
    }
  }

  /** An applied put finds the key as it was read, so it raises the value. */
  lemma AppliedRaises(s: State, initial: Kv, i: nat)
    requires Inv(s, initial) && Enabled(s, Writes(i)) && ModRevision(s.etcd.kv) == s.writers[i].pc.modRevision
    ensures !AtLeast(s.etcd.kv, s.writers[i].block) && i !in s.applied
  {
    assert WriterOk(s, i);
  }

  lemma WriteKeepsInv(s: State, initial: Kv, i: nat)
    requires Inv(s, initial) && Enabled(s, Writes(i))
    ensures Inv(Step(s, Writes(i)), initial)
  {
    var s' := Step(s, Writes(i));
    assert WriterOk(s, i);
    forall j | 0 <= j < |s'.writers|
      ensures WriterOk(s', j)
    {
      assert WriterOk(s, j);
    }
  }

  lemma StepKeepsInv(s: State, initial: Kv, a: Action)
    requires Inv(s, initial) && Enabled(s, a)
    ensures Inv(Step(s, a), initial)
  {
    match a
    case Reads(i) => ReadKeepsInv(s, initial, i);
    case Writes(i) => WriteKeepsInv(s, initial, i);
    case _ =>
      var s' := Step(s, a);
      forall j | 0 <= j < |s'.writers|
        ensures WriterOk(s', j)
      {
        assert WriterOk(s, j);
      }
  }

  /** No step lowers the stored value. */
  lemma StepNeverLowers(s: State, initial: Kv, a: Action)
    requires Inv(s, initial) && Enabled(s, a)
    ensures s.etcd.kv.Stored? ==> AtLeast(Step(s, a).etcd.kv, s.etcd.kv.value)
  {
    if a.Writes? && ModRevision(s.etcd.kv) == s.writers[a.i].pc.modRevision {
      AppliedRaises(s, initial, a.i);
    }
  }

  // ------------------------------------------------------------------ runs

  ghost predicate IsRun(states: seq<State>, actions: seq<Action>) {
    && |states| == |actions| + 1 && Initially(states[0])
    && forall i :: 0 <= i < |actions| ==> Enabled(states[i], actions[i]) && states[i + 1] == Step(states[i], actions[i])
  }

  lemma {:induction false} RunInv(states: seq<State>, actions: seq<Action>, i: nat)
    requires IsRun(states, actions) && i < |states|
    ensures Inv(states[i], states[0].etcd.kv) && |states[i].writers| == |states[0].writers|
    ensures forall k :: 0 <= k < |states[0].writers| ==> states[i].writers[k].block == states[0].writers[k].block
  {
    hide Inv;
    if i == 0 {
      InitiallyInv(states[0]);
    } else {
      RunInv(states, actions, i - 1);
      StepKeepsInv(states[i - 1], states[0].etcd.kv, actions[i - 1]);
    }
  }

  lemma InitiallyInv(s: State)
    requires Initially(s)
    ensures Inv(s, s.etcd.kv)
  {
  }

  /** The stored value never decreases over a run. */
  lemma {:induction false} ValueOnlyGrows(states: seq<State>, actions: seq<Action>, i: nat, j: nat)
    requires IsRun(states, actions) && i <= j < |states| && states[i].etcd.kv.Stored?
    ensures AtLeast(states[j].etcd.kv, states[i].etcd.kv.value)
    decreases j
  {
    if i < j {
      ValueOnlyGrows(states, actions, i, j - 1);
      RunInv(states, actions, j - 1);
      StepNeverLowers(states[j - 1], states[0].etcd.kv, actions[j - 1]);
    }
  }

  lemma {:induction false} DistinctBound(indices: seq<nat>, n: nat)
    requires Distinct(indices) && forall k :: 0 <= k < |indices| ==> indices[k] < n
    ensures |indices| <= n
    decreases n
  {
    if indices != [] {
      assert indices[0] < n;
      if n - 1 in indices {
        var k :| 0 <= k < |indices| && indices[k] == n - 1;
        DistinctBound(indices[..k] + indices[k + 1..], n - 1);
      } else {
        DistinctBound(indices, n - 1);
      }
    }
  }

  lemma DistinctWithout(indices: seq<nat>, n: nat, i: nat)
    requires Distinct(indices) && (forall k :: 0 <= k < |indices| ==> indices[k] < n) && i < n && i !in indices
    ensures |indices| < n
  {
    var all := indices + [i];
    DistinctBound(all, n);
  }

  /** A call makes at most as many conditional puts as there are writers, even while it still runs or after a crash. */
  lemma AttemptsAreBounded(states: seq<State>, actions: seq<Action>, i: nat, w: nat)
    requires IsRun(states, actions) && i < |states| && w < |states[0].writers|
    ensures |states[i].writers| == |states[0].writers|
    ensures states[i].writers[w].attempts <= |states[0].writers|
    ensures states[i].writers[w].pc.Writing? ==> states[i].writers[w].attempts < |states[0].writers|
  {
    RunInv(states, actions, i);
    var s, n := states[i], |states[0].writers|;
    assert WriterOk(s, w);
    DistinctBound(s.applied, n);
    if w !in s.applied { DistinctWithout(s.applied, n, w); }
  }

  /** A call that returned leaves a value at or past its block, at that moment and for ever. */
  lemma ReturnedMeansStored(states: seq<State>, actions: seq<Action>, i: nat, w: nat)
    requires IsRun(states, actions) && i < |states| && w < |states[0].writers|
    ensures |states[i].writers| == |states[0].writers|
    ensures states[i].writers[w].pc.Returned? ==> AtLeast(states[i].etcd.kv, states[0].writers[w].block)
  {
    RunInv(states, actions, i);
    assert WriterOk(states[i], w);
  }

  ghost predicate IsMaximum(value: nat, initial: Kv, writers: seq<Writer>) {
    && (initial.Stored? ==> value >= initial.value)
    && (forall w :: 0 <= w < |writers| ==> value >= writers[w].block)
    && (initial == Stored(value, ModRevision(initial)) || exists w :: 0 <= w < |writers| && writers[w].block == value)
  }

  /** When every call has returned, the key holds the maximum of the blocks and what it held before. */
  lemma FinalValueIsTheMaximum(states: seq<State>, actions: seq<Action>, i: nat)
    requires IsRun(states, actions) && i < |states| && states[0].writers != []
    requires forall w :: 0 <= w < |states[i].writers| ==> states[i].writers[w].pc.Returned?
    ensures states[i].etcd.kv.Stored?
    ensures IsMaximum(states[i].etcd.kv.value, states[0].etcd.kv, states[0].writers)
  {
    RunInv(states, actions, i);
    var s, initial := states[i], states[0].etcd.kv;
    forall w | 0 <= w < |states[0].writers|
      ensures AtLeast(s.etcd.kv, states[0].writers[w].block)
    {
      assert WriterOk(s, w);
    }
    assert AtLeast(s.etcd.kv, states[0].writers[0].block);
    if s.applied != [] {
      var last := s.applied[|s.applied| - 1];
      assert states[0].writers[last].block == s.etcd.kv.value;
    }
  }

  // ------------------------------------------------------------------ the call itself

  /** What other calls leave when they store `blocks` one after another. */
  function Raised(e: Etcd, blocks: seq<nat>): (r: Etcd)
    ensures e.kv.Stored? ==> AtLeast(r.kv, e.kv.value)
    ensures e.revision <= r.revision
    ensures r.kv == e.kv || (r.kv.Stored? && e.revision < r.kv.modRevision <= r.revision && r.kv.value in blocks)
    decreases |blocks|
  {
    if blocks == [] then e
    else
      var before := Raised(e, blocks[..|blocks| - 1]);
      var last := blocks[|blocks| - 1];
      if AtLeast(before.kv, last) then before else Put(before, last)
  }

  class EtcdKey {
    var etcd: Etcd

    constructor (initial: Etcd)
      ensures etcd == initial
    {
      etcd := initial;
    }

    /**
     * The retry loop. `others[k]` are the blocks other calls store between the k-th read and its conditional put.
     * A failed attempt means that others stored something, and the loop ends at or past `block`.
     */
    method PutIfHigher(block: nat, others: seq<seq<nat>>) returns (attempts: nat)
      requires etcd.kv.Stored? ==> 1 <= etcd.kv.modRevision <= etcd.revision
      modifies this
      ensures AtLeast(etcd.kv, block) && (old(etcd).kv.Stored? ==> AtLeast(etcd.kv, old(etcd).kv.value))
      ensures etcd.kv.value == block || etcd.kv == old(etcd).kv || exists k ::
                0 <= k < |others| && etcd.kv.value in others[k]
      ensures attempts <= |others| + 1
      ensures forall k :: 0 <= k < attempts - 1 ==> others[k] != []
      ensures AtLeast(old(etcd).kv, block) ==> etcd == old(etcd) && attempts == 0
    {
      attempts := 0;
      while true
        invariant attempts <= |others| && forall k :: 0 <= k < attempts ==> others[k] != []
        invariant etcd.kv.Stored? ==> 1 <= etcd.kv.modRevision <= etcd.revision
        invariant old(etcd).kv.Stored? ==> AtLeast(etcd.kv, old(etcd).kv.value)
        invariant etcd.kv == old(etcd).kv || exists k ::
                    0 <= k < attempts && etcd.kv.Stored? && etcd.kv.value in others[k]
        invariant attempts > 0 ==> !AtLeast(old(etcd).kv, block)
        invariant attempts == 0 ==> etcd == old(etcd)
        decreases |others| - attempts
      {
        var read := etcd.kv;
        if read.Stored? && read.value >= block {
          return;
        }
        if attempts < |others| {
          etcd := Raised(etcd, others[attempts]);
        }
        var (after, applied) := PutIfModRevision(etcd, block, ModRevision(read));
        etcd := after;
        attempts := attempts + 1;
        if applied {
          return;
        }
      }
    }
  }
}
