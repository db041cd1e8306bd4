/**
 Every interleaving of registry changes, payment creations and payment progress under
 snapshot isolation: no write skew on deactivation, gap-free address allocation and one
 response for an idempotency key.
 */
module RegistryRuns {
  import opened Common
  import opened StateMachine
  import opened SnapshotStore
  import opened Registry

  type State = Store<Key, Doc>

  const EMPTY: State := Store(map[], map[], 0)

  /** A transaction that began on an earlier state and now tries to commit. */
  datatype Step = Step(startedAt: nat, txn: Txn)

  function Take(cur: State, snapshot: State, t: Txn): State {
    var w := Execute(snapshot.docs, t);
    if w.Err? then cur else Commit(cur, snapshot, w.value)
  }

  predicate Commits(cur: State, snapshot: State, t: Txn) {
    var w := Execute(snapshot.docs, t);
    w.Ok? && !Conflicts(cur, snapshot, w.value)
  }

  predicate IsRun(run: seq<State>, steps: seq<Step>) {
    && |run| == |steps| + 1 && run[0] == EMPTY
    && forall i :: 0 <= i < |steps| ==>
         steps[i].startedAt <= i && run[i + 1] == Take(run[i], run[steps[i].startedAt], steps[i].txn)
  }

  predicate CommittedAt(run: seq<State>, steps: seq<Step>, i: nat)
    requires |run| == |steps| + 1 && i < |steps| && steps[i].startedAt <= i
  {
    Commits(run[i], run[steps[i].startedAt], steps[i].txn)
  }

  lemma {:induction false} RunLater(run: seq<State>, steps: seq<Step>, i: nat, j: nat)
    requires IsRun(run, steps) && i <= j < |run|
    ensures Sane(run[j]) && Later(run[i], run[j])
    decreases j, j - i
  {
    if i < j {
      RunLater(run, steps, i, j - 1);
      var w := Execute(run[steps[j - 1].startedAt].docs, steps[j - 1].txn);
      assert run[j] == Take(run[j - 1], run[steps[j - 1].startedAt], steps[j - 1].txn);
      if w.Ok? {
        CommitIsLater(run[j - 1], run[steps[j - 1].startedAt], w.value);
      }
      LaterTransitive(run[i], run[j - 1], run[j]);
    } else if j > 0 {
      RunLater(run, steps, j - 1, j - 1);
      var w := Execute(run[steps[j - 1].startedAt].docs, steps[j - 1].txn);
      assert run[j] == Take(run[j - 1], run[steps[j - 1].startedAt], steps[j - 1].txn);
      if w.Ok? {
        CommitIsLater(run[j - 1], run[steps[j - 1].startedAt], w.value);
      }
    }
  }

  // ----- one step -----

  /** What a committed step wrote it also read: the document had not changed since the snapshot. */
  lemma StepAt(cur: State, snapshot: State, t: Txn, k: Key)
    requires Sane(cur) && Later(snapshot, cur)
    ensures
      var w := Execute(snapshot.docs, t);
      if Commits(cur, snapshot, t) && k in w.value then
        At(snapshot.docs, k) == At(cur.docs, k) && At(Take(cur, snapshot, t).docs, k) == w.value[k]
      else At(Take(cur, snapshot, t).docs, k) == At(cur.docs, k)
    ensures Commits(cur, snapshot, t) && k in Execute(snapshot.docs, t).value ==>
      !Unwritten(cur, Take(cur, snapshot, t), k)
  {
    var w := Execute(snapshot.docs, t);
    if Commits(cur, snapshot, t) {
      if k in w.value {
        CommittedSawCurrent(cur, snapshot, w.value, k);
      } else {
        OthersKept(cur, snapshot, w.value, k);
      }
    }
  }

  /** Closed payments never reopen. */
  lemma FollowsOpen(a: Status, b: Status)
    requires Follows(a, b) && IsOpen(b)
    ensures IsOpen(a)
  {
  }

  /**
   The only transaction that makes a payment open where it was not is a creation, which also
   writes its chain and token.
   */
  lemma WritesOpen(docs: Docs, t: Txn, entity: Key, k: Key)
    requires Execute(docs, t).Ok? && k in Execute(docs, t).value
    requires Execute(docs, t).value[k].Some?
    requires Belongs(Execute(docs, t).value[k].value, entity) && IsOpen(Execute(docs, t).value[k].value.payment.status)
    ensures OpenOn(docs, entity, k) || (t.Create? && entity in Execute(docs, t).value)
  {
    if t.Move? {
      FollowsOpen(docs[k].payment.status, t.to);
    }
  }

  lemma StepOpens(cur: State, snapshot: State, t: Txn, entity: Key, k: Key)
    requires Sane(cur) && Later(snapshot, cur) && OpenOn(Take(cur, snapshot, t).docs, entity, k)
    ensures OpenOn(cur.docs, entity, k) || (t.Create? && Commits(cur, snapshot, t)
        && entity in Execute(snapshot.docs, t).value)
  {
    StepAt(cur, snapshot, t, k);
    if Commits(cur, snapshot, t) && k in Execute(snapshot.docs, t).value {
      WritesOpen(snapshot.docs, t, entity, k);
    }
  }

  // ----- no write skew -----

  lemma StepShrinks(first: State, cur: State, snapshot: State, t: Txn, entity: Key, k: Key)
    requires Sane(cur) && Later(snapshot, cur) && Later(first, cur)
    requires Unwritten(first, Take(cur, snapshot, t), entity) && OpenOn(Take(cur, snapshot, t).docs, entity, k)
    ensures Unwritten(first, cur, entity) && OpenOn(cur.docs, entity, k)
  {
    StepOpens(cur, snapshot, t, entity, k);
    StepAt(cur, snapshot, t, entity);
    var w := Execute(snapshot.docs, t);
    if w.Ok? {
      CommitIsLater(cur, snapshot, w.value);
    }
  }

  /** While no commit writes a chain or token, its open payments can only become fewer. */
  lemma {:induction false} OpenOnlyShrinks(run: seq<State>, steps: seq<Step>, i: nat, j: nat, entity: Key, k: Key)
    requires IsRun(run, steps) && i <= j < |run|
    requires Unwritten(run[i], run[j], entity) && OpenOn(run[j].docs, entity, k)
    ensures OpenOn(run[i].docs, entity, k)
    decreases j - i
  {
    if i < j {
      var s := steps[j - 1].startedAt;
      assert run[j] == Take(run[j - 1], run[s], steps[j - 1].txn);
      RunLater(run, steps, i, j - 1);
      RunLater(run, steps, s, j - 1);
      StepShrinks(run[i], run[j - 1], run[s], steps[j - 1].txn, entity, k);
      OpenOnlyShrinks(run, steps, i, j - 1, entity, k);
    }
  }

  predicate IsDisabled(docs: Docs, entity: Key) {
    entity in docs && RightKind(entity, docs[entity]) && !IsEnabled(docs, entity)
  }

  /** Nothing but an activation writes a disabled chain or token as enabled, and no creation writes it at all. */
  lemma DisabledWrites(docs: Docs, t: Txn, entity: Key)
    requires IsDisabled(docs, entity) && Execute(docs, t).Ok? && entity in Execute(docs, t).value
    requires !(t.Activate? && t.entity == entity)
    ensures !t.Create? && Execute(docs, t).value[entity].Some?
        && IsDisabled(map[entity := Execute(docs, t).value[entity].value], entity)
  {
  }

  lemma StepStaysDisabled(cur: State, snapshot: State, t: Txn, entity: Key)
    requires Sane(cur) && Later(snapshot, cur) && IsDisabled(cur.docs, entity)
    requires !(t.Activate? && t.entity == entity && Commits(cur, snapshot, t))
    ensures IsDisabled(Take(cur, snapshot, t).docs, entity)
    ensures Commits(cur, snapshot, t) && t.Create? ==> entity !in Execute(snapshot.docs, t).value
  {
    StepAt(cur, snapshot, t, entity);
    if Commits(cur, snapshot, t) && entity in Execute(snapshot.docs, t).value {
      DisabledWrites(snapshot.docs, t, entity);
    }
  }

  /** No activation of the entity commits in steps i..j-1. */
  predicate NotReactivated(run: seq<State>, steps: seq<Step>, entity: Key, i: nat, j: nat)
    requires IsRun(run, steps) && i <= j < |run|
  {
    forall m :: i <= m < j && steps[m].txn.Activate? && steps[m].txn.entity == entity ==> !CommittedAt(run, steps, m)
  }

  lemma {:induction false} DisabledUntilReactivated(run: seq<State>, steps: seq<Step>, entity: Key, i: nat, j: nat,
      k: Key)
    requires IsRun(run, steps) && i <= j < |run|
    requires IsDisabled(run[i].docs, entity) && NotReactivated(run, steps, entity, i, j)
    ensures IsDisabled(run[j].docs, entity)
    ensures OpenOn(run[j].docs, entity, k) ==> OpenOn(run[i].docs, entity, k)
    decreases j - i
  {
    if i < j {
      DisabledUntilReactivated(run, steps, entity, i, j - 1, k);
      var cur, snapshot, t := run[j - 1], run[steps[j - 1].startedAt], steps[j - 1].txn;
      assert run[j] == Take(cur, snapshot, t);
      RunLater(run, steps, steps[j - 1].startedAt, j - 1);
      StepStaysDisabled(cur, snapshot, t, entity);
      if OpenOn(run[j].docs, entity, k) {
        StepOpens(cur, snapshot, t, entity, k);
      }
    }
  }

  /**
   Once a deactivation commits, and until a reactivation does, every open payment of the
   chain or token was already open in the snapshot the deactivation counted: if it counted
   none there is none, although the count and every creation read stale snapshots.
   */
  lemma NoWriteSkew(run: seq<State>, steps: seq<Step>, d: nat, j: nat, k: Key)
    requires IsRun(run, steps) && d < j < |run|
    requires steps[d].txn.Deactivate? && CommittedAt(run, steps, d)
    requires NotReactivated(run, steps, steps[d].txn.entity, d + 1, j)
    requires OpenOn(run[j].docs, steps[d].txn.entity, k)
    ensures OpenOn(run[steps[d].startedAt].docs, steps[d].txn.entity, k)
    ensures steps[d].txn.forced
  {
    var entity, s := steps[d].txn.entity, steps[d].startedAt;
    assert run[d + 1] == Take(run[d], run[s], steps[d].txn);
    RunLater(run, steps, s, d);
    StepAt(run[d], run[s], steps[d].txn, entity);
    assert IsDisabled(run[d + 1].docs, entity);
    DisabledUntilReactivated(run, steps, entity, d + 1, j, k);
    StepOpens(run[d], run[s], steps[d].txn, entity, k);
    assert Unwritten(run[s], run[d], entity);
    OpenOnlyShrinks(run, steps, s, d, entity, k);
  }

  // ----- configuration versions -----

  /** The same configuration: everything but the allocation counter. */
  predicate SameConfiguration(a: Doc, b: Doc)
    requires (a.ChainDoc? || a.TokenDoc?) && (b.ChainDoc? || b.TokenDoc?)
  {
    var x, y := RegistrationOf(a), RegistrationOf(b);
    WithRegistration(a, x.(allocationSequence := 0)) == WithRegistration(b, y.(allocationSequence := 0))
  }

  /** `b` is the configuration of the entity at or after `a`'s version. */
  predicate Succeeds(entity: Key, a: Docs, b: Docs) {
    entity in a && RightKind(entity, a[entity]) ==>
      && entity in b && RightKind(entity, b[entity])
      && RegistrationOf(a[entity]).version <= RegistrationOf(b[entity]).version
      && (RegistrationOf(a[entity]).version == RegistrationOf(b[entity]).version ==>
        SameConfiguration(a[entity], b[entity]))
  }

  lemma WritesSucceed(docs: Docs, t: Txn, entity: Key)
    requires (entity.ChainKey? || entity.TokenKey?) && Execute(docs, t).Ok? && entity in Execute(docs, t).value
    ensures Execute(docs, t).value[entity].Some?
    ensures Succeeds(entity, docs, map[entity := Execute(docs, t).value[entity].value])
  {
  }

  /**
   A version names one configuration: between two states in which a chain or token has the
   same version, only its allocation counter can have moved.
   */
  lemma {:induction false} VersionNamesConfiguration(run: seq<State>, steps: seq<Step>, i: nat, j: nat, entity: Key)
    requires IsRun(run, steps) && i <= j < |run| && (entity.ChainKey? || entity.TokenKey?)
    ensures Succeeds(entity, run[i].docs, run[j].docs)
    decreases j - i
  {
    if i < j {
      VersionNamesConfiguration(run, steps, i, j - 1, entity);
      var s, t := steps[j - 1].startedAt, steps[j - 1].txn;
      assert run[j] == Take(run[j - 1], run[s], t);
      RunLater(run, steps, s, j - 1);
      StepAt(run[j - 1], run[s], t, entity);
      if Commits(run[j - 1], run[s], t) && entity in Execute(run[s].docs, t).value {
        WritesSucceed(run[s].docs, t, entity);
      }
    }
  }

  // ----- what the allocation counters are for -----

  function WithoutCounters(w: Buffer, r: Request): Buffer {
    w - {ChainKey(r.chain), TokenKey(r.token)}
  }

  /**
   A deactivation and a creation begun on the same store: with the counters the creation
   conflicts once the deactivation has committed; without them it would commit, and leave
   an open payment on a disabled chain or token.
   */
  lemma CountersPreventSkew(s: State, r: Request, d: Draw, entity: Key, version: nat)
    requires Sane(s) && Creation(s.docs, r, d).Ok?
    requires entity == ChainKey(r.chain) || entity == TokenKey(r.token)
    requires Deactivation(s.docs, entity, version, false).Ok?
    ensures
      var off := Commit(s, s, Deactivation(s.docs, entity, version, false).value);
      var w := Creation(s.docs, r, d).value;
      && IsDisabled(off.docs, entity)
      && Commit(off, s, w) == off
      && var skewed := Commit(off, s, WithoutCounters(w, r));
         IsDisabled(skewed.docs, entity) && OpenOn(skewed.docs, entity, PaymentKey(d.paymentId))
  {
    var off := Commit(s, s, Deactivation(s.docs, entity, version, false).value);
    var w := Creation(s.docs, r, d).value;
    assert entity in w && entity in off.stamps && off.stamps[entity] == s.clock + 1;
    assert Conflicts(off, s, w);
    var bare := WithoutCounters(w, r);
    assert forall k :: k in bare && k in off.stamps ==> k != entity && off.stamps[k] <= s.clock;
    assert !Conflicts(off, s, bare);
    assert PaymentKey(d.paymentId) in bare;
  }
}
