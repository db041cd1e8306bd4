/**
 Snapshot isolation as the database gives it (src/infrastructure/mongodb/transactions.ts): a
 transaction reads the documents as they stood when it began, buffers its writes, and
 commits only if no document it writes was written by a commit it did not see.
 */
module SnapshotStore {
  import opened Common

  /** `stamps` records the commit that last wrote each document. */
  datatype Store<K, V> = Store(docs: map<K, V>, stamps: map<K, nat>, clock: nat)

  /** Buffered writes; None deletes. */
  type Writes<K, V> = map<K, Option<V>>

  function Install<K, V>(docs: map<K, V>, writes: Writes<K, V>): map<K, V> {
    map k | k in docs.Keys + writes.Keys && (k in writes ==> writes[k].Some?) ::
      if k in writes then writes[k].value else docs[k]
  }

  predicate Conflicts<K, V>(cur: Store<K, V>, snapshot: Store<K, V>, writes: Writes<K, V>) {
    exists k :: k in writes && k in cur.stamps && cur.stamps[k] > snapshot.clock
  }

  function Commit<K, V>(cur: Store<K, V>, snapshot: Store<K, V>, writes: Writes<K, V>): Store<K, V> {
    if Conflicts(cur, snapshot, writes) then cur
    else
      var stamps := map k | k in cur.stamps.Keys + writes.Keys :: if k in writes then cur.clock + 1 else cur.stamps[k];
      Store(Install(cur.docs, writes), stamps, cur.clock + 1)
  }

  ghost predicate Sane<K(!new), V>(s: Store<K, V>) {
    forall k :: k in s.stamps ==> s.stamps[k] <= s.clock
  }

  function At<K, V>(docs: map<K, V>, k: K): Option<V> {
    if k in docs then Some(docs[k]) else None
  }

  /** The commit that last wrote `k` is one the store `a` had already seen. */
  predicate Unwritten<K, V>(a: Store<K, V>, b: Store<K, V>, k: K) {
    k in b.stamps ==> b.stamps[k] <= a.clock
  }

  /** `b` is a later state: a document no commit since `a` wrote is as it was. */
  ghost predicate Later<K(!new), V>(a: Store<K, V>, b: Store<K, V>) {
    && a.clock <= b.clock
    && (forall k :: k in a.stamps ==> k in b.stamps && a.stamps[k] <= b.stamps[k])
    && (forall k :: Unwritten(a, b, k) ==> At(a.docs, k) == At(b.docs, k))
  }

  lemma LaterTransitive<K(!new), V>(a: Store<K, V>, b: Store<K, V>, c: Store<K, V>)
    requires Later(a, b) && Later(b, c)
    ensures Later(a, c)
  {
    forall k | Unwritten(a, c, k) ensures At(a.docs, k) == At(c.docs, k) {
      assert Unwritten(a, b, k) && Unwritten(b, c, k);
    }
  }

  lemma CommitIsLater<K(!new), V>(cur: Store<K, V>, snapshot: Store<K, V>, writes: Writes<K, V>)
    requires Sane(cur)
    ensures Sane(Commit(cur, snapshot, writes)) && Later(cur, Commit(cur, snapshot, writes))
  {
  }

  /**
   First committer wins: where a transaction commits, every document it writes is still
   what it read when it began, and its writes are what those documents become.
   */
  lemma CommittedSawCurrent<K(!new), V>(cur: Store<K, V>, snapshot: Store<K, V>, writes: Writes<K, V>, k: K)
    requires Later(snapshot, cur) && !Conflicts(cur, snapshot, writes) && k in writes
    ensures At(snapshot.docs, k) == At(cur.docs, k)
    ensures At(Commit(cur, snapshot, writes).docs, k) == writes[k]
    ensures !Unwritten(cur, Commit(cur, snapshot, writes), k)
  {
    assert Unwritten(snapshot, cur, k);
  }

  lemma OthersKept<K, V>(cur: Store<K, V>, snapshot: Store<K, V>, writes: Writes<K, V>, k: K)
    requires k !in writes
    ensures At(Commit(cur, snapshot, writes).docs, k) == At(cur.docs, k)
  {
  }
}
