/** What is asked of the inputs of the transactions, in terms of their words, rows and fields: which words decide an
    operation, which procedures an engine cannot run, and which results verify. The tests the code makes are proved to
    come to exactly this. */
module Requirements {
  import opened Common
  import opened Operations

  // ---------------------------------------------------------------- decisions

  lemma UpperSpells(word: string, upper: string, lower: string)
    requires |upper| == |lower|
    requires forall i :: 0 <= i < |upper| ==> 'A' <= upper[i] <= 'Z' && lower[i] as int == upper[i] as int + 32
    ensures Upper(word) == upper <==> Spells(word, upper, lower)
  {
    if Upper(word) == upper {
      forall i | 0 <= i < |word|
        ensures word[i] in {upper[i], lower[i]}
      {
        assert UpperChar(word[i]) == upper[i];
      }
    }
  }

  /** The two words a decision can be, and no others. */
  lemma DecisionWords(word: string)
    ensures ParseDecision(word) == Some(true) <==> Spells(word, "APPROVED", "approved")
    ensures ParseDecision(word) == Some(false) <==> Spells(word, "REJECTED", "rejected")
  {
    UpperSpells(word, "APPROVED", "approved");
    UpperSpells(word, "REJECTED", "rejected");
    assert "APPROVED"[0] != "REJECTED"[0];
  }

  // ---------------------------------------------------------------- engines

  /** The procedures an engine cannot run. */
  function Unsupporting(engine: Engine): set<Command> {
    match engine
    case Auto => {StorageMigration}
    case Spark => {StorageMigration}
    case Trino => {StorageMigration, RewritePositionDeletes, Rollback}
    case Flink => {StorageMigration, RewritePositionDeletes, Rollback, ComputeStats, RewriteManifests}
  }

  // ---------------------------------------------------------------- results

  /** The number a snapshot count stands for; a missing one is none, and a null is no number. */
  predicate Counts(f: Field, n: int) { f == Number(n) || (f == Absent && n == 0) }

  /** Both counts are numbers, and the first is not larger. */
  ghost predicate NoMoreSnapshots(after: Field, before: Field) {
    !after.Null? && !before.Null? && forall m, n | Counts(after, m) && Counts(before, n) :: m <= n
  }

  /** The table after the procedure is as it has to be: no record is lost, unless by a rollback; it has a snapshot, in a
      rollback the target if one was named; its identity is what it was; no metric is negative; and an expiry has not
      made snapshots. */
  ghost predicate Verified(command: Command, target: Option<Snapshot>, before: TableDoc, after: TableDoc) {
    && (before.records == after.records || command == Rollback)
    && after.snapshot != None
    && (command == Rollback && target != None ==> after.snapshot == target)
    && before.identity.Items <= after.identity.Items
    && (forall n :: n in after.metrics.Values ==> n >= 0)
    && (command == ExpireSnapshots ==> NoMoreSnapshots(after.snapshotCount, before.snapshotCount))
  }

  lemma NoMoreExactly(after: Field, before: Field)
    ensures AtMost(after, before) <==> NoMoreSnapshots(after, before)
  {
    assert !after.Null? ==> Counts(after, NumberOrZero(after));
    assert !before.Null? ==> Counts(before, NumberOrZero(before));
  }

  lemma ItemsKept<K, V>(a: map<K, V>, b: map<K, V>)
    ensures a.Items <= b.Items <==> forall k :: k in a ==> k in b && b[k] == a[k]
  {
    if a.Items <= b.Items {
      forall k | k in a
        ensures k in b && b[k] == a[k]
      {
        assert (k, a[k]) in a.Items;
      }
    }
  }

  /** The tests of `verify_result` let through exactly these results. */
  lemma AcceptableExactly(command: Command, target: Option<Snapshot>, r: Result)
    ensures Acceptable(command, target, r) <==> Verified(command, target, r.before, r.after)
  {
    ItemsKept(r.before.identity, r.after.identity);
    NoMoreExactly(r.after.snapshotCount, r.before.snapshotCount);
    assert forall k :: k in r.after.metrics ==> r.after.metrics[k] in r.after.metrics.Values;
  }
}
