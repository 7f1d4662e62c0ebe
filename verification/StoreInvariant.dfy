/**
  * Commit receipts: which entries carry them, that they are dense, and that they rise along every path, step by
  * step through the insertion of a batch.
  */
module StoreInvariant {
  import opened Wrappers
  import opened Utf8
  import opened Numbers
  import opened Trace
  import opened Tables
  import opened Append
  import opened Invariant

  // ---- Commit receipts -----------------------------------------------------

  lemma CommitReceiptInjective(m: nat, n: nat)
    requires CommitReceipt(m) == CommitReceipt(n)
    ensures m == n
  {
    assert CommitReceipt(m)[7..] == Decimal(m) && CommitReceipt(n)[7..] == Decimal(n);
    NatOfDecimal(m);
    NatOfDecimal(n);
  }

  lemma CommitIsNotWitness(n: nat, id: Bytes)
    ensures CommitReceipt(n) != WitnessReceipt(id)
  {
    assert CommitReceipt(n)[0] == 'c' && WitnessReceipt(id)[0] == 'w';
  }

  ghost predicate HasReceipt(paths: map<Place, PathRow>, receipt: Bytes) {
    exists p :: p in paths && paths[p].receipt == receipt
  }

  ghost predicate IsCommitBelow(receipt: Bytes, next: nat) {
    exists n: nat :: n < next && receipt == CommitReceipt(n)
  }

  /** A fact's entry carries a commit receipt, a witness's entry its own. */
  ghost predicate EntryNumbered(p: Place, row: PathRow, next: nat) {
    if IsCommitBelow(row.receipt, next) then row.contextRef != ""
    else p.0 == WITNESS_OWNER && row.receipt == WitnessReceipt(row.recordID) && row.contextRef == ""
  }

  /** Commit receipts are exactly commit:0 to commit:next-1. */
  ghost predicate CommitsDense(paths: map<Place, PathRow>, next: nat) {
    && (forall n: nat :: n < next ==> HasReceipt(paths, CommitReceipt(n)))
    && (forall p :: p in paths ==> EntryNumbered(p, paths[p], next))
  }

  /** Commit receipts rise along every path. */
  ghost predicate CommitsRise(paths: map<Place, PathRow>) {
    forall p, q, m: nat, n: nat ::
      (p in paths && q in paths && p.0 == q.0 && p.1 < q.1
       && paths[p].receipt == CommitReceipt(m) && paths[q].receipt == CommitReceipt(n)) ==> m < n
  }

  lemma WitnessEntryKeepsCommits(paths: map<Place, PathRow>, next: nat, place: Place, row: PathRow)
    requires CommitsDense(paths, next) && CommitsRise(paths) && place !in paths
    requires place.0 == WITNESS_OWNER && row.receipt == WitnessReceipt(row.recordID) && row.contextRef == ""
    ensures CommitsDense(paths[place := row], next) && CommitsRise(paths[place := row])
  {
    forall n: nat ensures row.receipt != CommitReceipt(n) { CommitIsNotWitness(n, row.recordID); }
    assert EntryNumbered(place, row, next);
    hide *;
    OtherEntryKeepsDense(paths, next, place, row);
    OtherEntryKeepsRise(paths, place, row);
  }

  lemma OtherEntryKeepsDense(paths: map<Place, PathRow>, next: nat, place: Place, row: PathRow)
    requires CommitsDense(paths, next) && place !in paths && EntryNumbered(place, row, next)
    ensures CommitsDense(paths[place := row], next)
  {
    hide CommitReceipt, EntryNumbered;
    var paths' := paths[place := row];
    forall n: nat | n < next ensures HasReceipt(paths', CommitReceipt(n)) {
      assert HasReceipt(paths, CommitReceipt(n));
      var p :| p in paths && paths[p].receipt == CommitReceipt(n);
      assert p in paths' && paths'[p].receipt == CommitReceipt(n);
    }
  }

  lemma OtherEntryKeepsRise(paths: map<Place, PathRow>, place: Place, row: PathRow)
    requires CommitsRise(paths) && place !in paths && forall n: nat :: row.receipt != CommitReceipt(n)
    ensures CommitsRise(paths[place := row])
  {
    hide CommitReceipt;
  }

  /** A witness's entry is on the witness path and names a planned witness. */
  ghost predicate IsWitnessEntry(p: Place, row: PathRow, plans: seq<WitnessPlan>) {
    p.0 == WITNESS_OWNER && exists plan :: plan in plans && plan.recordID == row.recordID
  }

  /** Only entries of planned witnesses were added. */
  ghost predicate OnlyWitnesses(paths: map<Place, PathRow>, paths': map<Place, PathRow>, plans: seq<WitnessPlan>) {
    && Extends(paths', paths)
    && (forall p :: p in paths' && p !in paths ==> paths'[p].contextRef == "" && IsWitnessEntry(p, paths'[p], plans))
  }

  lemma OnlyWitnessesMore(paths: map<Place, PathRow>, paths1: map<Place, PathRow>, paths': map<Place, PathRow>,
                          plans: seq<WitnessPlan>)
    requires plans != [] && OnlyWitnesses(paths, paths1, [plans[0]]) && OnlyWitnesses(paths1, paths', plans[1..])
    ensures OnlyWitnesses(paths, paths', plans)
  {
    forall p | p in paths' && p !in paths ensures paths'[p].contextRef == "" && IsWitnessEntry(p, paths'[p], plans) {
      if p in paths1 {
        assert IsWitnessEntry(p, paths1[p], [plans[0]]) && plans[0] in plans;
      } else {
        var plan :| plan in plans[1..] && plan.recordID == paths'[p].recordID;
        assert plan in plans;
      }
    }
  }

  lemma NoWitness(paths: map<Place, PathRow>, plans: seq<WitnessPlan>)
    ensures OnlyWitnesses(paths, paths, plans)
  {
  }

  lemma OneWitness(paths: map<Place, PathRow>, place: Place, plan: WitnessPlan, intent: Bytes)
    requires place !in paths && place.0 == WITNESS_OWNER
    ensures var row := WitnessEntry(plan, intent);
            && row.receipt == WitnessReceipt(row.recordID) && row.contextRef == ""
            && OnlyWitnesses(paths, paths[place := row], [plan])
  {
    assert plan in [plan];
  }

  lemma InsertWitnessCommits(db: DB, plan: WitnessPlan, intent: Bytes, db': DB)
    requires Core(db) && InsertWitness(db, plan, intent) == Ok(db')
    requires CommitsDense(db.paths, db.nextCommit) && CommitsRise(db.paths)
    ensures CommitsDense(db'.paths, db'.nextCommit) && CommitsRise(db'.paths)
    ensures OnlyWitnesses(db.paths, db'.paths, [plan])
  {
    hide *;
    if plan.recordID in db.records {
      WitnessReused(db, plan, intent, db');
      NoWitness(db.paths, [plan]);
    } else {
      var db1 := NewWitness(db, plan, intent, db');
      var place := (WITNESS_OWNER, Next(db, WITNESS_OWNER));
      OneWitness(db.paths, place, plan, intent);
      WitnessEntryKeepsCommits(db.paths, db.nextCommit, place, WitnessEntry(plan, intent));
    }
  }

  lemma {:induction false} InsertWitnessesCommits(db: DB, plans: seq<WitnessPlan>, intent: Bytes, db': DB)
    requires Core(db) && DensePaths(db) && InsertWitnesses(db, plans, intent) == Ok(db')
    requires CommitsDense(db.paths, db.nextCommit) && CommitsRise(db.paths)
    ensures CommitsDense(db'.paths, db'.nextCommit) && CommitsRise(db'.paths)
    ensures OnlyWitnesses(db.paths, db'.paths, plans)
    decreases |plans|
  {
    if plans != [] {
      var db1 := InsertWitness(db, plans[0], intent).value;
      assert InsertWitnesses(db1, plans[1..], intent) == Ok(db');
      hide *;
      InsertWitnessKeeps(db, plans[0], intent, db1);
      InsertWitnessCommits(db, plans[0], intent, db1);
      InsertWitnessesCommits(db1, plans[1..], intent, db');
      OnlyWitnessesMore(db.paths, db1.paths, db'.paths, plans);
    }
  }

  lemma {:induction false} PathsAfterKeep(base: DB, start: DB, facts: seq<Fact>, n: nat, intent: Bytes, p: Place)
    requires n <= |facts| && p in start.paths
    requires forall i :: 0 <= i < n ==> PlaceOf(base, facts, i) !in start.paths
    ensures p in PathsAfter(base, start, facts, n, intent)
    ensures PathsAfter(base, start, facts, n, intent)[p] == start.paths[p]
  {
    if n > 0 { PathsAfterKeep(base, start, facts, n - 1, intent, p); }
  }

  lemma NumberTaken(base: DB, start: DB, db: DB, facts: seq<Fact>, intent: Bytes, n: nat)
    requires Inserted(base, start, db, facts, |facts|, intent)
    requires CommitsDense(start.paths, base.nextCommit) && n < base.nextCommit + |facts|
    ensures HasReceipt(db.paths, CommitReceipt(n))
  {
    if n < base.nextCommit {
      assert HasReceipt(start.paths, CommitReceipt(n));
      var p :| p in start.paths && start.paths[p].receipt == CommitReceipt(n);
      PathsAfterKeep(base, start, facts, |facts|, intent, p);
      assert db.paths[p].receipt == CommitReceipt(n);
    } else {
      PathsAfterAre(base, start, facts, |facts|, intent);
      var i: nat := n - base.nextCommit;
      var p := PlaceOf(base, facts, i);
      assert PathRowOf(base, facts, i, intent).receipt == CommitReceipt(n);
      assert p in db.paths && db.paths[p].receipt == CommitReceipt(n);
    }
  }

  lemma NumberKept(p: Place, row: PathRow, m: nat, n: nat)
    requires EntryNumbered(p, row, m) && m <= n
    ensures EntryNumbered(p, row, n)
  {
    if IsCommitBelow(row.receipt, m) {
      var c: nat :| c < m && row.receipt == CommitReceipt(c);
      assert c < n;
    } else {
      forall c: nat ensures row.receipt != CommitReceipt(c) { CommitIsNotWitness(c, row.recordID); }
    }
  }

  lemma EntryTaken(base: DB, start: DB, db: DB, facts: seq<Fact>, intent: Bytes, p: Place)
    requires Inserted(base, start, db, facts, |facts|, intent)
    requires CommitsDense(start.paths, base.nextCommit) && p in db.paths
    requires forall f :: f in facts ==> f.contextRef != ""
    ensures EntryNumbered(p, db.paths[p], base.nextCommit + |facts|)
  {
    if p in start.paths {
      PathsAfterKeep(base, start, facts, |facts|, intent, p);
      NumberKept(p, start.paths[p], base.nextCommit, base.nextCommit + |facts|);
    } else {
      PathsAfterAre(base, start, facts, |facts|, intent);
      var i :| 0 <= i < |facts| && p == PlaceOf(base, facts, i);
      assert facts[i] in facts;
      assert db.paths[p].receipt == CommitReceipt(base.nextCommit + i);
      assert IsCommitBelow(db.paths[p].receipt, base.nextCommit + |facts|);
    }
  }

  /** The batch's entries carry the next commit numbers. */
  lemma InsertedCommits(base: DB, start: DB, db: DB, facts: seq<Fact>, intent: Bytes)
    requires Inserted(base, start, db, facts, |facts|, intent)
    requires CommitsDense(start.paths, base.nextCommit)
    requires forall f :: f in facts ==> f.contextRef != ""
    ensures CommitsDense(db.paths, base.nextCommit + |facts|)
  {
    forall n: nat | n < base.nextCommit + |facts| ensures HasReceipt(db.paths, CommitReceipt(n)) {
      NumberTaken(base, start, db, facts, intent, n);
    }
    forall p | p in db.paths ensures EntryNumbered(p, db.paths[p], base.nextCommit + |facts|) {
      EntryTaken(base, start, db, facts, intent, p);
    }
  }

  /** An entry is either an earlier one, numbered below base.nextCommit, or the i-th fact's. */
  lemma EntryOrigin(base: DB, start: DB, db: DB, facts: seq<Fact>, intent: Bytes, p: Place, n: nat) returns (i: int)
    requires Inserted(base, start, db, facts, |facts|, intent)
    requires CommitsDense(start.paths, base.nextCommit)
    requires p in db.paths && db.paths[p].receipt == CommitReceipt(n)
    ensures i == -1 ==> p in start.paths && start.paths[p].receipt == CommitReceipt(n) && n < base.nextCommit
    ensures i != -1 ==> 0 <= i < |facts| && p == PlaceOf(base, facts, i) && n == base.nextCommit + i
  {
    if p in start.paths {
      PathsAfterKeep(base, start, facts, |facts|, intent, p);
      CommitIsNotWitness(n, start.paths[p].recordID);
      assert EntryNumbered(p, start.paths[p], base.nextCommit);
      var m: nat :| m < base.nextCommit && start.paths[p].receipt == CommitReceipt(m);
      CommitReceiptInjective(m, n);
      i := -1;
    } else {
      PathsAfterAre(base, start, facts, |facts|, intent);
      i :| 0 <= i < |facts| && p == PlaceOf(base, facts, i);
      CommitReceiptInjective(base.nextCommit + i, n);
    }
  }

  lemma InsertedRise(base: DB, start: DB, db: DB, facts: seq<Fact>, intent: Bytes, p: Place, q: Place, m: nat, n: nat)
    requires DensePaths(start) && (forall o :: Next(base, o) <= Next(start, o))
    requires Inserted(base, start, db, facts, |facts|, intent)
    requires CommitsDense(start.paths, base.nextCommit) && CommitsRise(start.paths)
    requires p in db.paths && q in db.paths && p.0 == q.0 && p.1 < q.1
    requires db.paths[p].receipt == CommitReceipt(m) && db.paths[q].receipt == CommitReceipt(n)
    ensures m < n
  {
    var i := EntryOrigin(base, start, db, facts, intent, p, m);
    var j := EntryOrigin(base, start, db, facts, intent, q, n);
    if i != -1 {
      OwnersUnmoved(base, start, facts, i);
      if j != -1 && j <= i {
        if j < i { PlacesRise(base, facts, j, i); }
      }
    }
  }

  lemma InsertedCommitsRise(base: DB, start: DB, db: DB, facts: seq<Fact>, intent: Bytes)
    requires DensePaths(start) && (forall o :: Next(base, o) <= Next(start, o))
    requires Inserted(base, start, db, facts, |facts|, intent)
    requires CommitsDense(start.paths, base.nextCommit) && CommitsRise(start.paths)
    ensures CommitsRise(db.paths)
  {
    forall p, q, m: nat, n: nat | p in db.paths && q in db.paths && p.0 == q.0 && p.1 < q.1
      && db.paths[p].receipt == CommitReceipt(m) && db.paths[q].receipt == CommitReceipt(n)
      ensures m < n
    {
      InsertedRise(base, start, db, facts, intent, p, q, m, n);
    }
  }
}
