/** The loops that check the shape of a batch and resolve the causes of its drafts, as functions say. */
module Store {
  import opened Wrappers
  import opened Seqs
  import opened Utf8
  import opened Trace
  import opened Digests
  import opened Tables
  import opened Append

  /** The outcome of a transaction step: the tables it should leave, or the error it should report */
  ghost predicate Does(expected: Result<DB>, e: Option<Error>, after: DB) {
    match expected
    case Ok(db) => e == None && after == db
    case Err(x) => e == Some(x)
  }

  // ---- Loops over values ---------------------------------------------------

  /** deduplicate */
  method DeduplicateStrings(ss: seq<Bytes>) returns (result: seq<Bytes>)
    ensures result == Deduplicate(ss)
  {
    var seen: set<Bytes> := {};
    result := [];
    for i := 0 to |ss|
      invariant result == Deduplicate(ss[..i]) && forall x :: x in seen <==> x in result
    {
      assert ss[..i + 1][..i] == ss[..i];
      if ss[i] !in seen {
        seen := seen + {ss[i]};
        result := result + [ss[i]];
      }
    }
    assert ss[..|ss|] == ss;
  }

  lemma DistinctSnoc<T>(s: seq<T>, x: T)
    ensures Append.Distinct(s + [x]) <==> Append.Distinct(s) && x !in s
  {
    var t := s + [x];
    if Append.Distinct(t) {
      assert forall i :: 0 <= i < |s| ==> t[i] == s[i];
      assert t[|s|] == x;
    }
  }

  lemma ResolveOne(ref: Bytes, locals: map<Bytes, Bytes>)
    ensures ResolveLocals([ref], locals) == if ref in locals then Ok([locals[ref]]) else Err(StoreLaw)
  {
    assert [ref][1..] == [];
    if ref in locals { assert [locals[ref]] + [] == [locals[ref]]; }
  }

  lemma {:induction false} ResolveLocalsSnoc(refs: seq<Bytes>, locals: map<Bytes, Bytes>, i: nat)
    requires i < |refs|
    ensures var before, after := ResolveLocals(refs[..i], locals), ResolveLocals(refs[..i + 1], locals);
            if before.Err? then after == Err(StoreLaw)
            else if refs[i] in locals then after == Ok(before.value + [locals[refs[i]]]) else after == Err(StoreLaw)
    decreases i
  {
    if i > 0 {
      assert refs[..i + 1][1..] == refs[1..][..i] && refs[..i][1..] == refs[1..][..i - 1] && refs[1..][i - 1] == refs[i];
      ResolveLocalsSnoc(refs[1..], locals, i - 1);
      var init := ResolveLocals(refs[1..][..i - 1], locals);
      if refs[0] in locals && init.Ok? && refs[i] in locals {
        Associate([locals[refs[0]]], init.value, [locals[refs[i]]]);
      }
    } else {
      assert refs[..i] == [] && refs[..i + 1] == [refs[i]];
      ResolveOne(refs[i], locals);
      if refs[i] in locals { assert [] + [locals[refs[i]]] == [locals[refs[i]]]; }
    }
  }

  lemma {:induction false} ResolveLocalsFails(refs: seq<Bytes>, locals: map<Bytes, Bytes>, i: nat)
    requires i <= |refs| && ResolveLocals(refs[..i], locals) == Err(StoreLaw)
    ensures ResolveLocals(refs, locals) == Err(StoreLaw)
    decreases |refs| - i
  {
    if i == |refs| {
      assert refs[..i] == refs;
    } else {
      ResolveLocalsSnoc(refs, locals, i);
      ResolveLocalsFails(refs, locals, i + 1);
    }
  }

  /** The parents of the append-local references of a draft */
  method LocalParents(refs: seq<Bytes>, locals: map<Bytes, Bytes>) returns (r: Result<seq<Bytes>>)
    ensures r == ResolveLocals(refs, locals)
  {
    var local: seq<Bytes> := [];
    assert refs[..0] == [];
    for i := 0 to |refs|
      invariant ResolveLocals(refs[..i], locals) == Ok(local)
    {
      ResolveLocalsSnoc(refs, locals, i);
      if refs[i] !in locals {
        ResolveLocalsFails(refs, locals, i + 1);
        return Err(StoreLaw);
      }
      local := local + [locals[refs[i]]];
    }
    assert refs[..|refs|] == refs;
    return Ok(local);
  }

  lemma DuplicateStays<T>(all: seq<T>, i: nat)
    requires i < |all| && all[i] in all[..i]
    ensures !Append.Distinct(all)
  {
    var j :| 0 <= j < i && all[..i][j] == all[i];
    assert all[j] == all[i];
  }

  /** Merging the parents refuses duplicates instead of removing them. */
  method MergeParents(all: seq<Bytes>) returns (ok: bool)
    ensures ok <==> Append.Distinct(all)
  {
    var seen: set<Bytes> := {};
    for i := 0 to |all|
      invariant Append.Distinct(all[..i]) && forall x :: x in seen <==> x in all[..i]
    {
      if all[i] in seen {
        DuplicateStays(all, i);
        return false;
      }
      DistinctSnoc(all[..i], all[i]);
      assert all[..i + 1] == all[..i] + [all[i]];
      seen := seen + {all[i]};
    }
    assert all[..|all|] == all;
    return true;
  }

  /** resolvedCauses */
  method ResolveCauses(g: AppendGroup, d: RecordDraft, locals: map<Bytes, Bytes>) returns (r: Result<seq<Bytes>>)
    ensures r == ResolvedCauses(g, d, locals)
  {
    var local := LocalParents(d.causedByLocal, locals);
    if local.Err? { return Err(local.error); }
    var result := g.causalParents + d.causedBy + local.value;
    var ok := MergeParents(result);
    return if ok then Ok(result) else Err(BadBatch);
  }

  // ---- Batch shape ---------------------------------------------------------

  lemma {:induction false} LocalIDsConcat(a: seq<RecordDraft>, b: seq<RecordDraft>)
    ensures LocalIDs(a + b) == LocalIDs(a) + LocalIDs(b)
  {
    if a == [] {
      assert a + b == b;
    } else {
      assert (a + b)[1..] == a[1..] + b;
      LocalIDsConcat(a[1..], b);
    }
  }

  lemma {:induction false} AllDraftsSnoc(groups: seq<AppendGroup>, i: nat)
    requires i < |groups|
    ensures AllDrafts(groups[..i + 1]) == AllDrafts(groups[..i]) + groups[i].drafts
    decreases i
  {
    if i > 0 {
      assert groups[..i + 1][1..] == groups[1..][..i] && groups[..i][1..] == groups[1..][..i - 1];
      AllDraftsSnoc(groups[1..], i - 1);
    } else {
      assert groups[..1][1..] == [] && groups[..0] == [];
      assert AllDrafts([]) == [];
    }
  }

  lemma {:induction false} AllDraftsConcat(a: seq<AppendGroup>, b: seq<AppendGroup>)
    ensures AllDrafts(a + b) == AllDrafts(a) + AllDrafts(b)
  {
    if a == [] {
      assert a + b == b;
    } else {
      assert (a + b)[1..] == a[1..] + b;
      AllDraftsConcat(a[1..], b);
    }
  }

  /** What is wrong with a prefix of a batch is wrong with the batch. */
  lemma BadDraftIsBad(batch: AppendBatch, before: seq<RecordDraft>, d: RecordDraft, rest: seq<RecordDraft>)
    requires AllDrafts(batch.groups) == before + [d] + rest
    requires !DraftShape(d) || (d.localID != "" && d.localID in LocalIDs(before))
    ensures !BatchShape(batch)
  {
    var all := AllDrafts(batch.groups);
    assert all[|before|] == d && d in all;
    if DraftShape(d) {
      LocalIDsConcat(before + [d], rest);
      LocalIDsConcat(before, [d]);
      assert LocalIDs([d]) == [d.localID];
      var ids := LocalIDs(all);
      assert ids[|LocalIDs(before)|] == d.localID && ids[..|LocalIDs(before)|] == LocalIDs(before);
      DuplicateStays(ids, |LocalIDs(before)|);
    }
  }

  /** What the loops of validateBatchShape have accepted */
  ghost predicate Accepted(before: seq<RecordDraft>, seen: set<Bytes>) {
    && (forall d :: d in before ==> DraftShape(d))
    && Append.Distinct(LocalIDs(before))
    && (forall x :: x in seen <==> x in LocalIDs(before))
  }

  lemma AcceptOne(before: seq<RecordDraft>, d: RecordDraft, seen: set<Bytes>)
    requires Accepted(before, seen) && DraftShape(d) && (d.localID != "" ==> d.localID !in seen)
    ensures Accepted(before + [d], if d.localID == "" then seen else seen + {d.localID})
  {
    LocalIDsConcat(before, [d]);
    assert [d][1..] == [];
    if d.localID != "" {
      DistinctSnoc(LocalIDs(before), d.localID);
    } else {
      assert LocalIDs(before) + [] == LocalIDs(before);
    }
    hide DraftShape, LocalIDs, Append.Distinct;
    assert forall x :: x in before + [d] <==> x in before || x == d;
  }

  /** The drafts of one group, checked one after the other */
  method ValidateDrafts(batch: AppendBatch, before: seq<RecordDraft>, drafts: seq<RecordDraft>, rest: seq<RecordDraft>,
                        seen: set<Bytes>) returns (ok: bool, seen': set<Bytes>)
    requires AllDrafts(batch.groups) == before + drafts + rest && Accepted(before, seen)
    ensures ok ==> Accepted(before + drafts, seen')
    ensures !ok ==> !BatchShape(batch)
  {
    hide *;
    seen' := seen;
    NoneAccepted(before, drafts);
    for j := 0 to |drafts|
      invariant Accepted(before + drafts[..j], seen')
    {
      var d := drafts[j];
      SplitDrafts(before, drafts, rest, j);
      if !DraftShape(d) {
        BadDraftIsBad(batch, before + drafts[..j], d, drafts[j + 1..] + rest);
        return false, seen';
      }
      if d.localID != "" && d.localID in seen' {
        SeenIsLocal(before + drafts[..j], seen', d.localID);
        BadDraftIsBad(batch, before + drafts[..j], d, drafts[j + 1..] + rest);
        return false, seen';
      }
      AcceptOne(before + drafts[..j], d, seen');
      if d.localID != "" { seen' := seen' + {d.localID}; }
    }
    assert drafts[..|drafts|] == drafts;
    return true, seen';
  }

  lemma SeenIsLocal(before: seq<RecordDraft>, seen: set<Bytes>, id: Bytes)
    requires Accepted(before, seen) && id in seen
    ensures id in LocalIDs(before)
  {
  }

  lemma NoneAccepted(before: seq<RecordDraft>, drafts: seq<RecordDraft>)
    ensures before + drafts[..0] == before
  {
  }

  lemma SplitDrafts(before: seq<RecordDraft>, drafts: seq<RecordDraft>, rest: seq<RecordDraft>, j: nat)
    requires j < |drafts|
    ensures before + drafts + rest == (before + drafts[..j]) + [drafts[j]] + (drafts[j + 1..] + rest)
    ensures before + drafts[..j + 1] == (before + drafts[..j]) + [drafts[j]]
  {
  }

  lemma GroupsSplit(groups: seq<AppendGroup>, i: nat)
    requires i < |groups|
    ensures AllDrafts(groups) == AllDrafts(groups[..i]) + groups[i].drafts + AllDrafts(groups[i + 1..])
  {
    Rejoin(groups, i + 1, groups[..i + 1], groups[i + 1..]);
    AllDraftsConcat(groups[..i + 1], groups[i + 1..]);
    AllDraftsSnoc(groups, i);
  }

  /** validateBatchShape */
  method ValidateBatchShape(batch: AppendBatch) returns (ok: bool)
    ensures ok <==> BatchShape(batch)
  {
    if batch.intent == "" { return false; }
    var groups := batch.groups;
    var seen: set<Bytes> := {};
    assert AllDrafts(groups[..0]) == [];
    for i := 0 to |groups|
      invariant (forall g :: g in groups[..i] ==> g.owner != "") && Accepted(AllDrafts(groups[..i]), seen)
    {
      hide BatchShape, Accepted;
      if groups[i].owner == "" {
        NoOwner(batch, i);
        return false;
      }
      GroupsSplit(groups, i);
      ok, seen := ValidateDrafts(batch, AllDrafts(groups[..i]), groups[i].drafts, AllDrafts(groups[i + 1..]), seen);
      if !ok { return false; }
      AllDraftsSnoc(groups, i);
      assert groups[..i + 1] == groups[..i] + [groups[i]];
    }
    assert groups[..|groups|] == groups;
    return true;
  }

  lemma NoOwner(batch: AppendBatch, i: nat)
    requires i < |batch.groups| && batch.groups[i].owner == ""
    ensures !BatchShape(batch)
  {
    assert batch.groups[i] in batch.groups;
  }
}
