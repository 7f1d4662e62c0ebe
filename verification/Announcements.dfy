/** What the bus is told about a committed batch, draft by draft. */
module Announcements {
  import opened Seqs
  import opened Utf8
  import opened Trace
  import opened Append
  import opened StagingLaws
  import opened Origins
  import opened TraceStore

  /** The event tells the draft under its record id; its causal parents are the explicit ones. */
  ghost predicate Announces(intent: Bytes, owner: Bytes, o: Origin, d: RecordDraft, id: Bytes, e: EffectEvent) {
    && e.recordID == id && e.intent == intent && e.owner == owner
    && e.mode == d.mode && e.schemaRef == d.schemaRef && e.payload == d.payload
    && e.kindLabel == (if d.kindLabel == "" then d.schemaRef else d.kindLabel)
    && e.causalParents == o.parents + d.causedBy
  }

  ghost predicate AllAnnounced(intent: Bytes, owners: seq<Bytes>, origins: seq<Origin>, drafts: seq<RecordDraft>,
                               ids: seq<Bytes>, events: seq<EffectEvent>)
  {
    && |owners| == |origins| == |drafts| == |ids| == |events|
    && forall n :: 0 <= n < |ids| ==> Announces(intent, owners[n], origins[n], drafts[n], ids[n], events[n])
  }

  lemma AnnouncedApart(intent: Bytes, owners: seq<Bytes>, origins: seq<Origin>, drafts: seq<RecordDraft>,
                       ids: seq<Bytes>, events: seq<EffectEvent>, owners2: seq<Bytes>, origins2: seq<Origin>,
                       drafts2: seq<RecordDraft>, ids2: seq<Bytes>, events2: seq<EffectEvent>)
    requires AllAnnounced(intent, owners, origins, drafts, ids, events)
    requires AllAnnounced(intent, owners2, origins2, drafts2, ids2, events2)
    ensures AllAnnounced(intent, owners + owners2, origins + origins2, drafts + drafts2, ids + ids2, events + events2)
  {
    hide Announces;
  }

  lemma {:induction false} GroupAnnounced(intent: Bytes, g: AppendGroup, drafts: seq<RecordDraft>, ids: seq<Bytes>)
    requires |drafts| == |ids|
    ensures AllAnnounced(intent, Repeat(g.owner, |drafts|), Copies(OriginOf(g), |drafts|), drafts, ids,
                         GroupEvents(intent, g, drafts, ids))
  {
    if drafts != [] {
      GroupAnnounced(intent, g, drafts[1..], ids[1..]);
      var owners, origins := Repeat(g.owner, |drafts| - 1), Copies(OriginOf(g), |drafts| - 1);
      var events := GroupEvents(intent, g, drafts[1..], ids[1..]);
      OneAnnounced(intent, g, drafts[0], ids[0]);
      hide AllAnnounced, EventOf;
      AnnouncedApart(intent, [g.owner], [OriginOf(g)], [drafts[0]], [ids[0]], [EventOf(intent, g, drafts[0], ids[0])],
                     owners, origins, drafts[1..], ids[1..], events);
      RepeatFirst(g.owner, |drafts|);
      CopiesFirst(OriginOf(g), |drafts|);
      Rejoin(drafts, 1, [drafts[0]], drafts[1..]);
      Rejoin(ids, 1, [ids[0]], ids[1..]);
    }
  }

  lemma OneAnnounced(intent: Bytes, g: AppendGroup, d: RecordDraft, id: Bytes)
    ensures AllAnnounced(intent, [g.owner], [OriginOf(g)], [d], [id], [EventOf(intent, g, d, id)])
  {
  }

  lemma {:induction false} IgnoresRest(intent: Bytes, g: AppendGroup, drafts: seq<RecordDraft>, ids: seq<Bytes>)
    requires |drafts| <= |ids|
    ensures GroupEvents(intent, g, drafts, ids) == GroupEvents(intent, g, drafts, ids[..|drafts|])
  {
    if drafts != [] {
      IgnoresRest(intent, g, drafts[1..], ids[1..]);
      assert ids[..|drafts|][1..] == ids[1..][..|drafts| - 1];
    }
  }

  /** The bus is told of every draft of a batch, in order and under the id it was committed as. */
  lemma {:induction false} BatchAnnounced(intent: Bytes, groups: seq<AppendGroup>, ids: seq<Bytes>)
    requires |ids| == |AllDrafts(groups)|
    ensures AllAnnounced(intent, AllOwners(groups), AllOrigins(groups), AllDrafts(groups), ids,
                         BatchEvents(intent, groups, ids))
  {
    if groups != [] {
      var g, n := groups[0], |groups[0].drafts|;
      hide AllAnnounced, GroupEvents, OriginOf, Repeat, Copies;
      BatchAnnounced(intent, groups[1..], ids[n..]);
      GroupAnnounced(intent, g, g.drafts, ids[..n]);
      IgnoresRest(intent, g, g.drafts, ids);
      AnnouncedApart(intent, Repeat(g.owner, n), Copies(OriginOf(g), n), g.drafts, ids[..n],
                     GroupEvents(intent, g, g.drafts, ids[..n]), AllOwners(groups[1..]), AllOrigins(groups[1..]),
                     AllDrafts(groups[1..]), ids[n..], BatchEvents(intent, groups[1..], ids[n..]));
      Rejoin(ids, n, ids[..n], ids[n..]);
    }
  }
}
