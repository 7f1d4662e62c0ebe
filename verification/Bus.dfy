/** The effect bus as interleaved micro-steps. */
module Bus {
  import opened Utf8
  import opened Trace

  // ---- States --------------------------------------------------------------

  /** An event, tagged with the goroutine that published it and its position among that goroutine's events */
  datatype Item = Item(publisher: nat, number: nat, event: EffectEvent)

  /** A buffered channel, and what it has handed to its receiver so far */
  datatype Channel = Channel(capacity: nat, buffer: seq<Item>, closed: bool, delivered: seq<Item>)

  /** Where a running Publish stands: about to try a subscriber, about to drain it, or about to try it again */
  datatype Stage = Trying | Draining(target: nat) | Retrying(target: nat)

  datatype Publisher = Publisher(number: nat, todo: set<nat>, stage: Stage)

  datatype State = State(
    subs: map<Bytes, nat>,
    chans: seq<Channel>,
    size: nat,
    closed: bool,
    active: map<nat, Publisher>,           // the publishers that hold the read lock
    log: map<nat, seq<EffectEvent>>,       // what each goroutine has published
    drops: seq<(nat, nat, nat)>)           // dequeued by (publisher, event number, channel)

  const DEFAULT_SIZE: nat := 64

  /** NewEffectBus */
  function NewBus(bufferSize: int): State {
    State(map[], [], if bufferSize <= 0 then DEFAULT_SIZE else bufferSize, false, map[], map[], [])
  }

  function LogOf(log: map<nat, seq<EffectEvent>>, p: nat): seq<EffectEvent> { if p in log then log[p] else [] }

  function Log(s: State, p: nat): seq<EffectEvent> { LogOf(s.log, p) }

  // ---- Micro-steps ---------------------------------------------------------

  datatype Action =
    | Subscribe(id: Bytes)
    | Unsubscribe(id: Bytes)
    | Close
    | Begin(publisher: nat, event: EffectEvent)
    | TrySend(publisher: nat, channel: nat)
    | Drain(publisher: nat)
    | Retry(publisher: nat)
    | Finish(publisher: nat)
    | Receive(channel: nat)

  /** The write lock is free when no publisher holds the read lock. */
  predicate Enabled(s: State, a: Action) {
    match a
    case Subscribe(_) => s.active == map[]
    case Unsubscribe(_) => s.active == map[]
    case Close => s.active == map[]
    case Begin(p, _) => p !in s.active
    case TrySend(p, c) => p in s.active && s.active[p].stage == Trying && c in s.active[p].todo && c < |s.chans|
    case Drain(p) => p in s.active && s.active[p].stage.Draining? && s.active[p].stage.target < |s.chans|
    case Retry(p) => p in s.active && s.active[p].stage.Retrying? && s.active[p].stage.target < |s.chans|
    case Finish(p) => p in s.active && s.active[p].stage == Trying && s.active[p].todo == {}
    case Receive(c) => c < |s.chans| && s.chans[c].buffer != []
  }

  function CloseChannels(chans: seq<Channel>, which: set<nat>): (r: seq<Channel>)
    ensures |r| == |chans|
  {
    seq(|chans|, i requires 0 <= i < |chans| => if i in which then chans[i].(closed := true) else chans[i])
  }

  function Values(subs: map<Bytes, nat>): set<nat> { set id | id in subs :: subs[id] }

  predicate HasRoom(ch: Channel) { |ch.buffer| < ch.capacity }

  function Put(ch: Channel, item: Item): Channel { ch.(buffer := ch.buffer + [item]) }

  function DropOldest(ch: Channel): Channel { if ch.buffer == [] then ch else ch.(buffer := ch.buffer[1..]) }

  function ItemOf(s: State, p: nat): Item
    requires p in s.active && s.active[p].number < |Log(s, p)|
  {
    Item(p, s.active[p].number, Log(s, p)[s.active[p].number])
  }

  /** The channel is done for this Publish. */
  function Done(pub: Publisher, c: nat): Publisher { pub.(todo := pub.todo - {c}, stage := Trying) }

  /** One atomic step; Publish is Begin, then per subscriber TrySend and, if it was full, Drain and Retry, then Finish. */
  function Apply(s: State, a: Action): State
    requires Enabled(s, a)
    requires forall p :: p in s.active ==> s.active[p].number < |Log(s, p)|
  {
    match a
    case Subscribe(id) =>
      if s.closed then s.(chans := s.chans + [Channel(0, [], true, [])]) else
        var chans := CloseChannels(s.chans, if id in s.subs then {s.subs[id]} else {});
        s.(chans := chans + [Channel(s.size, [], false, [])], subs := s.subs[id := |chans|])
    case Unsubscribe(id) =>
      if id in s.subs then s.(chans := CloseChannels(s.chans, {s.subs[id]}), subs := s.subs - {id}) else s
    case Close =>
      if s.closed then s else s.(closed := true, chans := CloseChannels(s.chans, Values(s.subs)), subs := map[])
    case Begin(p, event) =>
      if s.closed then s else
        s.(active := s.active[p := Publisher(|Log(s, p)|, Values(s.subs), Trying)], log := s.log[p := Log(s, p) + [event]])
    case TrySend(p, c) =>
      if HasRoom(s.chans[c])
      then s.(chans := s.chans[c := Put(s.chans[c], ItemOf(s, p))], active := s.active[p := Done(s.active[p], c)])
      else s.(active := s.active[p := s.active[p].(stage := Draining(c))])
    case Drain(p) =>
      var c := s.active[p].stage.target;
      s.(chans := s.chans[c := DropOldest(s.chans[c])],
         drops := if s.chans[c].buffer == [] then s.drops else s.drops + [(p, s.active[p].number, c)],
         active := s.active[p := s.active[p].(stage := Retrying(c))])
    case Retry(p) =>
      var c := s.active[p].stage.target;
      s.(chans := if HasRoom(s.chans[c]) then s.chans[c := Put(s.chans[c], ItemOf(s, p))] else s.chans,
         active := s.active[p := Done(s.active[p], c)])
    case Finish(p) => s.(active := s.active - {p})
    case Receive(c) =>
      var ch := s.chans[c];
      s.(chans := s.chans[c := ch.(buffer := ch.buffer[1..], delivered := ch.delivered + [ch.buffer[0]])])
  }

  // ---- The invariant -------------------------------------------------------

  /** Everything a channel has accepted and not dropped, in order */
  function History(ch: Channel): seq<Item> { ch.delivered + ch.buffer }

  /** The registered channels are open and distinct; every other channel is closed. */
  ghost predicate Registered(subs: map<Bytes, nat>, chans: seq<Channel>) {
    && (forall id :: id in subs ==> subs[id] < |chans| && !chans[subs[id]].closed)
    && (forall id, other :: id in subs && other in subs && subs[id] == subs[other] ==> id == other)
    && (forall c :: 0 <= c < |chans| && !chans[c].closed ==> c in Values(subs))
  }

  /** A publisher still has only registered channels to serve, the one it is working on among them. */
  ghost predicate Serving(subs: map<Bytes, nat>, pub: Publisher) {
    && pub.todo <= Values(subs)
    && (pub.stage != Trying ==> pub.stage.target in pub.todo)
  }

  ghost predicate InOrder(items: seq<Item>) {
    forall i, j :: 0 <= i < j < |items| && items[i].publisher == items[j].publisher ==> items[i].number < items[j].number
  }

  ghost predicate Genuine(log: map<nat, seq<EffectEvent>>, item: Item) {
    item.number < |LogOf(log, item.publisher)| && item.event == LogOf(log, item.publisher)[item.number]
  }

  /** A history holds genuine events, each publisher's in the order it published them. */
  ghost predicate Faithful(log: map<nat, seq<EffectEvent>>, history: seq<Item>) {
    InOrder(history) && forall i :: 0 <= i < |history| ==> Genuine(log, history[i])
  }

  /** Every event of p in the history is older than the given number. */
  ghost predicate Older(history: seq<Item>, p: nat, number: nat) {
    forall i :: 0 <= i < |history| && history[i].publisher == p ==> history[i].number < number
  }

  /** The event being published has not reached the channels that are still to be served. */
  ghost predicate Unserved(p: nat, pub: Publisher, chans: seq<Channel>) {
    forall c :: c in pub.todo && c < |chans| ==> Older(History(chans[c]), p, pub.number)
  }

  ghost predicate Publishing(s: State) {
    forall p :: p in s.active ==>
      s.active[p].number == |Log(s, p)| - 1 && Serving(s.subs, s.active[p]) && Unserved(p, s.active[p], s.chans)
  }

  ghost predicate ChannelHolds(log: map<nat, seq<EffectEvent>>, ch: Channel) {
    |ch.buffer| <= ch.capacity && Faithful(log, History(ch))
  }

  ghost predicate ChannelsHold(s: State) { forall c :: 0 <= c < |s.chans| ==> ChannelHolds(s.log, s.chans[c]) }

  /** A dequeue belongs to a past Publish, or to a channel the running one is done with or is about to retry. */
  ghost predicate Dropped(s: State, d: (nat, nat, nat)) {
    && d.1 < |Log(s, d.0)|
    && (d.0 in s.active && d.1 == s.active[d.0].number ==>
          d.2 !in s.active[d.0].todo || s.active[d.0].stage == Retrying(d.2))
  }

  /** No Publish dequeues twice from the same channel. */
  ghost predicate DropsOnce(s: State) {
    && (forall i, j :: 0 <= i < j < |s.drops| ==> s.drops[i] != s.drops[j])
    && (forall d :: d in s.drops ==> Dropped(s, d))
  }

  ghost predicate Inv(s: State) {
    && s.size > 0 && (s.closed ==> s.subs == map[])
    && Registered(s.subs, s.chans)
    && Publishing(s)
    && ChannelsHold(s)
    && DropsOnce(s)
  }

  // ---- Registration --------------------------------------------------------

  /** Closing changes nothing else about a channel: what is buffered can still be received. */
  ghost predicate SameButClosed(chans: seq<Channel>, chans': seq<Channel>, which: set<nat>) {
    && |chans| <= |chans'|
    && forall c :: 0 <= c < |chans| ==>
         && chans'[c].buffer == chans[c].buffer && chans'[c].delivered == chans[c].delivered
         && chans'[c].capacity == chans[c].capacity && (chans'[c].closed <==> chans[c].closed || c in which)
  }

  ghost predicate SameOthers(subs: map<Bytes, nat>, subs': map<Bytes, nat>, id: Bytes) {
    forall other :: other != id ==>
      (other in subs <==> other in subs') && (other in subs ==> subs'[other] == subs[other])
  }

  function Old(s: State, id: Bytes): set<nat> { if id in s.subs then {s.subs[id]} else {} }

  /**
    * Subscribing registers a new empty channel of the bus's size and closes the one it replaces; on a closed bus it
    * gives a closed channel and registers nothing.
    */
  lemma SubscribeSays(s: State, id: Bytes)
    requires Inv(s) && s.active == map[]
    ensures var t := Apply(s, Subscribe(id));
            && |t.chans| == |s.chans| + 1 && t.chans[|s.chans|].buffer == [] && t.closed == s.closed
            && (if s.closed then t.chans[|s.chans|].closed && SameButClosed(s.chans, t.chans, {}) && t.subs == s.subs
                else && !t.chans[|s.chans|].closed && t.chans[|s.chans|].capacity == s.size
                     && id in t.subs && t.subs[id] == |s.chans| && SameOthers(s.subs, t.subs, id)
                     && SameButClosed(s.chans, t.chans, Old(s, id)))
  {
    hide Inv;
  }

  /** Unsubscribing unregisters the subscriber and closes its channel, and no other. */
  lemma UnsubscribeSays(s: State, id: Bytes)
    requires Inv(s) && s.active == map[]
    ensures var t := Apply(s, Unsubscribe(id));
            && id !in t.subs && SameOthers(s.subs, t.subs, id) && |t.chans| == |s.chans|
            && SameButClosed(s.chans, t.chans, Old(s, id))
  {
    hide Inv;
  }

  /** A closed bus has no subscribers and no open channel. */
  lemma CloseSays(s: State)
    requires Inv(s) && s.active == map[]
    ensures var t := Apply(s, Close);
            && t.closed && t.subs == map[] && |t.chans| == |s.chans| && SameButClosed(s.chans, t.chans, Values(s.subs))
            && forall c :: 0 <= c < |t.chans| ==> t.chans[c].closed
  {
    hide Publishing, ChannelsHold, DropsOnce;
    if s.closed { assert Values(s.subs) == {}; }
  }

  /** A bus made without a positive size buffers 64 events for each subscriber. */
  lemma DefaultSize(bufferSize: int)
    ensures NewBus(bufferSize).size == if bufferSize <= 0 then 64 else bufferSize
  {
  }

  // ---- Channels ------------------------------------------------------------

  lemma PutHistory(ch: Channel, item: Item)
    ensures History(Put(ch, item)) == History(ch) + [item]
  {
  }

  lemma PutHolds(log: map<nat, seq<EffectEvent>>, ch: Channel, item: Item)
    requires ChannelHolds(log, ch) && HasRoom(ch) && Genuine(log, item)
    requires Older(History(ch), item.publisher, item.number)
    ensures ChannelHolds(log, Put(ch, item))
  {
    PutHistory(ch, item);
  }

  /** Dropping removes one item; every item left was there, in the same order. */
  lemma DropHolds(log: map<nat, seq<EffectEvent>>, ch: Channel)
    requires ChannelHolds(log, ch)
    ensures ChannelHolds(log, DropOldest(ch))
    ensures forall p, n :: Older(History(ch), p, n) ==> Older(History(DropOldest(ch)), p, n)
  {
    var before, after, d := History(ch), History(DropOldest(ch)), |ch.delivered|;
    if ch.buffer != [] {
      assert forall i :: 0 <= i < d ==> after[i] == before[i];
      assert forall i :: d <= i < |after| ==> after[i] == before[i + 1];
    }
  }

  lemma ReceiveHistory(ch: Channel)
    requires ch.buffer != []
    ensures History(ch.(buffer := ch.buffer[1..], delivered := ch.delivered + [ch.buffer[0]])) == History(ch)
  {
  }

  lemma LogGrows(log: map<nat, seq<EffectEvent>>, p: nat, event: EffectEvent, ch: Channel)
    requires ChannelHolds(log, ch)
    ensures ChannelHolds(log[p := LogOf(log, p) + [event]], ch)
  {
    var log' := log[p := LogOf(log, p) + [event]];
    forall i | 0 <= i < |History(ch)| ensures Genuine(log', History(ch)[i]) {
      assert Genuine(log, History(ch)[i]);
    }
  }

  lemma HistoryOlder(log: map<nat, seq<EffectEvent>>, ch: Channel, p: nat)
    requires ChannelHolds(log, ch)
    ensures Older(History(ch), p, |LogOf(log, p)|)
  {
    forall i | 0 <= i < |History(ch)| && History(ch)[i].publisher == p ensures History(ch)[i].number < |LogOf(log, p)| {
      assert Genuine(log, History(ch)[i]);
    }
  }

  /** Replacing one channel by one that holds and is no newer for the others keeps the channels. */
  lemma OneChannel(s: State, c: nat, ch: Channel, s': State)
    requires ChannelsHold(s) && c < |s.chans| && s'.chans == s.chans[c := ch] && s'.log == s.log
    requires ChannelHolds(s.log, ch)
    ensures ChannelsHold(s')
  {
  }

  lemma SameRegistration(subs: map<Bytes, nat>, chans: seq<Channel>, c: nat, ch: Channel)
    requires Registered(subs, chans) && c < |chans| && ch.closed == chans[c].closed
    ensures Registered(subs, chans[c := ch])
  {
  }

  // ---- Every step keeps the invariant --------------------------------------

  lemma NewBusInv(bufferSize: int)
    ensures Inv(NewBus(bufferSize))
  {
  }

  lemma LockedNumbers(s: State)
    requires Inv(s)
    ensures forall p :: p in s.active ==> s.active[p].number < |Log(s, p)|
  {
  }

  lemma CloseKeepsHistory(chans: seq<Channel>, which: set<nat>, log: map<nat, seq<EffectEvent>>)
    requires forall c :: 0 <= c < |chans| ==> ChannelHolds(log, chans[c])
    ensures forall c :: 0 <= c < |chans| ==> ChannelHolds(log, CloseChannels(chans, which)[c])
  {
    forall c | 0 <= c < |chans| ensures ChannelHolds(log, CloseChannels(chans, which)[c]) {
      assert ChannelHolds(log, chans[c]);
      assert History(CloseChannels(chans, which)[c]) == History(chans[c]);
    }
  }

  lemma IdleDrops(s: State, s': State)
    requires DropsOnce(s) && s'.drops == s.drops && s'.log == s.log && s'.active == map[]
    ensures DropsOnce(s')
  {
    forall d | d in s'.drops ensures Dropped(s', d) { assert Dropped(s, d); }
  }

  lemma SubscribeKeeps(s: State, id: Bytes)
    requires Inv(s) && Enabled(s, Subscribe(id))
    ensures Inv(Apply(s, Subscribe(id)))
  {
    var s' := Apply(s, Subscribe(id));
    IdleDrops(s, s');
    if !s.closed {
      var which := if id in s.subs then {s.subs[id]} else {};
      CloseKeepsHistory(s.chans, which, s.log);
      ReplacedRegistration(s.subs, s.chans, id, Channel(s.size, [], false, []));
    } else {
      assert Registered(s'.subs, s'.chans);
    }
  }

  lemma ReplacedRegistration(subs: map<Bytes, nat>, chans: seq<Channel>, id: Bytes, ch: Channel)
    requires Registered(subs, chans) && !ch.closed
    ensures var which := if id in subs then {subs[id]} else {};
            Registered(subs[id := |chans|], CloseChannels(chans, which) + [ch])
  {
    var which := if id in subs then {subs[id]} else {};
    var subs', chans' := subs[id := |chans|], CloseChannels(chans, which) + [ch];
    forall c | 0 <= c < |chans'| && !chans'[c].closed ensures c in Values(subs') {
      if c == |chans| {
        assert subs'[id] == c;
      } else {
        assert !chans[c].closed && c in Values(subs);
        var other :| other in subs && subs[other] == c;
        assert other != id && subs'[other] == c;
      }
    }
  }

  lemma UnsubscribeKeeps(s: State, id: Bytes)
    requires Inv(s) && Enabled(s, Unsubscribe(id))
    ensures Inv(Apply(s, Unsubscribe(id)))
  {
    var s' := Apply(s, Unsubscribe(id));
    IdleDrops(s, s');
    if id in s.subs {
      CloseKeepsHistory(s.chans, {s.subs[id]}, s.log);
      forall c | 0 <= c < |s'.chans| && !s'.chans[c].closed ensures c in Values(s'.subs) {
        assert !s.chans[c].closed && c in Values(s.subs);
        var other :| other in s.subs && s.subs[other] == c;
        assert other in s'.subs;
      }
    }
  }

  lemma CloseKeeps(s: State)
    requires Inv(s) && Enabled(s, Close)
    ensures Inv(Apply(s, Close))
  {
    var s' := Apply(s, Close);
    IdleDrops(s, s');
    CloseKeepsHistory(s.chans, Values(s.subs), s.log);
  }

  lemma BeginKeeps(s: State, p: nat, event: EffectEvent)
    requires Inv(s) && Enabled(s, Begin(p, event))
    ensures Inv(Apply(s, Begin(p, event)))
  {
    if !s.closed {
      var s' := Apply(s, Begin(p, event));
      forall c | 0 <= c < |s'.chans| ensures ChannelHolds(s'.log, s'.chans[c]) { LogGrows(s.log, p, event, s.chans[c]); }
      assert Unserved(p, s'.active[p], s'.chans) by {
        forall c | c in s'.active[p].todo && c < |s'.chans| ensures Older(History(s'.chans[c]), p, |Log(s, p)|) {
          HistoryOlder(s.log, s.chans[c], p);
        }
      }
      assert Publishing(s') by { hide Older, Registered, ChannelHolds, Dropped; }
      BeginDrops(s, p, event, s');
    }
  }

  lemma BeginDrops(s: State, p: nat, event: EffectEvent, s': State)
    requires DropsOnce(s) && s'.drops == s.drops && p !in s.active
    requires s'.log == s.log[p := Log(s, p) + [event]]
    requires s'.active == s.active[p := Publisher(|Log(s, p)|, Values(s.subs), Trying)]
    ensures DropsOnce(s')
  {
    forall d | d in s'.drops ensures Dropped(s', d) { assert Dropped(s, d); }
  }

  lemma PutOlder(ch: Channel, item: Item, q: nat, n: nat)
    requires Older(History(ch), q, n) && item.publisher != q
    ensures Older(History(Put(ch, item)), q, n)
  {
    PutHistory(ch, item);
  }

  /** What the others still have to serve is untouched by one publisher's item. */
  lemma PutUnserved(q: nat, pub: Publisher, chans: seq<Channel>, c: nat, item: Item)
    requires Unserved(q, pub, chans) && c < |chans| && (item.publisher != q || c !in pub.todo)
    ensures Unserved(q, pub, chans[c := Put(chans[c], item)])
  {
    var chans' := chans[c := Put(chans[c], item)];
    forall d | d in pub.todo && d < |chans'| ensures Older(History(chans'[d]), q, pub.number) {
      if d == c { PutOlder(chans[c], item, q, pub.number); }
    }
  }

  /** The parts of the invariant that concern one publisher and its channel */
  lemma WorkingOn(s: State, p: nat, c: nat)
    requires Inv(s) && p in s.active && c in s.active[p].todo
    ensures s.active[p].number < |Log(s, p)| && c < |s.chans| && !s.chans[c].closed && ChannelHolds(s.log, s.chans[c])
    ensures Older(History(s.chans[c]), p, s.active[p].number) && c in Values(s.subs)
    ensures Genuine(s.log, ItemOf(s, p))
  {
    assert Serving(s.subs, s.active[p]) && Unserved(p, s.active[p], s.chans);
  }

  /** No step sends on a closed channel: whatever a publisher still has to serve is open. */
  lemma NoSendOnClosed(s: State, p: nat)
    requires Inv(s) && p in s.active
    ensures forall c :: c in s.active[p].todo ==> c < |s.chans| && !s.chans[c].closed
    ensures s.active[p].stage != Trying ==> s.active[p].stage.target in s.active[p].todo
  {
    assert Serving(s.subs, s.active[p]);
    forall c | c in s.active[p].todo ensures c < |s.chans| && !s.chans[c].closed { WorkingOn(s, p, c); }
  }

  /** Sending the event to one channel and being done with it */
  lemma SendKeeps(s: State, p: nat, c: nat, s': State)
    requires Inv(s) && p in s.active && c in s.active[p].todo && c < |s.chans| && HasRoom(s.chans[c])
    requires s.active[p].number < |Log(s, p)|
    requires s.active[p].stage == Trying || s.active[p].stage == Retrying(c)
    requires s' == s.(chans := s.chans[c := Put(s.chans[c], ItemOf(s, p))], active := s.active[p := Done(s.active[p], c)])
    ensures Inv(s')
  {
    var item := ItemOf(s, p);
    WorkingOn(s, p, c);
    PutHolds(s.log, s.chans[c], item);
    OneChannel(s, c, Put(s.chans[c], item), s');
    SameRegistration(s.subs, s.chans, c, Put(s.chans[c], item));
    forall q | q in s'.active
      ensures s'.active[q].number == |Log(s', q)| - 1 && Serving(s'.subs, s'.active[q]) && Unserved(q, s'.active[q], s'.chans)
    {
      assert Serving(s.subs, s.active[q]) && Unserved(q, s.active[q], s.chans);
      PutUnserved(q, s'.active[q], s.chans, c, item);
    }
    DoneDrops(s, p, c, s');
  }

  lemma DoneDrops(s: State, p: nat, c: nat, s': State)
    requires DropsOnce(s) && p in s.active && s'.drops == s.drops && s'.log == s.log
    requires s'.active == s.active[p := Done(s.active[p], c)]
    requires s.active[p].stage == Trying || s.active[p].stage == Retrying(c)
    ensures DropsOnce(s')
  {
    forall d | d in s'.drops ensures Dropped(s', d) { assert Dropped(s, d); }
  }

  /** Moving a publisher to another stage on the same channels */
  lemma StageKeeps(s: State, p: nat, stage: Stage, s': State)
    requires Inv(s) && p in s.active && s'.subs == s.subs && s'.chans == s.chans && s'.log == s.log
    requires s'.active == s.active[p := s.active[p].(stage := stage)]
    requires stage != Trying ==> stage.target in s.active[p].todo
    ensures Publishing(s')
  {
    forall q | q in s'.active
      ensures s'.active[q].number == |Log(s', q)| - 1 && Serving(s'.subs, s'.active[q]) && Unserved(q, s'.active[q], s'.chans)
    {
      assert Serving(s.subs, s.active[q]) && Unserved(q, s.active[q], s.chans);
    }
  }

  lemma TrySendKeeps(s: State, p: nat, c: nat)
    requires Inv(s) && Enabled(s, TrySend(p, c))
    ensures Inv(Apply(s, TrySend(p, c)))
  {
    var s' := Apply(s, TrySend(p, c));
    WorkingOn(s, p, c);
    if HasRoom(s.chans[c]) {
      SendKeeps(s, p, c, s');
    } else {
      StageKeeps(s, p, Draining(c), s');
      forall d | d in s'.drops ensures Dropped(s', d) { assert Dropped(s, d); }
    }
  }

  lemma DropUnserved(q: nat, pub: Publisher, log: map<nat, seq<EffectEvent>>, chans: seq<Channel>, c: nat)
    requires Unserved(q, pub, chans) && c < |chans| && ChannelHolds(log, chans[c])
    ensures Unserved(q, pub, chans[c := DropOldest(chans[c])])
  {
    var chans' := chans[c := DropOldest(chans[c])];
    DropHolds(log, chans[c]);
    forall d | d in pub.todo && d < |chans'| ensures Older(History(chans'[d]), q, pub.number) {
      assert Older(History(chans[d]), q, pub.number);
    }
  }

  lemma DrainDrops(s: State, p: nat, c: nat, s': State)
    requires DropsOnce(s) && p in s.active && s.active[p].stage == Draining(c) && c in s.active[p].todo
    requires s.active[p].number < |Log(s, p)| && s'.log == s.log
    requires s'.active == s.active[p := s.active[p].(stage := Retrying(c))]
    requires s'.drops == s.drops || s'.drops == s.drops + [(p, s.active[p].number, c)]
    ensures DropsOnce(s')
  {
    var dequeue := (p, s.active[p].number, c);
    forall d | d in s.drops ensures Dropped(s', d) && d != dequeue { assert Dropped(s, d); }
    forall i | 0 <= i < |s.drops| ensures s.drops[i] != dequeue { assert s.drops[i] in s.drops; }
    assert forall d :: d in s'.drops ==> d in s.drops || d == dequeue;
  }

  lemma DrainKeeps(s: State, p: nat)
    requires Inv(s) && Enabled(s, Drain(p))
    ensures Inv(Apply(s, Drain(p)))
  {
    var s', c := Apply(s, Drain(p)), s.active[p].stage.target;
    assert Serving(s.subs, s.active[p]);
    WorkingOn(s, p, c);
    DropHolds(s.log, s.chans[c]);
    OneChannel(s, c, DropOldest(s.chans[c]), s');
    SameRegistration(s.subs, s.chans, c, DropOldest(s.chans[c]));
    forall q | q in s'.active
      ensures s'.active[q].number == |Log(s', q)| - 1 && Serving(s'.subs, s'.active[q]) && Unserved(q, s'.active[q], s'.chans)
    {
      assert Serving(s.subs, s.active[q]) && Unserved(q, s.active[q], s.chans);
      DropUnserved(q, s'.active[q], s.log, s.chans, c);
    }
    DrainDrops(s, p, c, s');
  }

  lemma RetryKeeps(s: State, p: nat)
    requires Inv(s) && Enabled(s, Retry(p))
    ensures Inv(Apply(s, Retry(p)))
  {
    var s', c := Apply(s, Retry(p)), s.active[p].stage.target;
    assert Serving(s.subs, s.active[p]);
    WorkingOn(s, p, c);
    if HasRoom(s.chans[c]) {
      SendKeeps(s, p, c, s');
    } else {
      forall q | q in s'.active
        ensures s'.active[q].number == |Log(s', q)| - 1 && Serving(s'.subs, s'.active[q]) && Unserved(q, s'.active[q], s'.chans)
      {
        assert Serving(s.subs, s.active[q]) && Unserved(q, s.active[q], s.chans);
      }
      DoneDrops(s, p, c, s');
    }
  }

  lemma FinishKeeps(s: State, p: nat)
    requires Inv(s) && Enabled(s, Finish(p))
    ensures Inv(Apply(s, Finish(p)))
  {
    var s' := Apply(s, Finish(p));
    forall q | q in s'.active
      ensures s'.active[q].number == |Log(s', q)| - 1 && Serving(s'.subs, s'.active[q]) && Unserved(q, s'.active[q], s'.chans)
    {
      assert Serving(s.subs, s.active[q]) && Unserved(q, s.active[q], s.chans);
    }
    forall d | d in s'.drops ensures Dropped(s', d) { assert Dropped(s, d); }
  }

  lemma ReceiveKeeps(s: State, c: nat)
    requires Inv(s) && Enabled(s, Receive(c))
    ensures Inv(Apply(s, Receive(c)))
  {
    var s', ch := Apply(s, Receive(c)), s.chans[c];
    ReceiveHistory(ch);
    assert ChannelHolds(s.log, ch);
    OneChannel(s, c, s'.chans[c], s');
    SameRegistration(s.subs, s.chans, c, s'.chans[c]);
    forall q | q in s'.active
      ensures s'.active[q].number == |Log(s', q)| - 1 && Serving(s'.subs, s'.active[q]) && Unserved(q, s'.active[q], s'.chans)
    {
      assert Serving(s.subs, s.active[q]) && Unserved(q, s.active[q], s.chans);
    }
    forall d | d in s'.drops ensures Dropped(s', d) { assert Dropped(s, d); }
  }

  /** Every step of every interleaving keeps the invariant. */
  lemma StepKeeps(s: State, a: Action)
    requires Inv(s) && Enabled(s, a)
    ensures (forall p :: p in s.active ==> s.active[p].number < |Log(s, p)|) && Inv(Apply(s, a))
  {
    LockedNumbers(s);
    hide Inv;
    match a
    case Subscribe(id) => SubscribeKeeps(s, id);
    case Unsubscribe(id) => UnsubscribeKeeps(s, id);
    case Close => CloseKeeps(s);
    case Begin(p, event) => BeginKeeps(s, p, event);
    case TrySend(p, c) => TrySendKeeps(s, p, c);
    case Drain(p) => DrainKeeps(s, p);
    case Retry(p) => RetryKeeps(s, p);
    case Finish(p) => FinishKeeps(s, p);
    case Receive(c) => ReceiveKeeps(s, c);
  }

  // ---- Runs ----------------------------------------------------------------

  /** The actions lead from s to t, each enabled when it is taken. */
  ghost predicate Leads(s: State, actions: seq<Action>, t: State)
    requires Inv(s)
    decreases |actions|
  {
    if actions == [] then s == t else
      Enabled(s, actions[0]) && (StepKeeps(s, actions[0]); Leads(Apply(s, actions[0]), actions[1..], t))
  }

  ghost predicate Reachable(bufferSize: int, actions: seq<Action>, t: State) {
    NewBusInv(bufferSize);
    Leads(NewBus(bufferSize), actions, t)
  }

  lemma {:induction false} LeadsKeeps(s: State, actions: seq<Action>, t: State)
    requires Inv(s) && Leads(s, actions, t)
    ensures Inv(t)
    decreases |actions|
  {
    if actions != [] {
      StepKeeps(s, actions[0]);
      LeadsKeeps(Apply(s, actions[0]), actions[1..], t);
    }
  }

  ghost predicate Increasing(places: seq<nat>) { forall i, j :: 0 <= i < j < |places| ==> places[i] < places[j] }

  ghost predicate PicksOut<T>(a: seq<T>, b: seq<T>, places: seq<nat>) {
    |places| == |a| && Increasing(places) && forall i :: 0 <= i < |a| ==> places[i] < |b| && b[places[i]] == a[i]
  }

  /** a is b with some elements left out. */
  ghost predicate IsSubsequence<T>(a: seq<T>, b: seq<T>) { exists places: seq<nat> :: PicksOut(a, b, places) }

  /** What of p's publications a history holds */
  function EventsOf(history: seq<Item>, p: nat): seq<EffectEvent> {
    if history == [] then [] else
      var last := history[|history| - 1];
      EventsOf(history[..|history| - 1], p) + if last.publisher == p then [last.event] else []
  }

  ghost predicate NumberedIn(history: seq<Item>, p: nat, n: nat) {
    exists i :: 0 <= i < |history| && history[i].publisher == p && history[i].number == n
  }

  lemma NumberedSnoc(history: seq<Item>, item: Item, p: nat, n: nat)
    ensures NumberedIn(history + [item], p, n) <==> NumberedIn(history, p, n) || (item.publisher == p && item.number == n)
  {
    var all := history + [item];
    if i :| 0 <= i < |history| && history[i].publisher == p && history[i].number == n { assert all[i] == history[i]; }
    if item.publisher == p && item.number == n { assert all[|history|] == item; }
  }

  lemma FaithfulInit(log: map<nat, seq<EffectEvent>>, history: seq<Item>, item: Item)
    requires Faithful(log, history + [item])
    ensures Faithful(log, history) && Genuine(log, item)
    ensures forall n: nat :: NumberedIn(history, item.publisher, n) ==> n < item.number
  {
    var all := history + [item];
    assert forall i :: 0 <= i < |history| ==> all[i] == history[i];
    assert all[|history|] == item && Genuine(log, all[|history|]);
    forall i | 0 <= i < |history| ensures Genuine(log, history[i]) { assert Genuine(log, all[i]); }
    forall n: nat | NumberedIn(history, item.publisher, n) ensures n < item.number {
      var i :| 0 <= i < |history| && history[i].publisher == item.publisher && history[i].number == n;
      assert all[i] == history[i];
    }
  }

  /** The numbers of p's items say where its events stand among what it published. */
  lemma {:induction false} EventsPlaced(log: map<nat, seq<EffectEvent>>, history: seq<Item>, p: nat)
      returns (places: seq<nat>)
    requires Faithful(log, history)
    ensures PicksOut(EventsOf(history, p), LogOf(log, p), places)
    ensures forall n :: n in places ==> NumberedIn(history, p, n)
  {
    if history == [] {
      places := [];
    } else {
      var init, last := history[..|history| - 1], history[|history| - 1];
      assert init + [last] == history;
      FaithfulInit(log, init, last);
      places := EventsPlaced(log, init, p);
      var before := places;
      forall n: nat ensures NumberedIn(history, p, n) <==> NumberedIn(init, p, n) || (last.publisher == p && last.number == n) {
        NumberedSnoc(init, last, p, n);
      }
      if last.publisher == p {
        hide NumberedIn, Faithful;
        assert forall i :: 0 <= i < |before| ==> before[i] in before;
        places := before + [last.number];
      }
    }
  }

  /**
   * Whatever the interleaving: what a channel has delivered and buffers holds each publisher's events in the order they
   * were published, no running Publish is to send on a closed channel, and no Publish dequeued twice from one channel.
   */
  lemma BusIsSafe(bufferSize: int, actions: seq<Action>, s: State)
    requires Reachable(bufferSize, actions, s)
    ensures forall c, p :: 0 <= c < |s.chans| ==> IsSubsequence(EventsOf(History(s.chans[c]), p), Log(s, p))
    ensures forall p, c :: p in s.active && c in s.active[p].todo ==> c < |s.chans| && !s.chans[c].closed
    ensures forall i, j :: 0 <= i < j < |s.drops| ==> s.drops[i] != s.drops[j]
  {
    NewBusInv(bufferSize);
    LeadsKeeps(NewBus(bufferSize), actions, s);
    forall c, p: nat | 0 <= c < |s.chans| ensures IsSubsequence(EventsOf(History(s.chans[c]), p), Log(s, p)) {
      assert ChannelHolds(s.log, s.chans[c]);
      var places := EventsPlaced(s.log, History(s.chans[c]), p);
      assert PicksOut(EventsOf(History(s.chans[c]), p), LogOf(s.log, p), places);
    }
    forall p, c | p in s.active && c in s.active[p].todo ensures c < |s.chans| && !s.chans[c].closed {
      NoSendOnClosed(s, p);
    }
  }

  // ---- One uninterrupted Publish -------------------------------------------

  /** What a Publish does to a subscriber when nothing interferes: append, dropping the oldest when full */
  function Push(ch: Channel, item: Item): Channel {
    Put(if HasRoom(ch) then ch else DropOldest(ch), item)
  }

  lemma LeadsOne(s: State, a: Action)
    requires Inv(s) && Enabled(s, a)
    ensures (forall p :: p in s.active ==> s.active[p].number < |Log(s, p)|) && Leads(s, [a], Apply(s, a))
  {
    StepKeeps(s, a);
    assert [a][1..] == [];
    hide Apply, Enabled;
    assert Leads(Apply(s, a), [], Apply(s, a));
  }

  lemma LeadsMore(s: State, a: Action, rest: seq<Action>, t: State)
    requires Inv(s) && Enabled(s, a)
    requires (forall p :: p in s.active ==> s.active[p].number < |Log(s, p)|) && Inv(Apply(s, a))
    requires Leads(Apply(s, a), rest, t)
    ensures Leads(s, [a] + rest, t)
  {
    hide Apply, Enabled;
    assert ([a] + rest)[1..] == rest;
  }

  /** Draining and retrying a full channel */
  lemma FullSend(s: State, p: nat, c: nat) returns (t: State)
    requires Inv(s) && Enabled(s, TrySend(p, c)) && s.chans[c].capacity > 0 && !HasRoom(s.chans[c])
    ensures s.active[p].number < |Log(s, p)|
    ensures Leads(s, [TrySend(p, c)] + ([Drain(p)] + [Retry(p)]), t)
    ensures t.chans == s.chans[c := Push(s.chans[c], ItemOf(s, p))] && t.active == s.active[p := Done(s.active[p], c)]
    ensures t == s.(chans := t.chans, active := t.active, drops := t.drops)
  {
    WorkingOn(s, p, c);
    StepKeeps(s, TrySend(p, c));
    var s1 := Apply(s, TrySend(p, c));
    StepKeeps(s1, Drain(p));
    var s2 := Apply(s1, Drain(p));
    StepKeeps(s2, Retry(p));
    t := Apply(s2, Retry(p));
    assert t.chans == s.chans[c := Push(s.chans[c], ItemOf(s, p))];
    assert t.active == s.active[p := Done(s.active[p], c)];
    assert t == s.(chans := t.chans, active := t.active, drops := t.drops);
    assert Enabled(s1, Drain(p)) && Enabled(s2, Retry(p));
    hide Inv, Apply, Enabled, Leads;
    LeadsOne(s2, Retry(p));
    LeadsMore(s1, Drain(p), [Retry(p)], t);
    LeadsMore(s, TrySend(p, c), [Drain(p)] + [Retry(p)], t);
  }

  /** Try, drain and retry without interference is a push. */
  lemma UninterruptedSend(s: State, p: nat, c: nat) returns (actions: seq<Action>, t: State)
    requires Inv(s) && Enabled(s, TrySend(p, c)) && s.chans[c].capacity > 0
    ensures s.active[p].number < |Log(s, p)| && Leads(s, actions, t)
    ensures t.chans == s.chans[c := Push(s.chans[c], ItemOf(s, p))] && t.active == s.active[p := Done(s.active[p], c)]
    ensures t == s.(chans := t.chans, active := t.active, drops := t.drops)
  {
    WorkingOn(s, p, c);
    if HasRoom(s.chans[c]) {
      LeadsOne(s, TrySend(p, c));
      actions, t := [TrySend(p, c)], Apply(s, TrySend(p, c));
    } else {
      t := FullSend(s, p, c);
      actions := [TrySend(p, c)] + ([Drain(p)] + [Retry(p)]);
    }
  }

  // ---- A single publisher --------------------------------------------------

  /** How many of the publisher's events a channel should know of: all, but for one it is still to be sent */
  function Expected(s: State, p: nat, c: nat): int {
    |Log(s, p)| - if p in s.active && c in s.active[p].todo then 1 else 0
  }

  /** The buffer ends with the latest events, without gaps. */
  ghost predicate EndsAt(buffer: seq<Item>, p: nat, m: int) {
    |buffer| <= m && forall i :: 0 <= i < |buffer| ==> buffer[i].publisher == p && buffer[i].number == m - |buffer| + i
  }

  /** With one publisher, every open channel buffers the latest events, and a drained one has room. */
  ghost predicate Alone(s: State, p: nat) {
    && (forall q :: q in s.active ==> q == p)
    && (forall c :: 0 <= c < |s.chans| && !s.chans[c].closed ==>
          s.chans[c].capacity > 0 && EndsAt(s.chans[c].buffer, p, Expected(s, p, c)))
    && (p in s.active && s.active[p].stage.Retrying? && s.active[p].stage.target < |s.chans| ==>
          HasRoom(s.chans[s.active[p].stage.target]))
  }

  predicate ByOnly(a: Action, p: nat) {
    match a
    case Begin(q, _) => q == p
    case TrySend(q, _) => q == p
    case Drain(q) => q == p
    case Retry(q) => q == p
    case Finish(q) => q == p
    case _ => true
  }

  lemma OpenIsServed(s: State, p: nat, c: nat)
    requires Inv(s) && c < |s.chans| && !s.chans[c].closed
    ensures c in Values(s.subs)
  {
  }

  lemma AloneBegin(s: State, p: nat, event: EffectEvent)
    requires Inv(s) && Alone(s, p) && Enabled(s, Begin(p, event))
    ensures Alone(Apply(s, Begin(p, event)), p)
  {
    var s' := Apply(s, Begin(p, event));
    if !s.closed {
      forall c | 0 <= c < |s'.chans| && !s'.chans[c].closed
        ensures EndsAt(s'.chans[c].buffer, p, Expected(s', p, c)) && s'.chans[c].capacity > 0
      {
        OpenIsServed(s, p, c);
        assert EndsAt(s.chans[c].buffer, p, Expected(s, p, c));
      }
    }
  }

  lemma AloneSend(s: State, p: nat, c: nat, s': State)
    requires Inv(s) && Alone(s, p) && p in s.active && c in s.active[p].todo && c < |s.chans|
    requires s.active[p].number == |Log(s, p)| - 1 && s'.log == s.log
    requires s'.chans == s.chans[c := Put(s.chans[c], ItemOf(s, p))] && s'.active == s.active[p := Done(s.active[p], c)]
    requires !s.chans[c].closed
    ensures Alone(s', p)
  {
    forall d | 0 <= d < |s'.chans| && !s'.chans[d].closed
      ensures EndsAt(s'.chans[d].buffer, p, Expected(s', p, d)) && s'.chans[d].capacity > 0
    {
      assert EndsAt(s.chans[d].buffer, p, Expected(s, p, d));
    }
  }

  lemma AloneTry(s: State, p: nat, c: nat)
    requires Inv(s) && Alone(s, p) && Enabled(s, TrySend(p, c))
    ensures Alone(Apply(s, TrySend(p, c)), p)
  {
    WorkingOn(s, p, c);
    var s' := Apply(s, TrySend(p, c));
    if HasRoom(s.chans[c]) { AloneSend(s, p, c, s'); }
  }

  lemma AloneDrain(s: State, p: nat)
    requires Inv(s) && Alone(s, p) && Enabled(s, Drain(p))
    ensures Alone(Apply(s, Drain(p)), p)
  {
    var s', c := Apply(s, Drain(p)), s.active[p].stage.target;
    assert Serving(s.subs, s.active[p]);
    WorkingOn(s, p, c);
    assert ChannelHolds(s.log, s.chans[c]);
    forall d | 0 <= d < |s'.chans| && !s'.chans[d].closed
      ensures EndsAt(s'.chans[d].buffer, p, Expected(s', p, d)) && s'.chans[d].capacity > 0
    {
      assert EndsAt(s.chans[d].buffer, p, Expected(s, p, d));
    }
  }

  lemma AloneRetry(s: State, p: nat)
    requires Inv(s) && Alone(s, p) && Enabled(s, Retry(p))
    ensures Alone(Apply(s, Retry(p)), p)
  {
    var c := s.active[p].stage.target;
    assert Serving(s.subs, s.active[p]);
    WorkingOn(s, p, c);
    AloneSend(s, p, c, Apply(s, Retry(p)));
  }

  lemma AloneReceive(s: State, p: nat, c: nat)
    requires Inv(s) && Alone(s, p) && Enabled(s, Receive(c))
    ensures Alone(Apply(s, Receive(c)), p)
  {
    var s' := Apply(s, Receive(c));
    forall d | 0 <= d < |s'.chans| && !s'.chans[d].closed
      ensures EndsAt(s'.chans[d].buffer, p, Expected(s', p, d)) && s'.chans[d].capacity > 0
    {
      assert EndsAt(s.chans[d].buffer, p, Expected(s, p, d));
    }
  }

  lemma AloneLocked(s: State, p: nat, a: Action)
    requires Inv(s) && Alone(s, p) && Enabled(s, a) && (a.Subscribe? || a.Unsubscribe? || a.Close? || a.Finish?)
    requires ByOnly(a, p)
    ensures Alone(Apply(s, a), p)
  {
    var s' := Apply(s, a);
    forall d | 0 <= d < |s'.chans| && !s'.chans[d].closed
      ensures EndsAt(s'.chans[d].buffer, p, Expected(s', p, d)) && s'.chans[d].capacity > 0
    {
      assert d < |s.chans| ==> s'.chans[d].buffer == s.chans[d].buffer && !s.chans[d].closed;
    }
  }

  lemma StepStaysAlone(s: State, p: nat, a: Action)
    requires Inv(s) && Alone(s, p) && Enabled(s, a) && ByOnly(a, p)
    ensures (forall q :: q in s.active ==> s.active[q].number < |Log(s, q)|) && Alone(Apply(s, a), p)
  {
    LockedNumbers(s);
    hide Inv, Alone;
    match a
    case Begin(_, event) => AloneBegin(s, p, event);
    case TrySend(_, c) => AloneTry(s, p, c);
    case Drain(_) => AloneDrain(s, p);
    case Retry(_) => AloneRetry(s, p);
    case Receive(c) => AloneReceive(s, p, c);
    case _ => AloneLocked(s, p, a);
  }

  lemma {:induction false} LeadsAlone(s: State, p: nat, actions: seq<Action>, t: State)
    requires Inv(s) && Alone(s, p) && Leads(s, actions, t) && forall a :: a in actions ==> ByOnly(a, p)
    ensures Alone(t, p)
    decreases |actions|
  {
    if actions != [] {
      assert actions[0] in actions;
      StepKeeps(s, actions[0]);
      StepStaysAlone(s, p, actions[0]);
      hide Inv, Alone, Apply, Enabled;
      LeadsAlone(Apply(s, actions[0]), p, actions[1..], t);
    }
  }

  /**
   * With a single publisher, every open channel buffers at all times a contiguous suffix of what was published, up to
   * the event in flight while the channel is still to be served.
   */
  lemma SinglePublisherSuffix(bufferSize: int, p: nat, actions: seq<Action>, s: State)
    requires Reachable(bufferSize, actions, s) && forall a :: a in actions ==> ByOnly(a, p)
    ensures forall c :: 0 <= c < |s.chans| && !s.chans[c].closed ==>
              var b, m := s.chans[c].buffer, Expected(s, p, c);
              |b| <= m <= |Log(s, p)| && EventsOf(b, p) == Log(s, p)[m - |b|..m]
  {
    NewBusInv(bufferSize);
    LeadsKeeps(NewBus(bufferSize), actions, s);
    LeadsAlone(NewBus(bufferSize), p, actions, s);
    forall c | 0 <= c < |s.chans| && !s.chans[c].closed
      ensures |s.chans[c].buffer| <= Expected(s, p, c) <= |Log(s, p)|
      ensures EventsOf(s.chans[c].buffer, p) == Log(s, p)[Expected(s, p, c) - |s.chans[c].buffer|..Expected(s, p, c)]
    {
      assert ChannelHolds(s.log, s.chans[c]) && EndsAt(s.chans[c].buffer, p, Expected(s, p, c));
      BufferGenuine(s.log, s.chans[c]);
      SuffixEvents(s.log, s.chans[c].buffer, p, Expected(s, p, c));
    }
  }

  lemma BufferGenuine(log: map<nat, seq<EffectEvent>>, ch: Channel)
    requires ChannelHolds(log, ch)
    ensures forall i :: 0 <= i < |ch.buffer| ==> Genuine(log, ch.buffer[i])
  {
    forall i | 0 <= i < |ch.buffer| ensures Genuine(log, ch.buffer[i]) {
      assert Genuine(log, History(ch)[|ch.delivered| + i]);
    }
  }

  lemma SliceSnoc<T>(s: seq<T>, lo: nat, hi: nat)
    requires lo < hi <= |s|
    ensures s[lo..hi] == s[lo..hi - 1] + [s[hi - 1]]
  {
  }

  lemma {:induction false} SuffixEvents(log: map<nat, seq<EffectEvent>>, buffer: seq<Item>, p: nat, m: nat)
    requires EndsAt(buffer, p, m) && m <= |LogOf(log, p)|
    requires forall i :: 0 <= i < |buffer| ==> Genuine(log, buffer[i])
    ensures EventsOf(buffer, p) == LogOf(log, p)[m - |buffer|..m]
  {
    if buffer != [] {
      var init, last, all := buffer[..|buffer| - 1], buffer[|buffer| - 1], LogOf(log, p);
      assert Genuine(log, last);
      assert EndsAt(init, p, m - 1);
      assert last.publisher == p && last.event == all[m - 1];
      hide EndsAt, Genuine;
      assert forall i :: 0 <= i < |init| ==> init[i] == buffer[i];
      SuffixEvents(log, init, p, m - 1);
      SliceSnoc(all, m - |buffer|, m);
    }
  }
}
