/** The bus as an object: each method holds the lock, and what it does is a run of the micro-steps. */
module EffectBuses {
  import opened Utf8
  import opened Trace
  import opened Bus

  lemma {:induction false} LeadsConcat(s: State, a: seq<Action>, t: State, b: seq<Action>, u: State)
    requires Inv(s) && Leads(s, a, t) && Inv(t) && Leads(t, b, u)
    ensures Leads(s, a + b, u)
    decreases |a|
  {
    hide *;
    if a == [] {
      LeadsNowhere(s, t);
      assert a + b == b;
    } else {
      LeadsFirst(s, a, t);
      var next := Apply(s, a[0]);
      LeadsConcat(next, a[1..], t, b, u);
      LeadsMore(s, a[0], a[1..] + b, u);
      assert [a[0]] + (a[1..] + b) == a + b;
    }
  }

  lemma LeadsNowhere(s: State, t: State)
    requires Inv(s) && Leads(s, [], t)
    ensures s == t
  {
  }

  lemma LeadsHere(s: State)
    requires Inv(s)
    ensures Leads(s, [], s)
  {
  }

  lemma LeadsFirst(s: State, a: seq<Action>, t: State)
    requires Inv(s) && Leads(s, a, t) && a != []
    ensures Enabled(s, a[0]) && (forall p :: p in s.active ==> s.active[p].number < |Log(s, p)|)
    ensures Inv(Apply(s, a[0])) && Leads(Apply(s, a[0]), a[1..], t)
  {
    StepKeeps(s, a[0]);
  }

  /** The channels after one event was pushed to some of them */
  ghost predicate Pushed(before: seq<Channel>, after: seq<Channel>, which: set<nat>, item: Item) {
    |after| == |before| && forall c :: 0 <= c < |before| ==> after[c] == if c in which then Push(before[c], item) else before[c]
  }

  lemma PushOne(before: seq<Channel>, after: seq<Channel>, which: set<nat>, item: Item, c: nat)
    requires Pushed(before, after, which, item) && c !in which && c < |before|
    ensures Pushed(before, after[c := Push(after[c], item)], which + {c}, item)
  {
  }

  /** A channel that can be registered has capacity. */
  ghost predicate Roomy(chans: seq<Channel>) {
    forall c :: 0 <= c < |chans| && !chans[c].closed ==> chans[c].capacity > 0
  }

  /** One turn of the Publish loop, as micro-steps */
  lemma ServeOne(start: State, actions: seq<Action>, s: State, p: nat, c: nat) returns (more: seq<Action>, t: State)
    requires Inv(start) && Leads(start, actions, s) && Inv(s) && Roomy(s.chans)
    requires p in s.active && s.active[p].stage == Trying && c in s.active[p].todo
    ensures s.active[p].number < |Log(s, p)| && c < |s.chans|
    ensures Leads(start, more, t) && Inv(t)
    ensures t.chans == s.chans[c := Push(s.chans[c], ItemOf(s, p))] && t.active == s.active[p := Done(s.active[p], c)]
    ensures t == s.(chans := t.chans, active := t.active, drops := t.drops) && Roomy(t.chans)
  {
    TurnEnabled(s, p, c);
    hide *;
    var acts;
    acts, t := UninterruptedSend(s, p, c);
    LeadsKeeps(s, acts, t);
    LeadsConcat(start, actions, s, acts, t);
    more := actions + acts;
    PushRoomy(s.chans, c, ItemOf(s, p));
  }

  lemma TurnEnabled(s: State, p: nat, c: nat)
    requires Inv(s) && Roomy(s.chans) && p in s.active && s.active[p].stage == Trying && c in s.active[p].todo
    ensures Enabled(s, TrySend(p, c)) && s.chans[c].capacity > 0 && s.active[p].number < |Log(s, p)|
    ensures |s.chans[c].buffer| <= s.chans[c].capacity
  {
    WorkingOn(s, p, c);
    assert ChannelHolds(s.log, s.chans[c]);
  }

  lemma PushRoomy(chans: seq<Channel>, c: nat, item: Item)
    requires Roomy(chans) && c < |chans|
    ensures Roomy(chans[c := Push(chans[c], item)])
  {
  }

  /** The state of a Publish that has served all but the channels in todo */
  ghost predicate MidPublish(start: State, actions: seq<Action>, s: State, p: nat, item: Item, todo: set<nat>) {
    && Inv(start) && Leads(start, actions, s) && Inv(s) && Roomy(s.chans)
    && s == start.(chans := s.chans, active := map[p := Publisher(item.number, todo, Trying)],
                   log := start.log[p := LogOf(start.log, p) + [item.event]], drops := s.drops)
    && start.active == map[] && item == Item(p, |LogOf(start.log, p)|, item.event)
    && todo <= Values(start.subs) && Pushed(start.chans, s.chans, Values(start.subs) - todo, item)
  }

  lemma PublishBegins(start: State, p: nat, event: EffectEvent) returns (actions: seq<Action>, s: State)
    requires Inv(start) && Roomy(start.chans) && start.active == map[] && !start.closed
    ensures MidPublish(start, actions, s, p, Item(p, |LogOf(start.log, p)|, event), Values(start.subs))
    ensures s.chans == start.chans && s.drops == start.drops
  {
    s := Apply(start, Begin(p, event));
    actions := [Begin(p, event)];
    LeadsOne(start, Begin(p, event));
    BeginKeeps(start, p, event);
    hide Inv, Leads;
    assert Values(start.subs) - Values(start.subs) == {};
  }

  lemma PublishTurns(start: State, actions: seq<Action>, s: State, p: nat, item: Item, todo: set<nat>, c: nat)
      returns (more: seq<Action>, t: State)
    requires MidPublish(start, actions, s, p, item, todo) && c in todo
    ensures c < |s.chans| && s.chans[c].capacity > 0 && |s.chans[c].buffer| <= s.chans[c].capacity
    ensures t.chans == s.chans[c := Push(s.chans[c], item)]
    ensures MidPublish(start, more, t, p, item, todo - {c})
  {
    TurnEnabled(s, p, c);
    more, t := ServeOne(start, actions, s, p, c);
    PushOne(start.chans, s.chans, Values(start.subs) - todo, item, c);
    hide Inv, Leads, Pushed, Roomy, Values, Push;
    assert ItemOf(s, p) == item;
    assert Values(start.subs) - (todo - {c}) == (Values(start.subs) - todo) + {c};
  }

  lemma PublishEnds(start: State, actions: seq<Action>, s: State, p: nat, item: Item)
    requires MidPublish(start, actions, s, p, item, {})
    ensures var t := s.(active := map[]);
            && Inv(t) && Roomy(t.chans) && Pushed(start.chans, t.chans, Values(start.subs), item)
            && Leads(start, actions + [Finish(p)], t)
  {
    LeadsOne(s, Finish(p));
    FinishKeeps(s, p);
    var t := Apply(s, Finish(p));
    assert t == s.(active := map[]);
    hide Inv, Leads, Apply, Pushed, Roomy, Values;
    LeadsConcat(start, actions, s, [Finish(p)], t);
    assert Values(start.subs) - {} == Values(start.subs);
  }

  lemma MidState(start: State, actions: seq<Action>, s: State, p: nat, item: Item)
    requires MidPublish(start, actions, s, p, item, {})
    ensures s == start.(chans := s.chans, active := s.active, log := s.log, drops := s.drops)
    ensures s.log == start.log[p := LogOf(start.log, p) + [item.event]]
  {
  }

  lemma SubscribeApplied(s: State, id: Bytes)
    requires Inv(s) && s.active == map[]
    ensures Apply(s, Action.Subscribe(id)) ==
            if s.closed then s.(chans := s.chans + [Channel(0, [], true, [])]) else
              s.(chans := CloseChannels(s.chans, if id in s.subs then {s.subs[id]} else {}) + [Channel(s.size, [], false, [])],
                 subs := s.subs[id := |s.chans|])
  {
  }

  class EffectBus {
    var subs: map<Bytes, nat>
    var chans: seq<Channel>
    var closed: bool
    const size: nat
    var log: map<nat, seq<EffectEvent>>  // numbers the events; the source keeps no such record
    ghost var drops: seq<(nat, nat, nat)>

    /** The state while nobody holds the lock */
    ghost function Snapshot(): State
      reads this
    {
      State(subs, chans, size, closed, map[], log, drops)
    }

    ghost predicate Valid()
      reads this
    {
      Inv(Snapshot()) && Roomy(chans)
    }

    lemma Describes(s: State)
      requires Valid() && s == State(subs, chans, size, closed, map[], log, drops)
      ensures Snapshot() == s && Inv(s) && Roomy(s.chans)
    {
    }

    lemma Matches(s: State)
      requires s == State(subs, chans, size, closed, map[], log, drops) && Inv(s) && Roomy(s.chans)
      ensures Snapshot() == s && Valid()
    {
    }

    constructor (bufferSize: int)
      ensures Valid() && Snapshot() == NewBus(bufferSize)
    {
      subs, chans, closed := map[], [], false;
      size := if bufferSize <= 0 then DEFAULT_SIZE else bufferSize;
      log, drops := map[], [];
      new;
      NewBusInv(bufferSize);
    }

    method Subscribe(id: Bytes) returns (c: nat)
      requires Valid()
      modifies this
      ensures Valid() && Snapshot() == Apply(old(Snapshot()), Action.Subscribe(id)) && c == |old(chans)|
    {
      SubscribeKeeps(Snapshot(), id);
      SubscribeApplied(Snapshot(), id);
      hide Inv, CloseChannels, Apply;
      c := |chans|;
      if closed {
        chans := chans + [Channel(0, [], true, [])];
        return;
      }
      chans := CloseChannels(chans, if id in subs then {subs[id]} else {});
      chans := chans + [Channel(size, [], false, [])];
      subs := subs[id := c];
    }

    method Unsubscribe(id: Bytes)
      requires Valid()
      modifies this
      ensures Valid() && Snapshot() == Apply(old(Snapshot()), Action.Unsubscribe(id))
    {
      UnsubscribeKeeps(Snapshot(), id);
      if id in subs {
        chans := CloseChannels(chans, {subs[id]});
        subs := subs - {id};
      }
    }

    /** Closes and unregisters every subscriber, in any order. */
    method CloseAll()
      requires forall x, y :: x in subs && y in subs && subs[x] == subs[y] ==> x == y
      modifies this`subs, this`chans
      ensures subs == map[] && chans == CloseChannels(old(chans), Values(old(subs)))
    {
      ghost var before, all := chans, subs;
      NoneClosed(before, Values(all));
      while subs != map[]
        invariant forall id :: id in subs ==> id in all && all[id] == subs[id]
        invariant chans == CloseChannels(before, Values(all) - Values(subs))
        decreases |subs|
      {
        hide *;
        assert |subs| != 0;
        var id :| id in subs;
        CloseOne(all, subs, id, before);
        chans := CloseChannels(chans, {subs[id]});
        subs := subs - {id};
      }
      NoneLeft(Values(all));
    }

    /** Close */
    method Close()
      requires Valid()
      modifies this
      ensures Valid() && Snapshot() == Apply(old(Snapshot()), Action.Close)
    {
      CloseKeeps(Snapshot());
      ClosedRoomy(chans, Values(subs));
      if closed { return; }
      closed := true;
      CloseAll();
    }

    /** Offers the event to one channel, dropping the oldest when it is full. */
    method Send(c: nat, item: Item)
      requires c < |chans| && |chans[c].buffer| <= chans[c].capacity && chans[c].capacity > 0
      modifies this`chans
      ensures chans == old(chans)[c := Push(old(chans[c]), item)]
    {
      var ch := chans[c];
      if |ch.buffer| < ch.capacity {
        ch := Put(ch, item);
      } else {
        if ch.buffer != [] { ch := DropOldest(ch); }
        if |ch.buffer| < ch.capacity { ch := Put(ch, item); }
      }
      chans := chans[c := ch];
    }

    /**
     * Publish, by goroutine p and without interference: every subscriber's channel takes the event, dropping its oldest
     * when full; a closed bus ignores it. It is a run of the micro-step machine, so what holds of every interleaving
     * holds of it.
     */
    method Publish(p: nat, event: EffectEvent)
      requires Valid()
      modifies this
      ensures Valid() && subs == old(subs) && closed == old(closed)
      ensures closed ==> Snapshot() == old(Snapshot())
      ensures !closed ==> log == old(log)[p := LogOf(old(log), p) + [event]]
      ensures !closed ==> Pushed(old(chans), chans, Values(subs), Item(p, |LogOf(old(log), p)|, event))
      ensures exists actions: seq<Action> :: Leads(old(Snapshot()), actions, Snapshot())
    {
      hide *;
      ghost var start := State(subs, chans, size, closed, map[], log, drops);
      Describes(start);
      if closed {
        LeadsHere(start);
        return;
      }
      ghost var actions, s := PublishBegins(start, p, event);
      var item := Item(p, |LogOf(log, p)|, event);
      log := log[p := LogOf(log, p) + [event]];
      var todo := Values(subs);
      while todo != {}
        invariant MidPublish(start, actions, s, p, item, todo)
        invariant chans == s.chans && drops == s.drops
        invariant subs == start.subs && !closed && log == start.log[p := LogOf(start.log, p) + [event]]
        decreases todo
      {
        var c :| c in todo;
        actions, s := PublishTurns(start, actions, s, p, item, todo, c);
        Send(c, item);
        drops := s.drops;
        todo := todo - {c};
      }
      PublishEnds(start, actions, s, p, item);
      MidState(start, actions, s, p, item);
      Matches(s.(active := map[]));
      assert Leads(start, actions + [Finish(p)], Snapshot());
    }
  }

  lemma NoneClosed(chans: seq<Channel>, which: set<nat>)
    ensures CloseChannels(chans, which - which) == chans
  {
  }

  lemma NoneLeft(all: set<nat>)
    ensures all - Values(map[]) == all
  {
  }

  lemma ClosedRoomy(chans: seq<Channel>, which: set<nat>)
    requires Roomy(chans)
    ensures Roomy(CloseChannels(chans, which))
  {
  }

  lemma CloseTwice(chans: seq<Channel>, a: set<nat>, b: set<nat>)
    ensures CloseChannels(CloseChannels(chans, a), b) == CloseChannels(chans, a + b)
  {
  }

  lemma FewerKeys(m: map<Bytes, nat>, id: Bytes)
    requires id in m
    ensures |m - {id}| < |m|
  {
    assert m.Keys == (m - {id}).Keys + {id};
    assert |m.Keys| == |m| && |(m - {id}).Keys| == |m - {id}|;
  }

  lemma ValuesLess(m: map<Bytes, nat>, id: Bytes)
    requires id in m && forall x, y :: x in m && y in m && m[x] == m[y] ==> x == y
    ensures Values(m - {id}) == Values(m) - {m[id]}
  {
    forall v ensures v in Values(m - {id}) <==> v in Values(m) && v != m[id] {
      if x :| x in m && m[x] == v { assert x != id ==> x in m - {id}; }
    }
  }

  lemma CloseOne(all: map<Bytes, nat>, left: map<Bytes, nat>, id: Bytes, before: seq<Channel>)
    requires id in left && forall x :: x in left ==> x in all && all[x] == left[x]
    requires forall x, y :: x in all && y in all && all[x] == all[y] ==> x == y
    ensures |left - {id}| < |left|
    ensures CloseChannels(CloseChannels(before, Values(all) - Values(left)), {left[id]}) ==
            CloseChannels(before, Values(all) - Values(left - {id}))
  {
    FewerKeys(left, id);
    ValuesLess(left, id);
    CloseTwice(before, Values(all) - Values(left), {left[id]});
    assert left[id] in Values(all);
    hide Values, CloseChannels;
    assert Values(all) - Values(left) + {left[id]} == Values(all) - (Values(left) - {left[id]});
  }
}
