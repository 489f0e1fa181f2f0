/** The SSE watcher hub: any number of Subscribe, Unsubscribe and Broadcast calls interleaved
    under one RWMutex, with channels of capacity four closed outside the lock. A broadcast's
    snapshot is represented by the number of its call. */
module WatchHub {
  import opened Options
  import opened Sorting

  const CAPACITY := 4

  /** offered: every snapshot a send was tried with; missed: the sends dropped on a full buffer. */
  datatype Channel = Channel(
    session: string, buffer: seq<nat>, closed: bool, received: seq<nat>, offered: seq<nat>, missed: nat)

  datatype Call =
    | Subscribing(id: string, ch: nat)          // the channel is made; waiting for the lock
    | Registering(id: string, ch: nat)          // holding the lock
    | Unsubscribing(ch: nat)                    // waiting for the lock
    | Removing(ch: nat)                         // holding the lock
    | Closing(ch: nat)                          // removed and unlocked, not yet closed
    | Broadcasting(id: string)                  // waiting for the read lock
    | Sending(id: string, todo: set<nat>)       // holding the read lock
    | Returned

  /** panicked: a send met a closed channel. */
  datatype Hub = Hub(
    watchers: map<string, set<nat>>, channels: seq<Channel>,
    writer: Option<nat>, readers: set<nat>, calls: seq<Call>, panicked: bool)

  datatype Event =
    | Subscribe(id: string)
    | Unsubscribe(ch: nat)
    | Broadcast(id: string)
    | Advance(call: nat)
    | Send(call: nat, ch: nat)
    | Receive(ch: nat)

  const EMPTY := Hub(map[], [], None, {}, [], false)

  function Enters(h: Hub, c: Call): Hub { h.(calls := h.calls + [c]) }

  function Goes(h: Hub, t: nat, c: Call): Hub
    requires t < |h.calls|
  {
    h.(calls := h.calls[t := c])
  }

  function WithChannel(h: Hub, ch: nat, c: Channel): Hub
    requires ch < |h.channels|
  {
    h.(channels := h.channels[ch := c])
  }

  function WatchersOf(h: Hub, id: string): set<nat> { if id in h.watchers then h.watchers[id] else {} }

  function WithoutWatcher(watchers: map<string, set<nat>>, id: string, ch: nat): map<string, set<nat>> {
    if id !in watchers then watchers
    else if watchers[id] - {ch} == {} then watchers - {id}
    else watchers[id := watchers[id] - {ch}]
  }

  predicate InSubscribe(c: Call, ch: nat) { (c.Subscribing? || c.Registering?) && c.ch == ch }

  predicate InUnsubscribe(c: Call, ch: nat) { (c.Unsubscribing? || c.Removing? || c.Closing?) && c.ch == ch }

  /** select { case ch <- snap: default: } */
  function Offered(c: Channel, snap: nat): Channel {
    if |c.buffer| < CAPACITY then c.(buffer := c.buffer + [snap], offered := c.offered + [snap])
    else c.(offered := c.offered + [snap], missed := c.missed + 1)
  }

  function Taken(c: Channel): Channel
    requires |c.buffer| > 0
  {
    c.(buffer := c.buffer[1..], received := c.received + [c.buffer[0]])
  }

  function Do(h: Hub, e: Event): Hub {
    match e
    case Subscribe(id) =>
      Enters(h.(channels := h.channels + [Channel(id, [], false, [], [], 0)]), Subscribing(id, |h.channels|))
    case Unsubscribe(ch) =>  // only a subscription that has returned can be cancelled
      if ch < |h.channels| && forall t :: 0 <= t < |h.calls| ==> !InSubscribe(h.calls[t], ch) then Enters(h, Unsubscribing(ch)) else h
    case Broadcast(id) => Enters(h, Broadcasting(id))
    case Receive(ch) =>
      if ch < |h.channels| && |h.channels[ch].buffer| > 0 then WithChannel(h, ch, Taken(h.channels[ch])) else h
    case Send(t, ch) =>
      if t < |h.calls| && h.calls[t].Sending? && ch in h.calls[t].todo && ch < |h.channels| then
        var g := Goes(h, t, Sending(h.calls[t].id, h.calls[t].todo - {ch}));
        if h.channels[ch].closed then g.(panicked := true) else WithChannel(g, ch, Offered(h.channels[ch], t))
      else h
    case Advance(t) => if t < |h.calls| then Advanced(h, t, h.calls[t]) else h
  }

  function Advanced(h: Hub, t: nat, c: Call): Hub
    requires t < |h.calls|
  {
    match c
    case Subscribing(id, ch) =>
      if h.writer.None? && h.readers == {} then Goes(h.(writer := Some(t)), t, Registering(id, ch)) else h
    case Registering(id, ch) =>
      Goes(h.(watchers := h.watchers[id := WatchersOf(h, id) + {ch}], writer := None), t, Returned)
    case Unsubscribing(ch) =>
      if h.writer.None? && h.readers == {} then Goes(h.(writer := Some(t)), t, Removing(ch)) else h
    case Removing(ch) =>
      if ch < |h.channels| then
        Goes(h.(watchers := WithoutWatcher(h.watchers, h.channels[ch].session, ch), writer := None), t, Closing(ch))
      else h
    case Closing(ch) =>  // closing twice panics, and is recovered
      if ch < |h.channels| then Goes(WithChannel(h, ch, h.channels[ch].(closed := true)), t, Returned) else h
    case Broadcasting(id) =>
      if h.writer.None? then Goes(h.(readers := h.readers + {t}), t, Sending(id, WatchersOf(h, id))) else h
    case Sending(id, todo) => if todo == {} then Goes(h.(readers := h.readers - {t}), t, Returned) else h
    case Returned => h
  }

  ghost function Run(events: seq<Event>): Hub {
    if |events| == 0 then EMPTY else Do(Run(events[..|events| - 1]), events[|events| - 1])
  }

  // ---------------------------------------------------------------- what a subscriber sees

  predicate Subsequence(a: seq<nat>, b: seq<nat>) {
    |a| == 0 || (|b| > 0 && ((a[|a| - 1] == b[|b| - 1] && Subsequence(a[..|a| - 1], b[..|b| - 1])) || Subsequence(a, b[..|b| - 1])))
  }

  /** What arrived and what waits are, in order, offers made on the channel, each made once; if no
      send met a full buffer they are all of them. */
  ghost predicate ChannelOk(c: Channel) {
    && |c.buffer| <= CAPACITY && Subsequence(c.received + c.buffer, c.offered) && Distinct(c.offered)
    && |c.received + c.buffer| + c.missed == |c.offered| && (c.missed == 0 ==> c.received + c.buffer == c.offered)
  }

  lemma OfferKeepsOk(c: Channel, snap: nat)
    requires ChannelOk(c) && snap !in c.offered
    ensures ChannelOk(Offered(c, snap))
  {
    SubsequenceSnoc(c.received + c.buffer, c.offered, snap);
    DistinctOffers(c.offered, snap);
    assert c.received + (c.buffer + [snap]) == c.received + c.buffer + [snap];
  }

  /** One offer more, seen or missed. */
  lemma SubsequenceSnoc(a: seq<nat>, b: seq<nat>, x: nat)
    requires Subsequence(a, b)
    ensures Subsequence(a, b + [x]) && Subsequence(a + [x], b + [x])
  {
    assert (b + [x])[..|b|] == b && (a + [x])[..|a|] == a;
  }

  lemma DistinctOffers(s: seq<nat>, x: nat)
    requires Distinct(s) && x !in s
    ensures Distinct(s + [x])
  {
  }

  lemma TakeKeepsOk(c: Channel)
    requires ChannelOk(c) && |c.buffer| > 0
    ensures ChannelOk(Taken(c))
  {
    assert c.received + [c.buffer[0]] + c.buffer[1..] == c.received + c.buffer;
  }

  // ---------------------------------------------------------------- the invariant

  /** Who holds a lock, and which channel a call is about. */
  ghost predicate CallOk(h: Hub, t: nat) {
    && (t in h.readers ==> t < |h.calls|)
    && (t < |h.calls| ==>
          var c := h.calls[t];
          && (c.Registering? || c.Removing? ==> h.writer == Some(t)) && (c.Sending? <==> t in h.readers)
          && (c.Unsubscribing? || c.Removing? || c.Closing? ==> c.ch < |h.channels|)
          && (c.Subscribing? || c.Registering? ==>
                c.ch < |h.channels| && h.channels[c.ch].session == c.id && !h.channels[c.ch].closed))
  }

  /** A channel on its way in is in nobody else's hands. */
  ghost predicate AloneOk(h: Hub, t: nat, u: nat) {
    t < |h.calls| && u < |h.calls| && t != u && (h.calls[t].Subscribing? || h.calls[t].Registering?) ==>
      !InSubscribe(h.calls[u], h.calls[t].ch) && !InUnsubscribe(h.calls[u], h.calls[t].ch)
  }

  /** A watched channel is open and belongs to its session. */
  ghost predicate WatchOk(h: Hub, ch: nat, id: string) {
    && (ch in WatchersOf(h, id) ==> ch < |h.channels| && h.channels[ch].session == id && !h.channels[ch].closed)
    && (id in h.watchers ==> h.watchers[id] != {})
  }

  /** A channel about to be closed is not watched any more. */
  ghost predicate ClosingOk(h: Hub, t: nat, id: string) {
    t < |h.calls| && h.calls[t].Closing? ==> h.calls[t].ch !in WatchersOf(h, id)
  }

  /** A running broadcast has offered to exactly the watchers it no longer has to visit. */
  ghost predicate SenderOk(h: Hub, t: nat, ch: nat) {
    t < |h.calls| && h.calls[t].Sending? ==>
      && (ch in h.calls[t].todo ==> ch in WatchersOf(h, h.calls[t].id))
      && (ch in WatchersOf(h, h.calls[t].id) && ch < |h.channels| ==> (ch in h.calls[t].todo <==> t !in h.channels[ch].offered))
  }

  /** Offers come from broadcasts of the channel's session that have started sending. */
  ghost predicate OfferOk(h: Hub, t: nat, ch: nat) {
    ch < |h.channels| && t in h.channels[ch].offered ==>
      t < |h.calls| && (h.calls[t].Returned? || (h.calls[t].Sending? && h.calls[t].id == h.channels[ch].session))
  }

  ghost predicate AllOk(h: Hub, t: nat, u: nat, ch: nat, id: string) {
    && CallOk(h, t) && AloneOk(h, t, u) && WatchOk(h, ch, id) && ClosingOk(h, t, id) && SenderOk(h, t, ch) && OfferOk(h, t, ch)
    && (ch < |h.channels| ==> ChannelOk(h.channels[ch]))
  }

  ghost predicate Inv(h: Hub) {
    && !h.panicked && (h.writer.Some? ==> h.readers == {})
    && forall t: nat, u: nat, ch: nat, id: string :: AllOk(h, t, u, ch, id)
  }

  // ---------------------------------------------------------------- every step keeps it

  lemma SubscribeKeeps(h: Hub, session: string)
    requires Inv(h)
    ensures Inv(Do(h, Subscribe(session)))
  {
    var g := Do(h, Subscribe(session));
    forall t: nat, u: nat, ch: nat, id: string ensures AllOk(g, t, u, ch, id) {
      assert AllOk(h, t, u, ch, id) && AllOk(h, u, t, ch, id) && AllOk(h, t, u, |h.channels|, id);
      if t < |h.calls| && h.calls[t].Sending? { assert AllOk(h, t, u, |h.channels|, h.calls[t].id); }
    }
  }

  lemma UnsubscribeKeeps(h: Hub, c: nat)
    requires Inv(h)
    ensures Inv(Do(h, Unsubscribe(c)))
  {
    var g := Do(h, Unsubscribe(c));
    forall t: nat, u: nat, ch: nat, id: string ensures AllOk(g, t, u, ch, id) { assert AllOk(h, t, u, ch, id); }
  }

  lemma BroadcastKeeps(h: Hub, session: string)
    requires Inv(h)
    ensures Inv(Do(h, Broadcast(session)))
  {
    var g := Do(h, Broadcast(session));
    forall t: nat, u: nat, ch: nat, id: string ensures AllOk(g, t, u, ch, id) { assert AllOk(h, t, u, ch, id); }
  }

  lemma ReceiveKeeps(h: Hub, c: nat)
    requires Inv(h)
    ensures Inv(Do(h, Receive(c)))
  {
    var g := Do(h, Receive(c));
    if g != h {
      assert AllOk(h, 0, 0, c, "");
      TakeKeepsOk(h.channels[c]);
      forall t: nat, u: nat, ch: nat, id: string ensures AllOk(g, t, u, ch, id) { assert AllOk(h, t, u, ch, id); }
    }
  }

  lemma SendKeeps(h: Hub, s: nat, c: nat)
    requires Inv(h)
    ensures Inv(Do(h, Send(s, c)))
  {
    var g := Do(h, Send(s, c));
    if s < |h.calls| && h.calls[s].Sending? && c in h.calls[s].todo && c < |h.channels| {
      assert AllOk(h, s, s, c, h.calls[s].id);
      OfferKeepsOk(h.channels[c], s);
      forall t: nat, u: nat, ch: nat, id: string ensures AllOk(g, t, u, ch, id) { assert AllOk(h, t, u, ch, id); }
    }
  }

  lemma AdvanceWaiting(h: Hub, s: nat)
    requires Inv(h) && s < |h.calls| && (h.calls[s].Subscribing? || h.calls[s].Unsubscribing?)
    ensures Inv(Advanced(h, s, h.calls[s]))
  {
    var g := Advanced(h, s, h.calls[s]);
    forall t: nat, u: nat, ch: nat, id: string ensures AllOk(g, t, u, ch, id) { assert AllOk(h, t, u, ch, id); }
  }

  lemma AdvanceRegistering(h: Hub, s: nat)
    requires Inv(h) && s < |h.calls| && h.calls[s].Registering?
    ensures Inv(Advanced(h, s, h.calls[s]))
  {
    var g := Advanced(h, s, h.calls[s]);
    forall t: nat, u: nat, ch: nat, id: string ensures AllOk(g, t, u, ch, id) {
      assert AllOk(h, t, u, ch, id) && AllOk(h, s, t, h.calls[s].ch, h.calls[s].id);
    }
  }

  lemma AdvanceRemoving(h: Hub, s: nat)
    requires Inv(h) && s < |h.calls| && h.calls[s].Removing?
    ensures Inv(Advanced(h, s, h.calls[s]))
  {
    var g := Advanced(h, s, h.calls[s]);
    forall t: nat, u: nat, ch: nat, id: string ensures AllOk(g, t, u, ch, id) {
      assert AllOk(h, t, u, ch, id) && AllOk(h, s, t, h.calls[s].ch, id);
    }
  }

  lemma AdvanceClosing(h: Hub, s: nat)
    requires Inv(h) && s < |h.calls| && h.calls[s].Closing?
    ensures Inv(Advanced(h, s, h.calls[s]))
  {
    var g := Advanced(h, s, h.calls[s]);
    forall t: nat, u: nat, ch: nat, id: string ensures AllOk(g, t, u, ch, id) {
      assert AllOk(h, t, u, ch, id) && AllOk(h, s, t, h.calls[s].ch, id) && AllOk(h, t, s, ch, id);
    }
  }

  lemma AdvanceBroadcast(h: Hub, s: nat)
    requires Inv(h) && s < |h.calls| && (h.calls[s].Broadcasting? || h.calls[s].Sending?)
    ensures Inv(Advanced(h, s, h.calls[s]))
  {
    var g := Advanced(h, s, h.calls[s]);
    forall t: nat, u: nat, ch: nat, id: string ensures AllOk(g, t, u, ch, id) { assert AllOk(h, t, u, ch, id); }
  }

  lemma DoKeepsInv(h: Hub, e: Event)
    requires Inv(h)
    ensures Inv(Do(h, e))
  {
    match e
    case Subscribe(id) => SubscribeKeeps(h, id);
    case Unsubscribe(ch) => UnsubscribeKeeps(h, ch);
    case Broadcast(id) => BroadcastKeeps(h, id);
    case Receive(ch) => ReceiveKeeps(h, ch);
    case Send(t, ch) => SendKeeps(h, t, ch);
    case Advance(t) =>
      if t < |h.calls| {
        match h.calls[t]
        case Subscribing(id, ch) => AdvanceWaiting(h, t);
        case Unsubscribing(ch) => AdvanceWaiting(h, t);
        case Registering(id, ch) => AdvanceRegistering(h, t);
        case Removing(ch) => AdvanceRemoving(h, t);
        case Closing(ch) => AdvanceClosing(h, t);
        case Broadcasting(id) => AdvanceBroadcast(h, t);
        case Sending(id, todo) => AdvanceBroadcast(h, t);
        case Returned =>
      }
  }

  lemma {:induction false} RunsKeepInv(events: seq<Event>)
    ensures Inv(Run(events))
  {
    if |events| > 0 {
      RunsKeepInv(events[..|events| - 1]);
      DoKeepsInv(Run(events[..|events| - 1]), events[|events| - 1]);
    } else {
      forall t: nat, u: nat, ch: nat, id: string ensures AllOk(EMPTY, t, u, ch, id) { }
    }
  }

  // ---------------------------------------------------------------- the main results

  /** However the calls interleave, nothing is ever sent on a closed channel. */
  lemma NothingIsSentOnAClosedChannel(events: seq<Event>)
    ensures !Run(events).panicked
  {
    RunsKeepInv(events);
  }

  lemma NoEmptyWatcherSets(events: seq<Event>, id: string)
    requires id in Run(events).watchers
    ensures Run(events).watchers[id] != {}
  {
    RunsKeepInv(events);
    assert AllOk(Run(events), 0, 0, 0, id);
  }

  /** A subscriber receives, in order and at most once each, offers made on its channel; all of
      them, unless a send met a full buffer. */
  lemma SubscribersSeeOffersInOrder(events: seq<Event>, ch: nat)
    requires ch < |Run(events).channels|
    ensures var c := Run(events).channels[ch];
      && |c.buffer| <= CAPACITY && Subsequence(c.received + c.buffer, c.offered) && Distinct(c.offered)
      && (c.missed == 0 ==> c.received + c.buffer == c.offered)
  {
    RunsKeepInv(events);
    assert AllOk(Run(events), 0, 0, ch, "");
  }

  /** A broadcast that has nobody left to visit has been offered to every watcher of its session,
      and only a broadcast of the session is ever offered. */
  lemma BroadcastReachesEveryWatcher(events: seq<Event>, t: nat, ch: nat)
    requires t < |Run(events).calls| && Run(events).calls[t].Sending? && Run(events).calls[t].todo == {}
    requires ch in WatchersOf(Run(events), Run(events).calls[t].id)
    ensures ch < |Run(events).channels| && t in Run(events).channels[ch].offered
    ensures Run(events).channels[ch].session == Run(events).calls[t].id
  {
    RunsKeepInv(events);
    assert AllOk(Run(events), t, t, ch, Run(events).calls[t].id);
  }

  /** From h to g offers on a channel are only added at the end, and not by a returned broadcast. */
  ghost predicate Past(h: Hub, g: Hub, ch: nat, t: nat) {
    && ch < |h.channels| <= |g.channels| && h.channels[ch].offered <= g.channels[ch].offered
    && t < |h.calls| <= |g.calls| && h.calls[t].Returned? && g.calls[t].Returned?
    && (t in g.channels[ch].offered ==> t in h.channels[ch].offered)
  }

  lemma StepKeepsPast(h: Hub, e: Event, ch: nat, t: nat)
    requires Inv(h) && ch < |h.channels| && t < |h.calls| && h.calls[t].Returned?
    ensures Past(h, Do(h, e), ch, t)
  {
  }

  lemma {:induction false} RunsKeepPast(before: seq<Event>, events: seq<Event>, ch: nat, t: nat)
    requires before <= events && ch < |Run(before).channels| && t < |Run(before).calls| && Run(before).calls[t].Returned?
    ensures Past(Run(before), Run(events), ch, t)
    decreases |events|
  {
    if before != events {
      var front := events[..|events| - 1];
      RunsKeepPast(before, front, ch, t);
      RunsKeepInv(front);
      StepKeepsPast(Run(front), events[|events| - 1], ch, t);
    }
  }

  lemma StepMissesThePast(h: Hub, e: Event, ch: nat, t: nat)
    requires Inv(h) && |h.channels| <= ch && t < |h.calls| && h.calls[t].Returned?
    ensures t < |Do(h, e).calls| && Do(h, e).calls[t].Returned?
    ensures ch < |Do(h, e).channels| ==> t !in Do(h, e).channels[ch].offered
  {
  }

  /** A channel made after a broadcast returned is never offered it. */
  lemma {:induction false} NewcomersMissThePast(before: seq<Event>, events: seq<Event>, ch: nat, t: nat)
    requires before <= events && t < |Run(before).calls| && Run(before).calls[t].Returned? && |Run(before).channels| <= ch
    ensures t < |Run(events).calls| && Run(events).calls[t].Returned?
    ensures ch < |Run(events).channels| ==> t !in Run(events).channels[ch].offered
    decreases |events|
  {
    if before != events {
      var front := events[..|events| - 1];
      NewcomersMissThePast(before, front, ch, t);
      RunsKeepInv(front);
      var h, e := Run(front), events[|events| - 1];
      if ch < |h.channels| { StepKeepsPast(h, e, ch, t); } else { StepMissesThePast(h, e, ch, t); }
    }
  }

  /** A subscriber sees two broadcasts in the order in which they took place, if the first had
      returned before the second was called. */
  lemma LaterBroadcastsComeLater(before: seq<Event>, events: seq<Event>, ch: nat, t: nat, u: nat, i: nat, j: nat)
    requires before <= events && t < |Run(before).calls| <= u && Run(before).calls[t].Returned?
    requires ch < |Run(events).channels| && i < |Run(events).channels[ch].offered| && j < |Run(events).channels[ch].offered|
    requires Run(events).channels[ch].offered[i] == t && Run(events).channels[ch].offered[j] == u
    ensures i < j
  {
    if ch < |Run(before).channels| {
      RunsKeepPast(before, events, ch, t);
      RunsKeepInv(before);
      RunsKeepInv(events);
      assert AllOk(Run(before), u, u, ch, "") && AllOk(Run(events), t, t, ch, "");
      var was, now := Run(before).channels[ch].offered, Run(events).channels[ch].offered;
      var k :| 0 <= k < |was| && was[k] == t;
      assert now[k] == t;
      assert forall m :: 0 <= m < |was| ==> was[m] == now[m] && was[m] in was;
    } else {
      NewcomersMissThePast(before, events, ch, t);
    }
  }
}
