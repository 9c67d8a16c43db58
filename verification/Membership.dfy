/**
 Joining and leaving topics. A peer's machine changes its subscriptions at once; detached
 goroutines tell the simulator later, by deltas that arrive in any order. The counter of a topic
 therefore lags behind; a conservation law says by exactly how much.
 */
module Membership {
  import opened Names
  import opened World

  // ---- the protocol as a state machine ----

  /**
   The pub/sub part of a peer. handles are the topics open in the library: a second Join of an
   open topic fails. joining are the goroutines between their Join and their subscription.
   */
  datatype ClientView = ClientView(subs: set<TopicId>, handles: set<TopicId>, joining: set<TopicId>)

  const FRESH_CLIENT := ClientView({}, {}, {})

  /** A peer counter change on its way: +1 for a join, -1 for a leave. */
  datatype Delta = Delta(topic: TopicId, amount: int)

  /**
   clients keeps removed peers too: their machines are disposed of, so they keep the subscriptions
   they had when they stopped. lost is the ledger of what never reached a live counter: deltas that
   found no topic, and the counters of removed topics.
   */
  datatype Net = Net(
    clients: map<PeerId, ClientView>,
    removed: set<PeerId>,
    counts: map<TopicId, int>,
    inflight: multiset<Delta>,
    lost: map<TopicId, int>)

  const EMPTY_NET := Net(map[], {}, map[], multiset{}, map[])

  datatype Act =
    | Start(p: PeerId)
    | Remove(p: PeerId)
    | Create(t: TopicId)
    | Dispose(t: TopicId)
    | OpenTopic(p: PeerId, t: TopicId)
    | Abandon(p: PeerId, t: TopicId)
    | Subscribe(p: PeerId, t: TopicId)
    | Unsubscribe(p: PeerId, t: TopicId, closed: bool)
    | Deliver(d: Delta)

  function Get(m: map<TopicId, int>, t: TopicId): int {
    if t in m then m[t] else 0
  }

  function WithClient(n: Net, p: PeerId, c: ClientView): Net {
    n.(clients := n.clients[p := c])
  }

  function Sending(n: Net, d: Delta): Net {
    n.(inflight := n.inflight + multiset{d})
  }

  function Delivered(n: Net, d: Delta): Net {
    var n' := n.(inflight := n.inflight - multiset{d});
    if d.topic in n.counts then n'.(counts := n.counts[d.topic := n.counts[d.topic] + d.amount])
    else n'.(lost := n.lost[d.topic := Get(n.lost, d.topic) + d.amount])
  }

  /** The peer's machine is still there to take steps. */
  predicate Alive(n: Net, p: PeerId) {
    p in n.clients && p !in n.removed
  }

  predicate Applies(n: Net, a: Act) {
    match a
    case Start(p) => p !in n.clients
    case Remove(p) => Alive(n, p)
    case Create(t) => t !in n.counts
    case Dispose(t) => t in n.counts
    case OpenTopic(p, t) => Alive(n, p) && t !in n.clients[p].handles
    case Abandon(p, t) => Alive(n, p) && t in n.clients[p].joining
    case Subscribe(p, t) => Alive(n, p) && t in n.clients[p].joining
    case Unsubscribe(p, t, _) => Alive(n, p) && t in n.clients[p].subs
    case Deliver(d) => d in n.inflight
  }

  function Opened(c: ClientView, t: TopicId): ClientView {
    c.(handles := c.handles + {t}, joining := c.joining + {t})
  }

  function Subscribed(c: ClientView, t: TopicId): ClientView {
    c.(subs := c.subs + {t}, joining := c.joining - {t})
  }

  /** The library may refuse to close the topic; its handle then stays open. */
  function Unsubscribed(c: ClientView, t: TopicId, closed: bool): ClientView {
    c.(subs := c.subs - {t}, handles := if closed then c.handles - {t} else c.handles)
  }

  /** What each step does; a step that does not apply is logged and changes nothing. */
  function Next(n: Net, a: Act): Net {
    if !Applies(n, a) then n
    else match a
      case Start(p) => WithClient(n, p, FRESH_CLIENT)
      case Remove(p) => n.(removed := n.removed + {p})
      case Create(t) => n.(counts := n.counts[t := 0])
      case Dispose(t) => n.(counts := n.counts - {t}, lost := n.lost[t := Get(n.lost, t) + n.counts[t]])
      case OpenTopic(p, t) => WithClient(n, p, Opened(n.clients[p], t))
      case Abandon(p, t) => WithClient(n, p, n.clients[p].(joining := n.clients[p].joining - {t}))
      case Subscribe(p, t) => Sending(WithClient(n, p, Subscribed(n.clients[p], t)), Delta(t, 1))
      case Unsubscribe(p, t, closed) =>
        Sending(WithClient(n, p, Unsubscribed(n.clients[p], t, closed)), Delta(t, -1))
      case Deliver(d) => Delivered(n, d)
  }

  function Play(acts: seq<Act>): Net {
    if acts == [] then EMPTY_NET else Next(Play(acts[..|acts| - 1]), acts[|acts| - 1])
  }

  /** The peers, removed ones included, that hold a subscription to t. */
  function Subscribers(n: Net, t: TopicId): set<PeerId> {
    set p | p in n.clients && t in n.clients[p].subs
  }

  /** A subscription or an unfinished join holds the library's handle, and never both at once. */
  ghost predicate ClientOk(c: ClientView) {
    c.subs <= c.handles && c.joining <= c.handles && c.subs !! c.joining
  }

  ghost predicate Handled(n: Net) {
    && (forall p :: p in n.clients ==> ClientOk(n.clients[p]))
    && (forall d :: d in n.inflight ==> d.amount == 1 || d.amount == -1)
  }

  /** The conservation law of one topic name. */
  ghost predicate Conserved(n: Net, t: TopicId) {
    Get(n.counts, t) + n.inflight[Delta(t, 1)] - n.inflight[Delta(t, -1)]
      == |Subscribers(n, t)| - Get(n.lost, t)
  }

  lemma SetClient(n: Net, p: PeerId, c: ClientView, t: TopicId)
    requires Handled(n) && ClientOk(c)
    ensures Handled(WithClient(n, p, c))
    ensures |Subscribers(WithClient(n, p, c), t)| == |Subscribers(n, t)| +
      (if t in c.subs then 1 else 0) - (if p in n.clients && t in n.clients[p].subs then 1 else 0)
  {
    var others := Subscribers(n, t) - {p};
    assert Subscribers(WithClient(n, p, c), t) == if t in c.subs then others + {p} else others;
    assert Subscribers(n, t) == if p in Subscribers(n, t) then others + {p} else others;
  }

  lemma NextKeepsHandled(n: Net, a: Act)
    requires Handled(n)
    ensures Handled(Next(n, a))
  {
    if Applies(n, a) {
      match a
      case Start(p) => SetClient(n, p, FRESH_CLIENT, NO_TOPIC);
      case OpenTopic(p, t) => SetClient(n, p, Opened(n.clients[p], t), t);
      case Abandon(p, t) => SetClient(n, p, n.clients[p].(joining := n.clients[p].joining - {t}), t);
      case Subscribe(p, t) => SetClient(n, p, Subscribed(n.clients[p], t), t);
      case Unsubscribe(p, t, closed) => SetClient(n, p, Unsubscribed(n.clients[p], t, closed), t);
      case _ =>
    }
  }

  /** A client that stays subscribed or unsubscribed to the same topics. */
  lemma QuietClient(n: Net, p: PeerId, c: ClientView, t: TopicId)
    requires Handled(n) && Conserved(n, t) && ClientOk(c)
    requires c.subs == if p in n.clients then n.clients[p].subs else {}
    ensures Conserved(WithClient(n, p, c), t)
  {
    SetClient(n, p, c, t);
  }

  /** A subscription that comes or goes together with its delta. */
  lemma SendingClient(n: Net, p: PeerId, c: ClientView, d: Delta, t: TopicId)
    requires Handled(n) && Conserved(n, t) && ClientOk(c) && p in n.clients
    requires d.amount == 1 || d.amount == -1
    requires d.amount == 1 ==> d.topic !in n.clients[p].subs && c.subs == n.clients[p].subs + {d.topic}
    requires d.amount == -1 ==> d.topic in n.clients[p].subs && c.subs == n.clients[p].subs - {d.topic}
    ensures Conserved(Sending(WithClient(n, p, c), d), t)
  {
    SetClient(n, p, c, t);
    var n' := Sending(WithClient(n, p, c), d);
    assert Subscribers(n', t) == Subscribers(WithClient(n, p, c), t);
    assert forall x :: n'.inflight[x] == n.inflight[x] + if x == d then 1 else 0;
  }

  lemma DeliveryConserves(n: Net, d: Delta, t: TopicId)
    requires Handled(n) && Conserved(n, t) && d in n.inflight
    ensures Conserved(Delivered(n, d), t)
  {
  }

  lemma NextKeepsConserved(n: Net, a: Act, t: TopicId)
    requires Handled(n) && Conserved(n, t) && Applies(n, a)
    ensures Conserved(Next(n, a), t)
  {
    match a
    case Start(p) => QuietClient(n, p, FRESH_CLIENT, t);
    case OpenTopic(p, u) => QuietClient(n, p, Opened(n.clients[p], u), t);
    case Abandon(p, u) => QuietClient(n, p, n.clients[p].(joining := n.clients[p].joining - {u}), t);
    case Subscribe(p, u) =>
      assert ClientOk(n.clients[p]);
      SendingClient(n, p, Subscribed(n.clients[p], u), Delta(u, 1), t);
    case Unsubscribe(p, u, closed) =>
      SendingClient(n, p, Unsubscribed(n.clients[p], u, closed), Delta(u, -1), t);
    case Deliver(d) => DeliveryConserves(n, d, t);
    case _ => assert Subscribers(Next(n, a), t) == Subscribers(n, t);
  }

  /** The law holds for every name and every order of joins, leaves, removals and deliveries. */
  lemma {:induction false} ConservationInRuns(acts: seq<Act>, t: TopicId)
    ensures Handled(Play(acts)) && Conserved(Play(acts), t)
  {
    if acts == [] {
    } else {
      var front, last := acts[..|acts| - 1], acts[|acts| - 1];
      ConservationInRuns(front, t);
      NextKeepsHandled(Play(front), last);
      if Applies(Play(front), last) { NextKeepsConserved(Play(front), last, t); }
    }
  }

  ghost predicate Quiet(n: Net, t: TopicId) {
    n.inflight[Delta(t, 1)] == 0 && n.inflight[Delta(t, -1)] == 0
  }

  /** Undelivered joins less undelivered leaves. */
  function Pending(n: Net, t: TopicId): int {
    n.inflight[Delta(t, 1)] as int - n.inflight[Delta(t, -1)] as int
  }

  lemma PlaySnoc(acts: seq<Act>, a: Act)
    ensures Play(acts + [a]) == Next(Play(acts), a)
  {
    assert (acts + [a])[..|acts|] == acts;
  }

  // ---- joining again ----

  /** After a leave the topic can be joined again exactly if the library closed it. */
  lemma ClosedTopicsReopen(n: Net, p: PeerId, t: TopicId, closed: bool)
    requires Handled(n) && Applies(n, Unsubscribe(p, t, closed))
    ensures Applies(Next(n, Unsubscribe(p, t, closed)), OpenTopic(p, t)) <==> closed
  {
    assert ClientOk(n.clients[p]);
  }

  /** Until it has left, or once its join was abandoned, a peer cannot join the topic again. */
  lemma OpenTopicsStayOpen(n: Net, p: PeerId, t: TopicId)
    requires Handled(n) && Alive(n, p)
    ensures Applies(n, OpenTopic(p, t)) ==>
      var n' := Next(n, OpenTopic(p, t));
      && !Applies(n', OpenTopic(p, t)) && Applies(n', Subscribe(p, t)) && Applies(n', Abandon(p, t))
      && !Applies(Next(n', Subscribe(p, t)), OpenTopic(p, t))
      && !Applies(Next(n', Abandon(p, t)), OpenTopic(p, t))
      && !Applies(Next(n', Abandon(p, t)), Subscribe(p, t))
  {
  }

  // ---- the lives of a name ----

  /** While a topic lives its ledger is closed. */
  lemma LedgerAfter(n: Net, a: Act, t: TopicId)
    requires a != Dispose(t) && (Mentions(a, t) ==> t in n.counts)
    ensures t in Next(n, a).counts <==> t in n.counts || a == Create(t)
    ensures Get(Next(n, a).lost, t) == Get(n.lost, t)
  {
  }

  lemma {:induction false} LedgerOfALife(acts: seq<Act>, after: seq<Act>, t: TopicId)
    requires t in Play(acts).counts && Dispose(t) !in after
    ensures t in Play(acts + after).counts && Get(Play(acts + after).lost, t) == Get(Play(acts).lost, t)
    decreases |after|
  {
    hide Play, Next;
    if after == [] {
      assert acts + after == acts;
    } else {
      var front, last := after[..|after| - 1], after[|after| - 1];
      assert acts + after == (acts + front) + [last] && last in after;
      LedgerOfALife(acts, front, t);
      PlaySnoc(acts + front, last);
      LedgerAfter(Play(acts + front), last, t);
    }
  }

  /**
   What a life of a name starts with decides its counter for good: before are the steps up to its
   creation, after those since. At rest the counter is exact if and only if the subscriptions that
   were there already were just the deltas still to come.
   */
  lemma CounterOfALife(before: seq<Act>, after: seq<Act>, t: TopicId)
    requires t !in Play(before).counts && Dispose(t) !in after
    ensures var b, n := Play(before), Play(before + [Create(t)] + after);
      && t in n.counts
      && n.counts[t] + Pending(n, t) - |Subscribers(n, t)| == Pending(b, t) - |Subscribers(b, t)|
      && (Quiet(n, t) ==> (n.counts[t] == |Subscribers(n, t)| <==> |Subscribers(b, t)| == Pending(b, t)))
  {
    PlaySnoc(before, Create(t));
    LedgerOfALife(before + [Create(t)], after, t);
    ConservationInRuns(before, t);
    ConservationInRuns(before + [Create(t)] + after, t);
  }

  /** The name's first life: never removed, and nothing about it happened before it was created. */
  predicate FirstLife(acts: seq<Act>, t: TopicId) {
    forall i :: 0 <= i < |acts| ==>
      acts[i] != Dispose(t) && (Mentions(acts[i], t) ==> Create(t) in acts[..i])
  }

  predicate Mentions(a: Act, t: TopicId) {
    match a
    case OpenTopic(_, u) => u == t
    case Abandon(_, u) => u == t
    case Subscribe(_, u) => u == t
    case Unsubscribe(_, u, _) => u == t
    case Deliver(d) => d.topic == t
    case _ => false
  }

  lemma {:induction false} FirstLifeLosesNothing(acts: seq<Act>, t: TopicId)
    requires FirstLife(acts, t)
    ensures t in Play(acts).counts <==> Create(t) in acts
    ensures Get(Play(acts).lost, t) == 0
  {
    if acts == [] {
    } else {
      var front, last := acts[..|acts| - 1], acts[|acts| - 1];
      forall i | 0 <= i < |front|
        ensures front[i] != Dispose(t) && (Mentions(front[i], t) ==> Create(t) in front[..i])
      {
        assert front[i] == acts[i] && front[..i] == acts[..i];
      }
      FirstLifeLosesNothing(front, t);
      LedgerAfter(Play(front), last, t);
      assert acts == front + [last];
    }
  }

  /** In a name's first life the lag is exactly what is in flight; at rest the counter is exact. */
  lemma CounterInFirstLife(acts: seq<Act>, t: TopicId)
    requires FirstLife(acts, t) && Create(t) in acts
    ensures var n := Play(acts);
      && t in n.counts
      && n.counts[t] + Pending(n, t) == |Subscribers(n, t)|
      && (Quiet(n, t) ==> n.counts[t] == |Subscribers(n, t)| >= 0)
  {
    ConservationInRuns(acts, t);
    FirstLifeLosesNothing(acts, t);
  }

  /** The counter is below zero exactly while more joins are on their way than leaves and subscribers. */
  lemma CounterIsNegativeIff(acts: seq<Act>, t: TopicId)
    requires FirstLife(acts, t) && Create(t) in acts
    ensures var n := Play(acts);
      && t in n.counts
      && (n.counts[t] < 0 <==> n.inflight[Delta(t, 1)] > |Subscribers(n, t)| + n.inflight[Delta(t, -1)])
  {
    CounterInFirstLife(acts, t);
  }

  // ---- removed peers ----

  function LiveSubscribers(n: Net, t: TopicId): set<PeerId> {
    Subscribers(n, t) - n.removed
  }

  function RemovedSubscribers(n: Net, t: TopicId): set<PeerId> {
    Subscribers(n, t) * n.removed
  }

  /** A removed peer takes no step any more. */
  lemma RemovedStays(n: Net, a: Act, p: PeerId)
    requires p in n.clients && p in n.removed
    ensures p in Next(n, a).clients && p in Next(n, a).removed && Next(n, a).clients[p] == n.clients[p]
  {
  }

  /** So in every continuation it keeps the subscriptions it had. */
  lemma {:induction false} RemovedIsFrozen(acts: seq<Act>, more: seq<Act>, p: PeerId)
    requires p in Play(acts).clients && p in Play(acts).removed
    ensures var n := Play(acts + more);
      p in n.clients && p in n.removed && n.clients[p] == Play(acts).clients[p]
    decreases |more|
  {
    hide Play, Next;
    if more == [] {
      assert acts + more == acts;
    } else {
      var front, last := more[..|more| - 1], more[|more| - 1];
      RemovedIsFrozen(acts, front, p);
      assert acts + more == (acts + front) + [last];
      PlaySnoc(acts + front, last);
      RemovedStays(Play(acts + front), last, p);
    }
  }

  /** The i-th step removed the peer p while it was subscribed to t. */
  predicate RemovedSubscribed(acts: seq<Act>, i: nat, p: PeerId, t: TopicId) {
    i < |acts| && acts[i] == Remove(p) && Alive(Play(acts[..i]), p) && t in Play(acts[..i]).clients[p].subs
  }

  lemma RemovedSubscribedStays(acts: seq<Act>, i: nat, p: PeerId, t: TopicId)
    requires RemovedSubscribed(acts, i, p, t)
    ensures p in RemovedSubscribers(Play(acts), t)
  {
    hide Play;
    assert acts[..i + 1] == acts[..i] + [Remove(p)];
    PlaySnoc(acts[..i], Remove(p));
    RemovedIsFrozen(acts[..i + 1], acts[i + 1..], p);
    assert acts[..i + 1] + acts[i + 1..] == acts;
  }

  lemma {:induction false} RemovedSubscriberWasRemoved(acts: seq<Act>, p: PeerId, t: TopicId) returns (i: nat)
    requires p in RemovedSubscribers(Play(acts), t)
    ensures RemovedSubscribed(acts, i, p, t)
  {
    var front, last := acts[..|acts| - 1], acts[|acts| - 1];
    if p in Play(front).removed {
      OnlyClientsAreRemoved(front);
      RemovedStays(Play(front), last, p);
      i := RemovedSubscriberWasRemoved(front, p, t);
      assert front[..i] == acts[..i];
    } else {
      i := |front|;
    }
  }

  lemma {:induction false} OnlyClientsAreRemoved(acts: seq<Act>)
    ensures Play(acts).removed <= Play(acts).clients.Keys
  {
    hide Next;
    if acts == [] {
    } else {
      OnlyClientsAreRemoved(acts[..|acts| - 1]);
      StepRemovesClients(Play(acts[..|acts| - 1]), acts[|acts| - 1]);
    }
  }

  lemma StepRemovesClients(n: Net, a: Act)
    requires n.removed <= n.clients.Keys
    ensures Next(n, a).removed <= Next(n, a).clients.Keys
  {
  }

  /**
   At rest the counter exceeds the live subscribers by the removed ones; it counts the live ones
   exactly if and only if no peer was ever removed while it was subscribed.
   */
  lemma LiveCounterIsExactIff(acts: seq<Act>, t: TopicId)
    requires FirstLife(acts, t) && Create(t) in acts && Quiet(Play(acts), t)
    ensures var n := Play(acts);
      && t in n.counts
      && n.counts[t] == |LiveSubscribers(n, t)| + |RemovedSubscribers(n, t)|
      && (n.counts[t] == |LiveSubscribers(n, t)| <==> forall i, p :: !RemovedSubscribed(acts, i, p, t))
  {
    CounterInFirstLife(acts, t);
    var n := Play(acts);
    assert Subscribers(n, t) == LiveSubscribers(n, t) + RemovedSubscribers(n, t);
    if RemovedSubscribers(n, t) != {} {
      var p :| p in RemovedSubscribers(n, t);
      var i := RemovedSubscriberWasRemoved(acts, p, t);
    }
    forall i, p | RemovedSubscribed(acts, i, p, t) ensures RemovedSubscribers(n, t) != {} {
      RemovedSubscribedStays(acts, i, p, t);
    }
  }

  // ---- runs that show it ----

  /** A peer starts and joins a new topic; its delta is still in flight. */
  function JoiningRun(p: PeerId, t: TopicId): seq<Act> {
    [Start(p), Create(t), OpenTopic(p, t), Subscribe(p, t)]
  }

  lemma Created(p: PeerId, t: TopicId)
    ensures Play([Start(p), Create(t)]) == Net(map[p := FRESH_CLIENT], {}, map[t := 0], multiset{}, map[])
  {
    hide Play;
    NothingPlayed();
    PlaySnoc([], Start(p));
    PlaySnoc([Start(p)], Create(t));
    assert [] + [Start(p)] == [Start(p)] && [Start(p)] + [Create(t)] == [Start(p), Create(t)];
  }

  lemma Joined(p: PeerId, t: TopicId)
    ensures Play(JoiningRun(p, t)) ==
      Net(map[p := ClientView({t}, {t}, {})], {}, map[t := 0], multiset{Delta(t, 1)}, map[])
  {
    hide Play;
    Created(p, t);
    var run := [Start(p), Create(t)];
    PlaySnoc(run, OpenTopic(p, t));
    assert Opened(FRESH_CLIENT, t) == ClientView({}, {t}, {t});
    PlaySnoc(run + [OpenTopic(p, t)], Subscribe(p, t));
    assert Subscribed(ClientView({}, {t}, {t}), t) == ClientView({t}, {t}, {});
    assert run + [OpenTopic(p, t)] + [Subscribe(p, t)] == JoiningRun(p, t);
  }

  lemma JoinedInFirstLife(p: PeerId, t: TopicId)
    ensures FirstLife(JoiningRun(p, t), t) && Create(t) in JoiningRun(p, t)
  {
    var run := JoiningRun(p, t);
    assert run[1] == Create(t) && run[..2][1] == run[..3][1] == Create(t);
  }

  lemma NothingPlayed()
    ensures Play([]) == EMPTY_NET
  {
  }

  lemma FirstLifeSnoc(acts: seq<Act>, a: Act, t: TopicId)
    requires FirstLife(acts, t) && Create(t) in acts && a != Dispose(t)
    ensures FirstLife(acts + [a], t) && Create(t) in acts + [a]
  {
    var more := acts + [a];
    forall i | 0 <= i < |more|
      ensures more[i] != Dispose(t) && (Mentions(more[i], t) ==> Create(t) in more[..i])
    {
      if i < |acts| {
        assert more[i] == acts[i] && more[..i] == acts[..i];
      } else {
        assert more[..i] == acts;
      }
    }
  }

  lemma FirstLifeStep(acts: seq<Act>, a: Act, t: TopicId)
    requires FirstLife(acts, t) && Create(t) in acts && a != Dispose(t)
    ensures FirstLife(acts + [a], t) && Create(t) in acts + [a] && Play(acts + [a]) == Next(Play(acts), a)
  {
    FirstLifeSnoc(acts, a, t);
    PlaySnoc(acts, a);
  }

  /** The counter can be negative for a while: the leave overtakes the join. */
  lemma CounterCanDipBelowZero(p: PeerId, t: TopicId) returns (acts: seq<Act>)
    ensures FirstLife(acts, t) && t in Play(acts).counts && Play(acts).counts[t] == -1
  {
    hide Play, FirstLife;
    Joined(p, t);
    acts := JoiningRun(p, t);
    JoinedInFirstLife(p, t);
    FirstLifeStep(acts, Unsubscribe(p, t, true), t);
    acts := acts + [Unsubscribe(p, t, true)];
    FirstLifeStep(acts, Deliver(Delta(t, -1)), t);
    acts := acts + [Deliver(Delta(t, -1))];
  }

  /** A removed subscriber is counted for good: nothing in flight, nobody live, and the counter at one. */
  lemma RemovedSubscriberIsCounted(p: PeerId, t: TopicId) returns (acts: seq<Act>)
    ensures FirstLife(acts, t) && Create(t) in acts && Quiet(Play(acts), t)
    ensures Play(acts).counts == map[t := 1] && LiveSubscribers(Play(acts), t) == {}
  {
    hide Play, FirstLife;
    Joined(p, t);
    acts := JoiningRun(p, t);
    JoinedInFirstLife(p, t);
    FirstLifeStep(acts, Deliver(Delta(t, 1)), t);
    acts := acts + [Deliver(Delta(t, 1))];
    FirstLifeStep(acts, Remove(p), t);
    acts := acts + [Remove(p)];
  }

  /** A late leave hits the topic that has taken over the name, whose counter rests below zero. */
  lemma ReusedNameGoesWrong(p: PeerId, t: TopicId) returns (before: seq<Act>, after: seq<Act>)
    ensures t !in Play(before).counts && Dispose(t) !in after
    ensures var n := Play(before + [Create(t)] + after);
      Quiet(n, t) && n.counts == map[t := -1] && Subscribers(n, t) == {}
  {
    hide Play;
    Joined(p, t);
    var d := Delta(t, 1);
    before := JoiningRun(p, t);
    PlaySnoc(before, Deliver(d));
    before := before + [Deliver(d)];
    PlaySnoc(before, Dispose(t));
    before := before + [Dispose(t)];
    PlaySnoc(before, Unsubscribe(p, t, true));
    before := before + [Unsubscribe(p, t, true)];
    after := [Deliver(Delta(t, -1))];
    PlaySnoc(before, Create(t));
    PlaySnoc(before + [Create(t)], Deliver(Delta(t, -1)));
  }

  // ---- the counter in the simulator's world ----

  /** A delta delivered here and a count change in the simulator's world are the same change. */
  lemma DeliveryIsCountChange(cfg: Config, w: World, n: Net, d: Delta)
    requires n.counts == w.topics && d in n.inflight
    ensures Next(n, Deliver(d)).counts == Step(cfg, w, CountChange(d.topic, d.amount)).topics
  {
  }
}
