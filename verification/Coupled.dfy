/**
 The simulator's world and the membership protocol together: what the handlers do to topics and
 peers, the machines of the peers that they ask to join, and the deltas that come back. The world's
 counters then obey the protocol's conservation law, and a name has no past before its first topic.
 */
module Coupled {
  import opened Names
  import opened World
  import opened WorldRuns
  import opened Membership

  datatype Joint = SimStep(a: Action) | PeerStep(act: Act) | Arrival(d: Delta)

  /** What happened so far, on both sides. */
  datatype Pair = Pair(run: seq<Action>, acts: seq<Act>)

  /** A handler's share in the protocol. */
  function Share(w: World, a: Action): seq<Act> {
    match a
    case AddPeer => [Start(PeerName(w.nextPeerNum))]
    case RemovePeer(p) => [Remove(p)]
    case AddTopic(t, _) => [Create(t)]
    case RemoveTopic(t) => [Dispose(t)]
    case _ => []
  }

  /** A peer only opens a topic that its machine was asked to join; counters change by arrivals only. */
  predicate CanStep(cfg: Config, w: World, n: Net, step: Joint) {
    match step
    case SimStep(a) => Enabled(cfg, w, a) && !a.CountChange?
    case PeerStep(act) =>
      && Applies(n, act)
      && (act.OpenTopic? || act.Abandon? || act.Subscribe? || act.Unsubscribe?)
      && (act.OpenTopic? ==> act.p in w.peers && Join(act.t) in w.peers[act.p].requests)
    case Arrival(d) => d in n.inflight
  }

  function After(w: World, j: Pair, step: Joint): Pair {
    match step
    case SimStep(a) => Pair(j.run + [a], j.acts + Share(w, a))
    case PeerStep(act) => Pair(j.run, j.acts + [act])
    case Arrival(d) =>
      Pair(j.run + if d.topic in w.topics then [CountChange(d.topic, d.amount)] else [], j.acts + [Deliver(d)])
  }

  function Both(cfg: Config, steps: seq<Joint>): Pair {
    if steps == [] then Pair([], [])
    else
      var j, step := Both(cfg, steps[..|steps| - 1]), steps[|steps| - 1];
      if CanStep(cfg, Exec(cfg, j.run), Play(j.acts), step) then After(Exec(cfg, j.run), j, step) else j
  }

  function Made(acts: seq<Act>): set<TopicId> {
    set a | a in acts && a.Create? :: a.t
  }

  ghost predicate AsksOnly(v: PeerView, made: set<TopicId>) {
    forall r :: r in v.requests && r.Join? ==> r.topic in made
  }

  /** The live topics and their counters are the same on both sides, and so are the present peers. */
  ghost predicate Matched(w: World, n: Net) {
    && n.counts == w.topics
    && n.clients.Keys - n.removed == w.peers.Keys
    && forall p :: p in n.clients ==> UsedName(p, w.nextPeerNum)
  }

  /** No topic is known to the machines or on the way that was not made. */
  ghost predicate NetFounded(n: Net, made: set<TopicId>) {
    && n.counts.Keys <= made
    && (forall p :: p in n.clients ==> n.clients[p].handles <= made)
    && (forall d :: d in n.inflight ==> d.topic in made)
  }

  /** Nor was any peer asked to join one that was not made. */
  ghost predicate Founded(w: World, n: Net, made: set<TopicId>) {
    NetFounded(n, made) && (forall p :: p in w.peers ==> AsksOnly(w.peers[p], made))
  }

  /** Whatever mentions a topic comes after a creation of it. */
  ghost predicate InOrder(acts: seq<Act>) {
    forall i, t :: 0 <= i < |acts| && Mentions(acts[i], t) ==> Create(t) in acts[..i]
  }

  // ---- one step ----

  lemma MadeSnoc(acts: seq<Act>, a: Act)
    ensures Made(acts + [a]) == Made(acts) + if a.Create? then {a.t} else {}
    ensures forall t :: t in Made(acts) <==> Create(t) in acts
  {
    var all := acts + [a];
    assert forall x :: x in all <==> x in acts || x == a;
    forall t ensures t in Made(acts) <==> Create(t) in acts {
      if t in Made(acts) {
        var x :| x in acts && x.Create? && x.t == t;
        assert x == Create(t);
      }
    }
  }

  lemma InOrderSnoc(acts: seq<Act>, a: Act)
    requires InOrder(acts) && forall t :: Mentions(a, t) ==> t in Made(acts)
    ensures InOrder(acts + [a])
  {
    MadeSnoc(acts, a);
    var all := acts + [a];
    forall i, t | 0 <= i < |all| && Mentions(all[i], t) ensures Create(t) in all[..i] {
      if i < |acts| {
        assert all[i] == acts[i] && all[..i] == acts[..i];
      } else {
        assert all[..i] == acts;
      }
    }
  }

  /** What a handler does to the topics. */
  lemma TopicsAfter(cfg: Config, w: World, a: Action)
    requires Enabled(cfg, w, a)
    ensures Effect(cfg, w, a).topics ==
      if a.AddTopic? then w.topics[a.t := 0]
      else if a.RemoveTopic? then w.topics - {a.t}
      else if a.CountChange? then w.topics[a.t := w.topics[a.t] + a.amount]
      else w.topics
  {
  }

  function Shared(n: Net, share: seq<Act>): Net {
    if share == [] then n else Next(n, share[0])
  }

  lemma PlayShare(acts: seq<Act>, w: World, a: Action)
    ensures Play(acts + Share(w, a)) == Shared(Play(acts), Share(w, a))
  {
    hide Play, Next;
    if Share(w, a) == [] {
      assert acts + [] == acts;
    } else {
      assert Share(w, a) == [Share(w, a)[0]];
      PlaySnoc(acts, Share(w, a)[0]);
    }
  }

  lemma ShareMatches(w: World, n: Net, a: Action, w': World)
    requires Matched(w, n) && n.removed <= n.clients.Keys && !a.CountChange?
    requires a.RemovePeer? ==> a.p in w.peers
    requires (a.AddTopic? ==> a.t !in w.topics) && (a.RemoveTopic? ==> a.t in w.topics)
    requires w'.topics ==
      if a.AddTopic? then w.topics[a.t := 0] else if a.RemoveTopic? then w.topics - {a.t} else w.topics
    requires w'.peers.Keys ==
      if a.AddPeer? then w.peers.Keys + {PeerName(w.nextPeerNum)}
      else if a.RemovePeer? then w.peers.Keys - {a.p} else w.peers.Keys
    requires w'.nextPeerNum == w.nextPeerNum + if a.AddPeer? then 1 else 0
    ensures Matched(w', Shared(n, Share(w, a)))
  {
    hide UsedName, PeerName;
    NamesGoOn(w.nextPeerNum);
    assert a.RemovePeer? ==> Alive(n, a.p) by { assert a.RemovePeer? ==> a.p in n.clients.Keys - n.removed; }
    assert a.AddPeer? ==> PeerName(w.nextPeerNum) !in n.clients;
  }

  lemma SimStepMatches(cfg: Config, w: World, j: Pair, a: Action)
    requires Matched(w, Play(j.acts)) && Numbered(w) && Enabled(cfg, w, a) && !a.CountChange?
    ensures Matched(Effect(cfg, w, a), Play(j.acts + Share(w, a)))
  {
    hide *;
    TopicsAfter(cfg, w, a);
    KeysAfter(cfg, w, a);
    RemovedIsThere(cfg, w, a);
    OnlyClientsAreRemoved(j.acts);
    PlayShare(j.acts, w, a);
    ShareMatches(w, Play(j.acts), a, Effect(cfg, w, a));
  }

  lemma RemovedIsThere(cfg: Config, w: World, a: Action)
    requires Enabled(cfg, w, a)
    ensures a.RemovePeer? ==> a.p in w.peers
    ensures a.AddTopic? ==> a.t !in w.topics
    ensures a.RemoveTopic? ==> a.t in w.topics
  {
  }

  lemma NamesGoOn(next: nat)
    ensures UsedName(PeerName(next), next + 1) && !UsedName(PeerName(next), next)
    ensures forall p :: UsedName(p, next) ==> UsedName(p, next + 1)
  {
    if UsedName(PeerName(next), next) {
      var m: nat :| m < next && PeerName(next) == PeerName(m);
      PeerNameInjective(next, m);
      assert false;
    }
  }

  lemma ShareFounds(n: Net, w: World, a: Action, acts: seq<Act>)
    requires NetFounded(n, Made(acts)) && InOrder(acts)
    ensures NetFounded(Shared(n, Share(w, a)), Made(acts + Share(w, a)))
    ensures InOrder(acts + Share(w, a)) && Made(acts) <= Made(acts + Share(w, a))
  {
    hide Made, InOrder, PeerName;
    if Share(w, a) == [] {
      assert acts + [] == acts;
    } else {
      var act := Share(w, a)[0];
      assert Share(w, a) == [act];
      MadeSnoc(acts, act);
      InOrderSnoc(acts, act);
    }
  }

  lemma SimStepFounds(cfg: Config, w: World, j: Pair, a: Action)
    requires Inv(cfg, w) && Numbered(w) && Enabled(cfg, w, a) && !a.CountChange?
    requires Matched(w, Play(j.acts)) && Founded(w, Play(j.acts), Made(j.acts)) && InOrder(j.acts)
    ensures var acts := j.acts + Share(w, a);
      Founded(Effect(cfg, w, a), Play(acts), Made(acts)) && InOrder(acts)
  {
    hide Effect, Enabled, Inv, Numbered, Play, Share, Shared, Made, InOrder, AsksOnly, NetFounded;
    var acts, w' := j.acts + Share(w, a), Effect(cfg, w, a);
    SimStepMatches(cfg, w, j, a);
    PlayShare(j.acts, w, a);
    ShareFounds(Play(j.acts), w, a, j.acts);
    LiveIsMade(Play(acts), Made(acts));
    forall p | p in w'.peers ensures AsksOnly(w'.peers[p], Made(acts)) {
      EffectAsksOnly(cfg, w, a, p, Made(j.acts), Made(acts));
    }
  }

  lemma LiveIsMade(n: Net, made: set<TopicId>)
    requires NetFounded(n, made)
    ensures n.counts.Keys <= made
  {
  }

  lemma EffectAsksOnly(cfg: Config, w: World, a: Action, p: PeerId, made: set<TopicId>, more: set<TopicId>)
    requires Inv(cfg, w) && Numbered(w) && Enabled(cfg, w, a) && p in Effect(cfg, w, a).peers
    requires p in w.peers ==> AsksOnly(w.peers[p], made)
    requires made <= more && Effect(cfg, w, a).topics.Keys <= more
    ensures AsksOnly(Effect(cfg, w, a).peers[p], more)
  {
    hide Effect, Enabled, FriendGraph, TopicsAgree, Population, Buffers;
    FreshName(w);
    if Effect(cfg, w, a).peers[p].requests != [] {
      NewcomersWereNotAsked(cfg, w, a, p);
      AsksForLiveTopics(cfg, w, a, p);
    }
  }

  lemma PeerStepFounds(w: World, n: Net, act: Act, made: set<TopicId>)
    requires Handled(n) && Matched(w, n) && Founded(w, n, made) && Applies(n, act)
    requires act.OpenTopic? || act.Abandon? || act.Subscribe? || act.Unsubscribe?
    requires act.OpenTopic? ==> act.p in w.peers && Join(act.t) in w.peers[act.p].requests
    ensures act.t in made
    ensures Matched(w, Next(n, act)) && Founded(w, Next(n, act), made)
  {
    hide UsedName;
    var p := act.p;
    assert ClientOk(n.clients[p]);
    if act.OpenTopic? { assert AsksOnly(w.peers[p], made); }
    PeerStepStays(n, act, made);
  }

  lemma PeerStepStays(n: Net, act: Act, made: set<TopicId>)
    requires Applies(n, act) && NetFounded(n, made)
    requires act.OpenTopic? || act.Abandon? || act.Subscribe? || act.Unsubscribe?
    requires act.t in made
    ensures var n' := Next(n, act);
      NetFounded(n', made) && n'.counts == n.counts && n'.clients.Keys == n.clients.Keys && n'.removed == n.removed
  {
  }

  lemma ArrivalFounds(cfg: Config, w: World, n: Net, d: Delta, made: set<TopicId>)
    requires Matched(w, n) && Founded(w, n, made) && d in n.inflight
    ensures d.topic in made
    ensures Founded(w, Next(n, Deliver(d)), made)
    ensures var w' := Step(cfg, w, CountChange(d.topic, d.amount));
      w'.peers == w.peers && Matched(w', Next(n, Deliver(d)))
  {
    DeliveryIsCountChange(cfg, w, n, d);
    assert Next(n, Deliver(d)).inflight <= n.inflight;
  }

  // ---- runs ----

  ghost predicate Sound(cfg: Config, j: Pair) {
    var w, n := Exec(cfg, j.run), Play(j.acts);
    Matched(w, n) && Founded(w, n, Made(j.acts)) && InOrder(j.acts)
  }

  lemma SoundAtStart(cfg: Config)
    ensures Sound(cfg, Pair([], []))
  {
  }

  lemma StepKeepsSound(cfg: Config, j: Pair, step: Joint)
    requires Sound(cfg, j) && CanStep(cfg, Exec(cfg, j.run), Play(j.acts), step)
    ensures Sound(cfg, After(Exec(cfg, j.run), j, step))
  {
    hide Exec, Play, Inv, Numbered, Enabled, Effect, Matched, Founded, InOrder, Made;
    var w := Exec(cfg, j.run);
    RunsKeepInv(cfg, j.run);
    match step
    case SimStep(a) =>
      ExecSnoc(cfg, j.run, a);
      SimStepMatches(cfg, w, j, a);
      SimStepFounds(cfg, w, j, a);
    case PeerStep(act) => PeerStepKeepsSound(cfg, j, act);
    case Arrival(d) => ArrivalKeepsSound(cfg, j, d);
  }

  lemma PeerStepKeepsSound(cfg: Config, j: Pair, act: Act)
    requires Sound(cfg, j) && CanStep(cfg, Exec(cfg, j.run), Play(j.acts), PeerStep(act))
    ensures Sound(cfg, Pair(j.run, j.acts + [act]))
  {
    hide Exec, Play, Matched, Founded, InOrder, Made;
    ConservationInRuns(j.acts, act.t);
    PeerStepFounds(Exec(cfg, j.run), Play(j.acts), act, Made(j.acts));
    PlaySnoc(j.acts, act);
    MadeSnoc(j.acts, act);
    assert Made(j.acts) + {} == Made(j.acts);
    InOrderSnoc(j.acts, act);
  }

  lemma ArrivalKeepsSound(cfg: Config, j: Pair, d: Delta)
    requires Sound(cfg, j) && d in Play(j.acts).inflight
    ensures Sound(cfg, After(Exec(cfg, j.run), j, Arrival(d)))
  {
    hide Exec, Play, Matched, InOrder, Made;
    var w := Exec(cfg, j.run);
    ArrivalFounds(cfg, w, Play(j.acts), d, Made(j.acts));
    PlaySnoc(j.acts, Deliver(d));
    MadeSnoc(j.acts, Deliver(d));
    assert Made(j.acts) + {} == Made(j.acts);
    InOrderSnoc(j.acts, Deliver(d));
    if d.topic in w.topics {
      ExecSnoc(cfg, j.run, CountChange(d.topic, d.amount));
    } else {
      assert j.run + [] == j.run;
    }
  }

  /** Both sides agree in every joint run. */
  lemma {:induction false} SoundInRuns(cfg: Config, steps: seq<Joint>)
    ensures Sound(cfg, Both(cfg, steps))
  {
    hide Sound, CanStep, After, Exec, Play;
    if steps == [] {
      SoundAtStart(cfg);
    } else {
      var j, step := Both(cfg, steps[..|steps| - 1]), steps[|steps| - 1];
      SoundInRuns(cfg, steps[..|steps| - 1]);
      if CanStep(cfg, Exec(cfg, j.run), Play(j.acts), step) { StepKeepsSound(cfg, j, step); }
    }
  }

  /** A topic that was never removed is in the first life of its name. */
  lemma NeverRemovedIsFirstLife(cfg: Config, steps: seq<Joint>, t: TopicId)
    requires RemoveTopic(t) !in Both(cfg, steps).run
    ensures FirstLife(Both(cfg, steps).acts, t)
  {
    SoundInRuns(cfg, steps);
    DisposedWasRemoved(cfg, steps, t);
  }

  lemma {:induction false} DisposedWasRemoved(cfg: Config, steps: seq<Joint>, t: TopicId)
    ensures Dispose(t) in Both(cfg, steps).acts ==> RemoveTopic(t) in Both(cfg, steps).run
  {
    hide Exec, Play, Enabled;
    if steps == [] {
    } else {
      DisposedWasRemoved(cfg, steps[..|steps| - 1], t);
    }
  }

  /**
   The world's counter of a topic whose name was not used before: with the deltas on their way it is
   the number of peers that hold a subscription, at rest that of the present ones and the removed.
   */
  lemma WorldCounters(cfg: Config, steps: seq<Joint>, t: TopicId)
    requires t in Exec(cfg, Both(cfg, steps).run).topics && RemoveTopic(t) !in Both(cfg, steps).run
    ensures var w, n := Exec(cfg, Both(cfg, steps).run), Play(Both(cfg, steps).acts);
      && w.topics[t] + Pending(n, t) == |Subscribers(n, t)|
      && (Quiet(n, t) ==> w.topics[t] == |LiveSubscribers(n, t)| + |RemovedSubscribers(n, t)|)
      && LiveSubscribers(n, t) <= w.peers.Keys
  {
    hide Exec, Play, FirstLife, InOrder;
    var acts := Both(cfg, steps).acts;
    SoundInRuns(cfg, steps);
    NeverRemovedIsFirstLife(cfg, steps, t);
    MadeSnoc(acts, Dispose(t));
    CounterInFirstLife(acts, t);
    if Quiet(Play(acts), t) { LiveCounterIsExactIff(acts, t); }
  }
}
