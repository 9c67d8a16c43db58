/** The friendship graph over every run: its size, and when friends share a topic. */
module Friendships {
  import opened Seqs
  import opened Names
  import opened World
  import opened WorldRuns

  // ---- handshake ----

  /** The undirected friendships, each as the pair of its ends. */
  ghost function Edges(ps: Peers): set<set<PeerId>> {
    set p, q | p in ps && q in ps[p].friends :: {p, q}
  }

  ghost function Degrees(ps: Peers): map<PeerId, int> {
    map p | p in ps :: |ps[p].friends|
  }

  ghost function Unordered(arcs: set<(PeerId, PeerId)>): set<set<PeerId>> {
    set a | a in arcs :: {a.0, a.1}
  }

  ghost predicate Symmetric(arcs: set<(PeerId, PeerId)>) {
    forall a :: a in arcs ==> a.0 != a.1 && (a.1, a.0) in arcs
  }

  /** One friendship is two arcs. */
  lemma OneEdgeLess(arcs: set<(PeerId, PeerId)>, a: (PeerId, PeerId))
    requires Symmetric(arcs) && a in arcs
    ensures var rest := arcs - {a, (a.1, a.0)};
      && Symmetric(rest) && |arcs| == |rest| + 2
      && {a.0, a.1} !in Unordered(rest) && Unordered(arcs) == Unordered(rest) + {{a.0, a.1}}
  {
    var b, e := (a.1, a.0), {a.0, a.1};
    var rest := arcs - {a, b};
    assert arcs == rest + {a, b};
    forall c | c in rest ensures {c.0, c.1} != e {
      assert c.0 in {c.0, c.1} && c.1 in {c.0, c.1};
      assert c != a && c != b && c.0 != c.1;
    }
    assert e == {b.0, b.1};
  }

  lemma {:induction false} ArcsAreTwiceEdges(arcs: set<(PeerId, PeerId)>)
    requires Symmetric(arcs)
    ensures |arcs| == 2 * |Unordered(arcs)|
    decreases |arcs|
  {
    if arcs == {} {
    } else {
      var a :| a in arcs;
      OneEdgeLess(arcs, a);
      ArcsAreTwiceEdges(arcs - {a, (a.1, a.0)});
    }
  }

  ghost function Arcs(ps: Peers): set<(PeerId, PeerId)> {
    set p, q | p in ps && q in ps[p].friends :: (p, q)
  }

  lemma {:induction false} DegreeSumIsArcs(ps: Peers)
    requires forall p :: p in ps ==> NoDup(ps[p].friends)
    ensures Sum(Degrees(ps)) == |Arcs(ps)|
    decreases |ps|
  {
    if ps == map[] {
    } else {
      var p :| p in ps;
      var rest := ps - {p};
      assert ps == rest[p := ps[p]];
      DegreeSumIsArcs(rest);
      SumSplit(Degrees(ps), p);
      assert Degrees(ps) - {p} == Degrees(rest);
      var mine := set q | q in ps[p].friends :: (p, q);
      assert Arcs(ps) == Arcs(rest) + mine;
      OutArcs(p, ps[p].friends);
    }
  }

  lemma {:induction false} OutArcs(p: PeerId, friends: seq<PeerId>)
    requires NoDup(friends)
    ensures |set q | q in friends :: (p, q)| == |friends|
  {
    if friends == [] {
    } else {
      var front, last := friends[..|friends| - 1], friends[|friends| - 1];
      OutArcs(p, front);
      assert friends == front + [last];
      assert (set q | q in friends :: (p, q)) == (set q | q in front :: (p, q)) + {(p, last)};
    }
  }

  /** The degrees add up to twice the friendships, so the halving of the metric loses nothing. */
  lemma Handshake(cfg: Config, ps: Peers)
    requires FriendGraph(cfg, ps)
    ensures Sum(Degrees(ps)) == 2 * |Edges(ps)|
  {
    DegreeSumIsArcs(ps);
    forall a | a in Arcs(ps) ensures a.0 != a.1 && (a.1, a.0) in Arcs(ps) {
      assert FriendsOk(cfg, ps, a.0);
    }
    ArcsAreTwiceEdges(Arcs(ps));
    assert Unordered(Arcs(ps)) == Edges(ps) by {
      forall e | e in Edges(ps) ensures e in Unordered(Arcs(ps)) {
        var p, q :| p in ps && q in ps[p].friends && e == {p, q};
        assert (p, q) in Arcs(ps);
      }
    }
  }

  lemma HandshakeInRuns(cfg: Config, run: seq<Action>)
    ensures Sum(Degrees(Exec(cfg, run).peers)) == 2 * |Edges(Exec(cfg, run).peers)|
  {
    RunsKeepInv(cfg, run);
    Handshake(cfg, Exec(cfg, run).peers);
  }

  // ---- garbage collection ----

  /** After a collection q is on p's list exactly when it was, is live and shares a topic. */
  lemma CollectedEdges(cfg: Config, w: World, p: PeerId, q: PeerId)
    requires p in w.peers
    ensures q in Collected(cfg, w).peers[p].friends <==>
      q in w.peers[p].friends && q in w.peers && Shares(w.peers[p], w.peers[q])
  {
    KeepMembers(w.peers[p].friends, SharingWith(w.peers, p));
  }

  ghost predicate FriendsShare(ps: Peers) {
    forall p, q {:trigger q in ps[p].friends} ::
      p in ps && q in ps[p].friends ==> q in ps && Shares(ps[p], ps[q])
  }

  lemma CollectionMakesFriendsShare(cfg: Config, w: World)
    ensures FriendsShare(Collected(cfg, w).peers)
  {
    var w' := Collected(cfg, w);
    forall p, q | p in w'.peers && q in w'.peers[p].friends
      ensures q in w'.peers && Shares(w'.peers[p], w'.peers[q])
    {
      CollectedEdges(cfg, w, p, q);
      var t :| t in w.peers[p].topics && t in w.peers[q].topics;
    }
  }

  /** A collection finds nothing to do exactly when all friends share a topic. */
  lemma CollectionIsIdleIff(cfg: Config, w: World)
    requires Buffers(cfg, w.peers)
    ensures Collected(cfg, w) == w <==> FriendsShare(w.peers)
  {
    var w' := Collected(cfg, w);
    CollectionMakesFriendsShare(cfg, w);
    if FriendsShare(w.peers) {
      forall p | p in w.peers ensures w'.peers[p] == w.peers[p] {
        KeepAll(w.peers[p].friends, SharingWith(w.peers, p));
      }
      assert w'.peers == w.peers;
    }
  }

  /** Longer topic lists keep sharing. */
  lemma SharingGrows(ps: Peers, ps': Peers)
    requires FriendsShare(ps)
    requires forall p :: p in ps' ==> p in ps && ps[p].topics <= ps'[p].topics
    requires forall p, q {:trigger q in ps'[p].friends} ::
      p in ps' && q in ps'[p].friends ==> q in ps[p].friends && q in ps'
    ensures FriendsShare(ps')
  {
    forall p, q | p in ps' && q in ps'[p].friends ensures q in ps' && Shares(ps'[p], ps'[q]) {
      var t :| t in ps[p].topics && t in ps[q].topics;
      assert t in ps'[p].topics && t in ps'[q].topics;
    }
  }

  lemma SameFriendsKeepSharing(ps: Peers, ps': Peers)
    requires FriendsShare(ps) && ps'.Keys == ps.Keys
    requires forall p :: p in ps' ==> ps[p].topics <= ps'[p].topics && ps'[p].friends == ps[p].friends
    ensures FriendsShare(ps')
  {
    SharingGrows(ps, ps');
  }

  lemma RemovalKeepsSharing(cfg: Config, w: World, p: PeerId)
    requires Inv(cfg, w) && FriendsShare(w.peers)
    ensures FriendsShare(PeerRemoved(w, p).peers)
  {
    var ps, ps' := w.peers, PeerRemoved(w, p).peers;
    forall x | x in ps' ensures forall y :: y in ps'[x].friends ==> y in ps[x].friends && y in ps' {
      WithoutMembers(ps[x].friends, p);
    }
    SharingGrows(ps, ps');
  }

  lemma BefriendingKeepsSharing(cfg: Config, w: World, p: PeerId, q: PeerId, t: TopicId, at: int)
    requires Inv(cfg, w) && Enabled(cfg, w, AddFriend(p, q, t, at)) && FriendsShare(w.peers)
    ensures FriendsShare(Befriended(w, p, q, t, at).peers)
  {
    var ps, ps' := w.peers, Befriended(w, p, q, t, at).peers;
    forall x, y | x in ps' && y in ps'[x].friends ensures y in ps' && Shares(ps'[x], ps'[y]) {
      if y in ps[x].friends {
        var s :| s in ps[x].topics && s in ps[y].topics;
        assert s in ps'[x].topics && s in ps'[y].topics;
      } else {
        assert {x, y} == {p, q};
        assert t in ps'[x].topics && t in ps'[y].topics;
      }
    }
  }

  lemma SmallStepKeepsSharing(cfg: Config, w: World, a: Action)
    requires Enabled(cfg, w, a) && FriendsShare(w.peers)
    requires a.PeerReady? || a.JoinRandom? || a.JoinFriends? || a.StoreMsg? || a.VerifyMsgs? || a.CountChange?
    ensures FriendsShare(Effect(cfg, w, a).peers)
  {
    SameFriendsKeepSharing(w.peers, Effect(cfg, w, a).peers);
  }

  lemma StepKeepsSharing(cfg: Config, w: World, a: Action)
    requires Inv(cfg, w) && Enabled(cfg, w, a) && !a.RemoveTopic?
    requires FriendsShare(w.peers) && PeerName(w.nextPeerNum) !in w.peers
    ensures FriendsShare(Effect(cfg, w, a).peers)
  {
    var ps, ps' := w.peers, Effect(cfg, w, a).peers;
    match a
    case AddPeer =>
    case RemovePeer(p) => RemovalKeepsSharing(cfg, w, p);
    case AddTopic(t, picks) => JoinPicksOnce(cfg, ps, t, picks); SameFriendsKeepSharing(ps, ps');
    case AddFriend(p, q, t, at) => BefriendingKeepsSharing(cfg, w, p, q, t, at);
    case GC => CollectionMakesFriendsShare(cfg, w);
    case PeakTopic(t, asked) =>
      AskPicksOnlyAsks(ps, t, asked);
      forall p | p in ps' ensures ps'[p].topics == ps[p].topics && ps'[p].friends == ps[p].friends {
        assert ps'[p].(requests := ps[p].requests) == ps[p];
      }
      SameFriendsKeepSharing(ps, ps');
    case _ => SmallStepKeepsSharing(cfg, w, a);
  }

  lemma CleanStepKeepsSharing(cfg: Config, w: World, a: Action)
    requires Inv(cfg, w) && Numbered(w) && !a.RemoveTopic? && (a.GC? || FriendsShare(w.peers))
    ensures FriendsShare(Step(cfg, w, a).peers)
  {
    FreshName(w);
    if a.GC? {
      CollectionMakesFriendsShare(cfg, w);
    } else if Enabled(cfg, w, a) {
      StepKeepsSharing(cfg, w, a);
    }
  }

  /** No RemoveTopic since the start or since the last collection. */
  predicate CleanSinceGC(run: seq<Action>) {
    run == [] || run[|run| - 1].GC? || (!run[|run| - 1].RemoveTopic? && CleanSinceGC(run[..|run| - 1]))
  }

  /** Only RemoveTopic parts friends from their shared topics: without one, GC finds nothing to do. */
  lemma {:induction false} FriendsShareInCleanRuns(cfg: Config, run: seq<Action>)
    requires CleanSinceGC(run)
    ensures FriendsShare(Exec(cfg, run).peers)
    ensures Collected(cfg, Exec(cfg, run)) == Exec(cfg, run)
  {
    hide Step, FriendGraph, TopicsAgree, Numbered, Collected;
    RunsKeepInv(cfg, run);
    if run == [] {
    } else {
      var front, last := run[..|run| - 1], run[|run| - 1];
      RunsKeepInv(cfg, front);
      if !last.GC? { FriendsShareInCleanRuns(cfg, front); }
      CleanStepKeepsSharing(cfg, Exec(cfg, front), last);
    }
    CollectionIsIdleIff(cfg, Exec(cfg, run));
  }

  /** p and q are in another common topic than t. */
  predicate ShareBeside(a: PeerView, b: PeerView, t: TopicId) {
    exists s | s in a.topics :: s in b.topics && s != t
  }

  /** Removing a topic leaves all friends a common topic exactly if none relied on that one alone. */
  lemma TopicRemovalKeepsSharingIff(w: World, t: TopicId)
    requires FriendsShare(w.peers)
    ensures FriendsShare(TopicRemoved(w, t).peers) <==>
      forall p, q {:trigger q in w.peers[p].friends} ::
        p in w.peers && q in w.peers[p].friends ==> ShareBeside(w.peers[p], w.peers[q], t)
  {
    var ps, ps' := w.peers, TopicRemoved(w, t).peers;
    forall p, q | p in ps && q in ps && q in ps[p].friends
      ensures Shares(ps'[p], ps'[q]) <==> ShareBeside(ps[p], ps[q], t)
    {
      TopicsWithout(ps[p], t);
      TopicsWithout(ps[q], t);
      if Shares(ps'[p], ps'[q]) {
        var s :| s in ps'[p].topics && s in ps'[q].topics;
        assert s in ps[p].topics && s in ps[q].topics && s != t;
      }
      if ShareBeside(ps[p], ps[q], t) {
        var s :| s in ps[p].topics && s in ps[q].topics && s != t;
        assert s in ps'[p].topics && s in ps'[q].topics;
      }
    }
    assert forall p :: p in ps ==> ps'[p].friends == ps[p].friends;
  }

  lemma TopicsWithout(v: PeerView, t: TopicId)
    ensures forall s :: s in (if t in v.topics then v.Leaving(t) else v).topics <==> s in v.topics && s != t
  {
    WithoutMembers(v.topics, t);
  }

  /** The run in which two peers become friends through a topic and lose it. */
  function PartingRun(t: TopicId): seq<Action> {
    BefriendingRun(t) + [AddPeer, PeerReady(PeerName(1)), AddFriend(PeerName(0), PeerName(1), t, 0), RemoveTopic(t)]
  }

  /** A lone peer gets a topic. */
  function BefriendingRun(t: TopicId): seq<Action> {
    [AddPeer, PeerReady(PeerName(0)), AddTopic(t, [Pick(PeerName(0), 0)])]
  }

  /** So a removal does part friends in some run, and the next collection is not idle. */
  lemma RemovalCanPartFriends(cfg: Config, t: TopicId)
    requires cfg.maxPeers >= 2 && cfg.maxTopics >= 1 && cfg.maxFriends >= 1
    requires cfg.initialPeersPerTopic >= 1 && cfg.maxTopicsPerPeer >= 1
    ensures var w := Exec(cfg, PartingRun(t));
      PeerName(1) in w.peers && PeerName(0) in w.peers[PeerName(1)].friends && !FriendsShare(w.peers)
  {
    hide Exec, PeerName, FriendsShare, BefriendingRun;
    var p, q, run := PeerName(0), PeerName(1), BefriendingRun(t);
    if p == q { PeerNameInjective(0, 1); }
    LonePeer(cfg, t);
    var a, b := FRESH_PEER.(ready := true).Joining(t, 0), FRESH_PEER.(ready := true);
    ExecSnoc(cfg, run, AddPeer);
    assert |map[p := a]| == 1;
    ExecSnoc(cfg, run + [AddPeer], PeerReady(q));
    var w := World(map[p := a, q := b], map[t := 0], 2, 0, 0);
    assert Exec(cfg, run + [AddPeer] + [PeerReady(q)]) == w;
    Parting(cfg, w, run + [AddPeer] + [PeerReady(q)], p, q, t);
    assert PartingRun(t) == run + [AddPeer] + [PeerReady(q)] + [AddFriend(p, q, t, 0)] + [RemoveTopic(t)];
  }

  lemma Parting(cfg: Config, w: World, run: seq<Action>, p: PeerId, q: PeerId, t: TopicId)
    requires Exec(cfg, run) == w && p != q && t in w.topics && cfg.maxFriends >= 1
    requires w.peers == map[p := FRESH_PEER.(ready := true).Joining(t, 0), q := FRESH_PEER.(ready := true)]
    ensures var w' := Exec(cfg, run + [AddFriend(p, q, t, 0)] + [RemoveTopic(t)]);
      q in w'.peers && p in w'.peers[q].friends && !FriendsShare(w'.peers)
  {
    hide *;
    ExecSnoc(cfg, run, AddFriend(p, q, t, 0));
    ExecSnoc(cfg, run + [AddFriend(p, q, t, 0)], RemoveTopic(t));
    Meeting(cfg, w, p, q, t);
    OnlyTopicGone(Befriended(w, p, q, t, 0), p, q, t);
  }

  lemma Meeting(cfg: Config, w: World, p: PeerId, q: PeerId, t: TopicId)
    requires p != q && t in w.topics && cfg.maxFriends >= 1
    requires w.peers == map[p := FRESH_PEER.(ready := true).Joining(t, 0), q := FRESH_PEER.(ready := true)]
    ensures p in w.peers && q in w.peers && Step(cfg, w, AddFriend(p, q, t, 0)) == Befriended(w, p, q, t, 0)
    ensures var v := Befriended(w, p, q, t, 0);
      && p in v.peers && q in v.peers && p in v.peers[q].friends && v.peers[q].topics == [t] && t in v.topics
      && Step(cfg, v, RemoveTopic(t)) == TopicRemoved(v, t)
  {
    hide Without;
  }

  lemma OnlyTopicGone(w: World, p: PeerId, q: PeerId, t: TopicId)
    requires p in w.peers && q in w.peers && p in w.peers[q].friends
    requires w.peers[q].topics == [t] && t in w.topics
    ensures var ps := TopicRemoved(w, t).peers; q in ps && p in ps[q].friends && !FriendsShare(ps)
  {
    TopicsWithout(w.peers[q], t);
    forall s ensures s !in TopicRemoved(w, t).peers[q].topics {
      assert s in w.peers[q].topics ==> s == t;
    }
  }

  lemma LonePeer(cfg: Config, t: TopicId)
    requires cfg.maxPeers >= 1 && cfg.maxTopics >= 1
    requires cfg.initialPeersPerTopic >= 1 && cfg.maxTopicsPerPeer >= 1
    ensures Exec(cfg, BefriendingRun(t)) ==
      World(map[PeerName(0) := FRESH_PEER.(ready := true).Joining(t, 0)], map[t := 0], 1, 0, 0)
  {
    hide Exec, PeerName;
    var p, v := PeerName(0), FRESH_PEER.(ready := true);
    var w := World(map[p := v], map[], 1, 0, 0);
    InvAtStart(cfg);
    ExecSnoc(cfg, [], AddPeer);
    ExecSnoc(cfg, [AddPeer], PeerReady(p));
    assert [] + [AddPeer] == [AddPeer] && [AddPeer] + [PeerReady(p)] == [AddPeer, PeerReady(p)];
    assert Exec(cfg, [AddPeer, PeerReady(p)]) == w;
    ExecSnoc(cfg, [AddPeer, PeerReady(p)], AddTopic(t, [Pick(p, 0)]));
    assert [AddPeer, PeerReady(p)] + [AddTopic(t, [Pick(p, 0)])] == BefriendingRun(t);
    LonePick(cfg, w, p, t);
  }

  lemma LonePick(cfg: Config, w: World, p: PeerId, t: TopicId)
    requires w.peers == map[p := FRESH_PEER.(ready := true)] && w.topics == map[]
    requires cfg.maxTopics >= 1 && cfg.initialPeersPerTopic >= 1 && cfg.maxTopicsPerPeer >= 1
    ensures CanAddTopic(cfg, w, t, [Pick(p, 0)])
    ensures JoinPicks(w.peers, t, [Pick(p, 0)]) == map[p := FRESH_PEER.(ready := true).Joining(t, 0)]
  {
    assert [Pick(p, 0)][..0] == [];
    assert |w.peers| == 1 && p in RoomyPeers(cfg, w.peers);
  }
}
