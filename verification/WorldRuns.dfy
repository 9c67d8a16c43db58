/** What every transition keeps, hence what holds in every run of the simulator. */
module WorldRuns {
  import opened Seqs
  import opened Names
  import opened World

  /** The friend lists are a simple undirected graph of bounded degree over the live peers. */
  ghost predicate FriendGraph(cfg: Config, ps: Peers) {
    forall p :: p in ps ==> FriendsOk(cfg, ps, p)
  }

  ghost predicate FriendsOk(cfg: Config, ps: Peers, p: PeerId)
    requires p in ps
  {
    && NoDup(ps[p].friends) && p !in ps[p].friends
    && |ps[p].friends| <= cfg.maxFriends
    && forall q {:trigger q in ps[p].friends} :: q in ps[p].friends ==> q in ps && p in ps[q].friends
  }

  /** The topic list and the join times name the same live topics; only ready peers have any. */
  ghost predicate TopicsOk(v: PeerView, live: set<TopicId>) {
    && NoDup(v.topics)
    && (forall t :: t in v.topics <==> t in v.joined)
    && v.joined.Keys <= live
    && (v.topics != [] ==> v.ready)
  }

  ghost predicate TopicsAgree(ps: Peers, live: set<TopicId>) {
    forall p :: p in ps ==> TopicsOk(ps[p], live)
  }

  ghost predicate UsedName(p: PeerId, next: nat) {
    exists n: nat :: n < next && p == PeerName(n)
  }

  ghost predicate Population(cfg: Config, w: World) {
    |w.peers| <= cfg.maxPeers && |w.topics| <= cfg.maxTopics
  }

  /** Every peer carries a name numbered below the counter. */
  ghost predicate Numbered(w: World) {
    forall p :: p in w.peers ==> UsedName(p, w.nextPeerNum)
  }

  ghost predicate Buffers(cfg: Config, ps: Peers) {
    forall p :: p in ps ==> |ps[p].msgs| <= cfg.maxMsgs
  }

  ghost predicate Inv(cfg: Config, w: World) {
    && FriendGraph(cfg, w.peers)
    && TopicsAgree(w.peers, w.topics.Keys)
    && Population(cfg, w)
    && Buffers(cfg, w.peers)
  }

  // ---- what the repeated picks do to one peer ----

  ghost predicate JoinedAtMostOnce(a: PeerView, b: PeerView, t: TopicId) {
    b == a || (a.ready && t !in a.topics && t in b.joined && b == a.Joining(t, b.joined[t]))
  }

  lemma {:induction false} JoinPicksOnce(cfg: Config, ps: Peers, t: TopicId, picks: seq<Pick>)
    requires PicksRoomy(cfg, ps, t, picks)
    ensures JoinPicks(ps, t, picks).Keys == ps.Keys
    ensures forall p :: p in ps ==> JoinedAtMostOnce(ps[p], JoinPicks(ps, t, picks)[p], t)
  {
    if picks == [] {
    } else {
      var front := picks[..|picks| - 1];
      forall i | 0 <= i < |front|
        ensures front[i].peer in RoomyPeers(cfg, JoinPicks(ps, t, front[..i]))
      {
        assert front[..i] == picks[..i];
      }
      JoinPicksOnce(cfg, ps, t, front);
    }
  }

  lemma {:induction false} AskPicksOnlyAsks(ps: Peers, t: TopicId, asked: seq<PeerId>)
    ensures AskPicks(ps, t, asked).Keys == ps.Keys
    ensures forall p :: p in ps ==>
      AskPicks(ps, t, asked)[p].(requests := ps[p].requests) == ps[p]
  {
    if asked == [] {
    } else {
      AskPicksOnlyAsks(ps, t, asked[..|asked| - 1]);
    }
  }

  lemma {:induction false} AskPicksAskFor(ps: Peers, t: TopicId, asked: seq<PeerId>, p: PeerId, live: set<TopicId>)
    requires p in ps && t in live
    ensures p in AskPicks(ps, t, asked)
    ensures Asked(ps[p], AskPicks(ps, t, asked)[p], live)
  {
    if asked == [] {
    } else {
      AskPicksAskFor(ps, t, asked[..|asked| - 1], p, live);
    }
  }

  /** From a to b the peer was only asked to join topics that are live. */
  ghost predicate Asked(a: PeerView, b: PeerView, live: set<TopicId>) {
    a.requests <= b.requests &&
    forall i :: |a.requests| <= i < |b.requests| && b.requests[i].Join? ==> b.requests[i].topic in live
  }

  // ---- the friend graph ----

  lemma FriendGraphFrame(cfg: Config, ps: Peers, ps': Peers)
    requires FriendGraph(cfg, ps) && ps'.Keys == ps.Keys
    requires forall p :: p in ps ==> ps'[p].friends == ps[p].friends
    ensures FriendGraph(cfg, ps')
  {
    forall p | p in ps' ensures FriendsOk(cfg, ps', p) {
      assert FriendsOk(cfg, ps, p);
    }
  }

  lemma RemoveKeepsFriendGraph(cfg: Config, w: World, p: PeerId)
    requires FriendGraph(cfg, w.peers) && Enabled(cfg, w, RemovePeer(p))
    ensures FriendGraph(cfg, PeerRemoved(w, p).peers)
  {
    var ps, ps' := w.peers, PeerRemoved(w, p).peers;
    forall q | q in ps' ensures FriendsOk(cfg, ps', q) {
      assert FriendsOk(cfg, ps, q);
      WithoutMembers(ps[q].friends, p);
      forall r | r in ps'[q].friends ensures r in ps' && q in ps'[r].friends {
        WithoutMembers(ps[r].friends, p);
      }
    }
  }

  lemma LinkKeepsFriendGraph(cfg: Config, w: World, p: PeerId, q: PeerId)
    requires FriendGraph(cfg, w.peers) && p in w.peers && q in w.peers && p != q
    requires q !in w.peers[p].friends
    requires |w.peers[p].friends| < cfg.maxFriends && |w.peers[q].friends| < cfg.maxFriends
    ensures FriendGraph(cfg, Linked(w, p, q).peers)
  {
    var ps, ps' := w.peers, Linked(w, p, q).peers;
    assert FriendsOk(cfg, ps, p) && FriendsOk(cfg, ps, q);
    NoDupSnoc(ps[p].friends, q);
    NoDupSnoc(ps[q].friends, p);
    forall x | x in ps' ensures FriendsOk(cfg, ps', x) {
      assert FriendsOk(cfg, ps, x);
    }
  }

  lemma GCKeepsFriendGraph(cfg: Config, w: World)
    requires FriendGraph(cfg, w.peers)
    ensures FriendGraph(cfg, Collected(cfg, w).peers)
  {
    var ps, ps' := w.peers, Collected(cfg, w).peers;
    forall p | p in ps' ensures FriendsOk(cfg, ps', p) {
      assert FriendsOk(cfg, ps, p);
      KeepMembers(ps[p].friends, SharingWith(ps, p));
      forall q | q in ps'[p].friends ensures q in ps' && p in ps'[q].friends {
        KeepMembers(ps[q].friends, SharingWith(ps, q));
        assert Shares(ps[q], ps[p]);
      }
    }
  }

  lemma FreshName(w: World)
    requires Numbered(w)
    ensures PeerName(w.nextPeerNum) !in w.peers
  {
    if PeerName(w.nextPeerNum) in w.peers {
      var n: nat :| n < w.nextPeerNum && PeerName(w.nextPeerNum) == PeerName(n);
      PeerNameInjective(w.nextPeerNum, n);
      assert false;
    }
  }

  // ---- topic lists and buffers of one peer ----

  lemma JoiningKeepsTopics(v: PeerView, live: set<TopicId>, t: TopicId, at: int)
    requires TopicsOk(v, live) && v.ready && t !in v.topics
    ensures TopicsOk(v.Joining(t, at), live + {t})
  {
    NoDupSnoc(v.topics, t);
  }

  lemma LeavingKeepsTopics(v: PeerView, live: set<TopicId>, t: TopicId)
    requires TopicsOk(v, live)
    ensures TopicsOk(v.Leaving(t), live - {t})
    ensures t !in v.topics ==> TopicsOk(v, live - {t})
  {
    WithoutMembers(v.topics, t);
  }

  // ---- one action at a time ----

  /** Actions that leave the population and every friend list alone. */
  lemma SameFriendsKeepsInv(cfg: Config, w: World, ps': Peers, topics': map<TopicId, int>)
    requires Inv(cfg, w) && ps'.Keys == w.peers.Keys && |topics'| <= cfg.maxTopics
    requires forall p :: p in ps' ==> ps'[p].friends == w.peers[p].friends
    requires TopicsAgree(ps', topics'.Keys) && Buffers(cfg, ps')
    ensures Inv(cfg, w.(peers := ps', topics := topics'))
  {
    FriendGraphFrame(cfg, w.peers, ps');
    assert |ps'| == |ps'.Keys| == |w.peers.Keys|;
  }

  lemma UpdateOneKeepsInv(cfg: Config, w: World, p: PeerId, v: PeerView)
    requires Inv(cfg, w) && p in w.peers && v.friends == w.peers[p].friends
    requires TopicsOk(v, w.topics.Keys) && |v.msgs| <= cfg.maxMsgs
    ensures Inv(cfg, WithPeer(w, p, v))
  {
    SameFriendsKeepsInv(cfg, w, w.peers[p := v], w.topics);
  }

  lemma JoinOneKeepsInv(cfg: Config, w: World, p: PeerId, t: TopicId, at: int)
    requires Inv(cfg, w) && IsReady(w.peers, p) && t in w.topics && t !in w.peers[p].topics
    ensures Inv(cfg, WithPeer(w, p, w.peers[p].Joining(t, at)))
  {
    JoiningKeepsTopics(w.peers[p], w.topics.Keys, t, at);
    assert w.topics.Keys + {t} == w.topics.Keys;
    UpdateOneKeepsInv(cfg, w, p, w.peers[p].Joining(t, at));
  }

  lemma AddPeerKeepsInv(cfg: Config, w: World)
    requires Inv(cfg, w) && |w.peers| < cfg.maxPeers && PeerName(w.nextPeerNum) !in w.peers
    ensures Inv(cfg, PeerAdded(w))
  {
    var ps, w' := w.peers, PeerAdded(w);
    forall p | p in w'.peers ensures FriendsOk(cfg, w'.peers, p) {
      if p in ps { assert FriendsOk(cfg, ps, p); }
    }
  }

  lemma StepKeepsNumbered(cfg: Config, w: World, a: Action)
    requires Numbered(w)
    ensures Numbered(Step(cfg, w, a))
  {
    var w' := Step(cfg, w, a);
    forall p | p in w'.peers ensures UsedName(p, w'.nextPeerNum) {
      if Enabled(cfg, w, a) {
        KeysAfter(cfg, w, a);
        assert UsedName(p, w.nextPeerNum) || p == PeerName(w.nextPeerNum);
      }
    }
  }

  /** Which peers are left: only the two population actions change that. */
  lemma KeysAfter(cfg: Config, w: World, a: Action)
    requires Enabled(cfg, w, a)
    ensures Effect(cfg, w, a).peers.Keys ==
      if a.AddPeer? then w.peers.Keys + {PeerName(w.nextPeerNum)}
      else if a.RemovePeer? then w.peers.Keys - {a.p}
      else w.peers.Keys
    ensures Effect(cfg, w, a).nextPeerNum == w.nextPeerNum + if a.AddPeer? then 1 else 0
  {
    match a
    case AddPeer =>
    case RemovePeer(p) => assert PeerRemoved(w, p).peers.Keys == w.peers.Keys - {p};
    case AddTopic(t, picks) => JoinPicksOnce(cfg, w.peers, t, picks);
    case RemoveTopic(t) => assert TopicRemoved(w, t).peers.Keys == w.peers.Keys;
    case AddFriend(p, q, t, at) => assert Befriended(w, p, q, t, at).peers.Keys == w.peers.Keys;
    case GC => assert Collected(cfg, w).peers.Keys == w.peers.Keys;
    case PeakTopic(t, asked) => AskPicksOnlyAsks(w.peers, t, asked);
    case _ => assert Effect(cfg, w, a).peers.Keys == w.peers.Keys;
  }

  lemma RemovePeerKeepsInv(cfg: Config, w: World, p: PeerId)
    requires Inv(cfg, w) && Enabled(cfg, w, RemovePeer(p))
    ensures Inv(cfg, PeerRemoved(w, p))
  {
    RemoveKeepsFriendGraph(cfg, w, p);
    var w' := PeerRemoved(w, p);
    assert w'.peers.Keys == w.peers.Keys - {p};
    assert |w'.peers| == |w'.peers.Keys| == |w.peers.Keys| - 1;
  }

  lemma AddTopicKeepsInv(cfg: Config, w: World, t: TopicId, picks: seq<Pick>)
    requires Inv(cfg, w) && Enabled(cfg, w, AddTopic(t, picks))
    ensures Inv(cfg, TopicAdded(w, t, picks))
  {
    var ps, ps' := w.peers, JoinPicks(w.peers, t, picks);
    var topics' := w.topics[t := 0];
    JoinPicksOnce(cfg, ps, t, picks);
    assert topics'.Keys == w.topics.Keys + {t} && |topics'| == |topics'.Keys|;
    forall p | p in ps' ensures TopicsOk(ps'[p], topics'.Keys) {
      assert TopicsOk(ps[p], w.topics.Keys) && JoinedAtMostOnce(ps[p], ps'[p], t);
      if ps'[p] != ps[p] { JoiningKeepsTopics(ps[p], w.topics.Keys, t, ps'[p].joined[t]); }
    }
    SameFriendsKeepsInv(cfg, w, ps', topics');
  }

  lemma RemoveTopicKeepsInv(cfg: Config, w: World, t: TopicId)
    requires Inv(cfg, w) && Enabled(cfg, w, RemoveTopic(t))
    ensures Inv(cfg, TopicRemoved(w, t))
  {
    var w' := TopicRemoved(w, t);
    assert w'.topics.Keys == w.topics.Keys - {t} && |w'.topics| == |w'.topics.Keys|;
    forall p | p in w'.peers ensures TopicsOk(w'.peers[p], w'.topics.Keys) {
      LeavingKeepsTopics(w.peers[p], w.topics.Keys, t);
    }
    SameFriendsKeepsInv(cfg, w, w'.peers, w'.topics);
  }

  lemma LinkKeepsInv(cfg: Config, w: World, p: PeerId, q: PeerId)
    requires Inv(cfg, w) && p in w.peers && q in w.peers && p != q
    requires q !in w.peers[p].friends
    requires |w.peers[p].friends| < cfg.maxFriends && |w.peers[q].friends| < cfg.maxFriends
    ensures Inv(cfg, Linked(w, p, q))
  {
    var ps, l := w.peers, Linked(w, p, q);
    assert l.peers.Keys == ps.Keys && |l.peers| == |l.peers.Keys| == |ps.Keys|;
    LinkKeepsFriendGraph(cfg, w, p, q);
  }

  lemma AddFriendKeepsInv(cfg: Config, w: World, p: PeerId, q: PeerId, t: TopicId, at: int)
    requires Inv(cfg, w) && Enabled(cfg, w, AddFriend(p, q, t, at))
    ensures Inv(cfg, Befriended(w, p, q, t, at))
  {
    var l := Linked(w, p, q);
    assert TopicsOk(w.peers[p], w.topics.Keys);
    LinkKeepsInv(cfg, w, p, q);
    if t !in l.peers[q].topics { JoinOneKeepsInv(cfg, l, q, t, at); }
  }

  lemma GCKeepsInv(cfg: Config, w: World)
    requires Inv(cfg, w)
    ensures Inv(cfg, Collected(cfg, w))
  {
    GCKeepsFriendGraph(cfg, w);
    var ps, ps' := w.peers, Collected(cfg, w).peers;
    assert ps'.Keys == ps.Keys && |ps'| == |ps'.Keys| == |ps.Keys|;
    forall p | p in ps'
      ensures TopicsOk(ps'[p], w.topics.Keys) && |ps'[p].msgs| <= cfg.maxMsgs
    {
      assert TopicsOk(ps[p], w.topics.Keys);
    }
  }

  lemma PeakTopicKeepsInv(cfg: Config, w: World, t: TopicId, asked: seq<PeerId>)
    requires Inv(cfg, w) && Enabled(cfg, w, PeakTopic(t, asked))
    ensures Inv(cfg, w.(peers := AskPicks(w.peers, t, asked)))
  {
    var ps, ps' := w.peers, AskPicks(w.peers, t, asked);
    AskPicksOnlyAsks(ps, t, asked);
    forall p | p in ps'
      ensures ps'[p].friends == ps[p].friends && TopicsOk(ps'[p], w.topics.Keys)
      ensures |ps'[p].msgs| <= cfg.maxMsgs
    {
      assert ps'[p].(requests := ps[p].requests) == ps[p] && TopicsOk(ps[p], w.topics.Keys);
    }
    SameFriendsKeepsInv(cfg, w, ps', w.topics);
  }

  lemma EffectKeepsInv(cfg: Config, w: World, a: Action)
    requires Inv(cfg, w) && Enabled(cfg, w, a) && PeerName(w.nextPeerNum) !in w.peers
    ensures Inv(cfg, Effect(cfg, w, a))
  {
    match a
    case AddPeer => AddPeerKeepsInv(cfg, w);
    case RemovePeer(p) => RemovePeerKeepsInv(cfg, w, p);
    case AddTopic(t, picks) => AddTopicKeepsInv(cfg, w, t, picks);
    case RemoveTopic(t) => RemoveTopicKeepsInv(cfg, w, t);
    case AddFriend(p, q, t, at) => AddFriendKeepsInv(cfg, w, p, q, t, at);
    case GC => GCKeepsInv(cfg, w);
    case PeakTopic(t, asked) => PeakTopicKeepsInv(cfg, w, t, asked);
    case _ => SmallEffectKeepsInv(cfg, w, a);
  }

  /** The actions that change at most one peer. */
  lemma SmallEffectKeepsInv(cfg: Config, w: World, a: Action)
    requires Inv(cfg, w) && Enabled(cfg, w, a)
    requires a.PeerReady? || a.JoinRandom? || a.JoinFriends? || a.StoreMsg? || a.VerifyMsgs? || a.CountChange?
    ensures Inv(cfg, Effect(cfg, w, a))
  {
    match a
    case PeerReady(p) => UpdateOneKeepsInv(cfg, w, p, w.peers[p].(ready := true));
    case JoinRandom(p, t, at) => JoinOneKeepsInv(cfg, w, p, t, at);
    case JoinFriends(p, f, t, at) =>
      assert TopicsOk(w.peers[f], w.topics.Keys);
      JoinOneKeepsInv(cfg, w, p, t, at);
    case StoreMsg(p, m) => UpdateOneKeepsInv(cfg, w, p, w.peers[p].Storing(m, cfg.maxMsgs));
    case VerifyMsgs(_, _, _, _) =>
    case CountChange(t, amount) =>
      assert w.topics[t := w.topics[t] + amount].Keys == w.topics.Keys;
      SameFriendsKeepsInv(cfg, w, w.peers, w.topics[t := w.topics[t] + amount]);
  }

  lemma StepKeepsInv(cfg: Config, w: World, a: Action)
    requires Inv(cfg, w) && Numbered(w)
    ensures Inv(cfg, Step(cfg, w, a)) && Numbered(Step(cfg, w, a))
  {
    StepKeepsNumbered(cfg, w, a);
    FreshName(w);
    if Enabled(cfg, w, a) { EffectKeepsInv(cfg, w, a); }
  }

  // ---- runs ----

  lemma ExecSnoc(cfg: Config, run: seq<Action>, a: Action)
    ensures Exec(cfg, run + [a]) == Step(cfg, Exec(cfg, run), a)
  {
    assert (run + [a])[..|run|] == run;
  }

  lemma InvAtStart(cfg: Config)
    ensures Exec(cfg, []) == INIT && Inv(cfg, INIT) && Numbered(INIT)
  {
  }

  lemma {:induction false} RunsKeepInv(cfg: Config, run: seq<Action>)
    ensures Inv(cfg, Exec(cfg, run)) && Numbered(Exec(cfg, run))
  {
    hide Step, Inv, Numbered;
    InvAtStart(cfg);
    if run == [] {
    } else {
      RunsKeepInv(cfg, run[..|run| - 1]);
      StepKeepsInv(cfg, Exec(cfg, run[..|run| - 1]), run[|run| - 1]);
    }
  }

  /** The friend lists of any reachable world, spelled out. */
  lemma FriendListsInRuns(cfg: Config, run: seq<Action>, p: PeerId, q: PeerId)
    requires p in Exec(cfg, run).peers && q in Exec(cfg, run).peers[p].friends
    ensures var ps := Exec(cfg, run).peers;
      && q != p && q in ps && p in ps[q].friends
      && NoDup(ps[p].friends) && |ps[p].friends| <= cfg.maxFriends
  {
    RunsKeepInv(cfg, run);
    assert FriendsOk(cfg, Exec(cfg, run).peers, p);
  }

  /** The topic list of any reachable peer: no repeats, live topics only, hence never too long. */
  lemma TopicListsInRuns(cfg: Config, run: seq<Action>, p: PeerId)
    requires p in Exec(cfg, run).peers
    ensures var w := Exec(cfg, run);
      && NoDup(w.peers[p].topics)
      && (forall t :: t in w.peers[p].topics <==> t in w.peers[p].joined)
      && (forall t :: t in w.peers[p].topics ==> t in w.topics)
      && |w.peers[p].topics| <= |w.topics| <= cfg.maxTopics
  {
    RunsKeepInv(cfg, run);
    var w := Exec(cfg, run);
    assert TopicsOk(w.peers[p], w.topics.Keys);
    NoDupFits(w.peers[p].topics, w.topics.Keys);
    assert |w.topics| == |w.topics.Keys|;
  }

  /** After a removal nobody who stays lists the removed peer. */
  lemma RemovedIsForgotten(cfg: Config, run: seq<Action>, p: PeerId, q: PeerId)
    requires Enabled(cfg, Exec(cfg, run), RemovePeer(p))
    requires q in Exec(cfg, run + [RemovePeer(p)]).peers
    ensures p !in Exec(cfg, run + [RemovePeer(p)]).peers
    ensures p !in Exec(cfg, run + [RemovePeer(p)]).peers[q].friends
  {
    ExecSnoc(cfg, run, RemovePeer(p));
    WithoutMembers(Exec(cfg, run).peers[q].friends, p);
  }

  /** A transition only asks peers to join topics that are live when it is over. */
  lemma AsksForLiveTopics(cfg: Config, w: World, a: Action, p: PeerId)
    requires TopicsAgree(w.peers, w.topics.Keys) && Enabled(cfg, w, a) && PeerName(w.nextPeerNum) !in w.peers
    requires p in w.peers && p in Effect(cfg, w, a).peers
    ensures Asked(w.peers[p], Effect(cfg, w, a).peers[p], Effect(cfg, w, a).topics.Keys)
  {
    hide Asked, TopicsAgree, TopicsOk, RoomyPeers;
    var v, v', live := w.peers[p], Effect(cfg, w, a).peers[p], Effect(cfg, w, a).topics.Keys;
    match a
    case AddTopic(t, picks) =>
      JoinPicksOnce(cfg, w.peers, t, picks);
      assert JoinedAtMostOnce(v, v', t);
      OneAsked(v, v', t, live);
    case PeakTopic(t, asked) => AskPicksAskFor(w.peers, t, asked, p, live);
    case AddFriend(_, _, _, _) => JoiningAsks(cfg, w, a, p);
    case JoinRandom(_, _, _) => JoiningAsks(cfg, w, a, p);
    case JoinFriends(_, _, _, _) => JoiningAsks(cfg, w, a, p);
    case RemoveTopic(t) => OneAsked(v, v', t, live);
    case _ =>
      AsksNobody(cfg, w, a, p);
      OneAsked(v, v', NO_TOPIC, live);
  }

  lemma JoiningAsks(cfg: Config, w: World, a: Action, p: PeerId)
    requires TopicsAgree(w.peers, w.topics.Keys) && Enabled(cfg, w, a) && p in w.peers
    requires a.AddFriend? || a.JoinRandom? || a.JoinFriends?
    ensures p in Effect(cfg, w, a).peers && Asked(w.peers[p], Effect(cfg, w, a).peers[p], w.topics.Keys)
  {
    hide Asked;
    if a.AddFriend? { assert TopicsOk(w.peers[a.p], w.topics.Keys); }
    if a.JoinFriends? { assert TopicsOk(w.peers[a.friend], w.topics.Keys); }
    OneAsked(w.peers[p], Effect(cfg, w, a).peers[p], a.t, w.topics.Keys);
  }

  lemma OneAsked(a: PeerView, b: PeerView, t: TopicId, live: set<TopicId>)
    requires b.requests == a.requests || b.requests == a.requests + [Leave(t)] ||
      (b.requests == a.requests + [Join(t)] && t in live)
    ensures Asked(a, b, live)
  {
  }

  lemma AsksNobody(cfg: Config, w: World, a: Action, p: PeerId)
    requires Enabled(cfg, w, a) && PeerName(w.nextPeerNum) !in w.peers
    requires !(a.AddTopic? || a.RemoveTopic? || a.PeakTopic? || a.AddFriend? || a.JoinRandom? || a.JoinFriends?)
    requires p in w.peers && p in Effect(cfg, w, a).peers
    ensures Effect(cfg, w, a).peers[p].requests == w.peers[p].requests
  {
  }

  /** The i-th request of p was made by the n-th transition. */
  ghost predicate AskedAt(cfg: Config, run: seq<Action>, p: PeerId, i: nat, n: nat) {
    && 0 < n <= |run|
    && p in Exec(cfg, run[..n - 1]).peers && |Exec(cfg, run[..n - 1]).peers[p].requests| <= i
    && p in Exec(cfg, run[..n]).peers && i < |Exec(cfg, run[..n]).peers[p].requests|
  }

  /** Whatever topic a peer was ever asked to join was live when it was asked. */
  lemma {:induction false} JoinsAreAskedWhileLive(cfg: Config, run: seq<Action>, p: PeerId, i: nat) returns (n: nat)
    requires p in Exec(cfg, run).peers && i < |Exec(cfg, run).peers[p].requests|
    ensures AskedAt(cfg, run, p, i, n)
    ensures Exec(cfg, run[..n]).peers[p].requests[i] == Exec(cfg, run).peers[p].requests[i]
    ensures Exec(cfg, run).peers[p].requests[i].Join? ==>
      Exec(cfg, run).peers[p].requests[i].topic in Exec(cfg, run[..n]).topics
  {
    hide Effect, FriendGraph, TopicsAgree, Population, Buffers, Numbered;
    var front, last := run[..|run| - 1], run[|run| - 1];
    var w := Exec(cfg, front);
    RunsKeepInv(cfg, front);
    FreshName(w);
    assert run[..|run|] == run;
    if Enabled(cfg, w, last) {
      NewcomersWereNotAsked(cfg, w, last, p);
      AsksForLiveTopics(cfg, w, last, p);
    }
    if i < |w.peers[p].requests| {
      n := JoinsAreAskedWhileLive(cfg, front, p, i);
      assert front[..n] == run[..n] && front[..n - 1] == run[..n - 1];
    } else {
      n := |run|;
    }
  }

  lemma NewcomersWereNotAsked(cfg: Config, w: World, a: Action, p: PeerId)
    requires Enabled(cfg, w, a) && PeerName(w.nextPeerNum) !in w.peers && p in Effect(cfg, w, a).peers
    requires Effect(cfg, w, a).peers[p].requests != []
    ensures p in w.peers
  {
    KeysAfter(cfg, w, a);
  }

  // ---- names ----

  lemma NextNameIsUnused(n: nat)
    ensures !UsedName(PeerName(n), n)
  {
    if UsedName(PeerName(n), n) {
      var m: nat :| m < n && PeerName(n) == PeerName(m);
      PeerNameInjective(n, m);
      assert false;
    }
  }

  lemma UsedStaysUsed(cfg: Config, w: World, a: Action, p: PeerId)
    requires UsedName(p, w.nextPeerNum)
    ensures UsedName(p, Step(cfg, w, a).nextPeerNum)
  {
    var n: nat :| n < w.nextPeerNum && p == PeerName(n);
    if Enabled(cfg, w, a) { KeysAfter(cfg, w, a); }
    assert n < Step(cfg, w, a).nextPeerNum;
  }
}
