/**
 Peers as objects, and the loops that edit several peers in place. A roster is the simulator's map
 of live peers; each loop is proved against the value of the whole roster, for every order in
 which the map may be walked.
 */
module Roster {
  import opened Seqs
  import opened Names
  import opened World
  import opened WorldRuns
  import opened Friendships
  import opened Delivery

  class Peer {
    /** The simulator that made it. */
    const sim: object
    const id: PeerId
    var ready: bool
    var simTopics: seq<TopicId>
    var simTopicJoined: map<TopicId, int>
    var simFriends: seq<PeerId>
    var msgs: seq<Message>
    var requests: seq<Request>

    constructor (sim: object, id: PeerId)
      ensures this.sim == sim && this.id == id && View() == FRESH_PEER
    {
      this.sim, this.id := sim, id;
      ready, simTopics, simTopicJoined, simFriends, msgs, requests := false, [], map[], [], [], [];
    }

    ghost function View(): PeerView
      reads this
    {
      PeerView(ready, simTopics, simTopicJoined, simFriends, msgs, requests)
    }

    /** What every joining handler does: list the topic, note the time, ask the peer's machine. */
    method JoinTopic(t: TopicId, now: int)
      modifies this`simTopics, this`simTopicJoined, this`requests
      ensures View() == old(View()).Joining(t, now)
    {
      simTopics := simTopics + [t];
      simTopicJoined := simTopicJoined[t := now];
      requests := requests + [Join(t)];
    }

    method DropFriend(x: PeerId)
      modifies this`simFriends
      ensures simFriends == Without(old(simFriends), x)
    {
      simFriends := Without(simFriends, x);
    }

    method TrimMsgs(maxMsgs: nat)
      modifies this`msgs
      ensures msgs == LastN(old(msgs), maxMsgs)
    {
      if |msgs| > maxMsgs {
        msgs := msgs[|msgs| - maxMsgs..];
      }
    }

    /** A bounded buffer: the oldest messages go first. */
    method StoreMsg(m: Message, maxMsgs: nat)
      modifies this`msgs
      ensures View() == old(View()).Storing(m, maxMsgs)
    {
      msgs := msgs + [m];
      TrimMsgs(maxMsgs);
    }
  }

  type Roster = map<PeerId, Peer>

  ghost predicate Named(all: Roster) {
    forall p :: p in all ==> all[p].id == p
  }

  ghost function Views(all: Roster): Peers
    reads all.Values
  {
    map p | p in all :: all[p].View()
  }

  lemma ViewsSize(all: Roster)
    ensures |Views(all)| == |all| && Views(all).Keys == all.Keys
  {
    assert Views(all).Keys == all.Keys;
    assert |Views(all)| == |Views(all).Keys| && |all| == |all.Keys|;
  }

  lemma ViewsAre(all: Roster, ps: Peers)
    requires ps.Keys == all.Keys && forall p :: p in ps ==> ps[p] == all[p].View()
    ensures Views(all) == ps
  {
  }

  // ---- a peer departs ----

  /** Every listed friend is found and drops x. */
  method DropFromEach(all: Roster, ids: seq<PeerId>, x: PeerId)
    requires Named(all) && NoDup(ids) && forall f :: f in ids ==> f in all
    modifies all.Values`simFriends
    ensures forall q :: q in all ==>
      all[q].simFriends == if q in ids then Without(old(all[q].simFriends), x) else old(all[q].simFriends)
  {
    hide Without;
    var i := 0;
    while i < |ids|
      invariant 0 <= i <= |ids|
      invariant forall q :: q in all ==>
        all[q].simFriends == if q in ids[..i] then Without(old(all[q].simFriends), x) else old(all[q].simFriends)
    {
      var fid := ids[i];
      assert fid in ids && fid !in ids[..i];
      if fid in all {
        all[fid].DropFriend(x);
      } else {
        assert false; // "friend not found"
      }
      i := i + 1;
    }
  }

  /** The friends of p are there to be told, and nobody else lists p. */
  ghost predicate CanBeForgotten(ps: Peers, p: PeerId)
    requires p in ps
  {
    && NoDup(ps[p].friends) && (forall f :: f in ps[p].friends ==> f in ps && f != p)
    && (forall q :: q in ps && q !in ps[p].friends ==> Without(ps[q].friends, p) == ps[q].friends)
  }

  lemma OnlyFriendsListIt(cfg: Config, ps: Peers, p: PeerId)
    requires FriendGraph(cfg, ps) && p in ps
    ensures CanBeForgotten(ps, p)
  {
    assert FriendsOk(cfg, ps, p);
    forall q | q in ps && q !in ps[p].friends ensures Without(ps[q].friends, p) == ps[q].friends {
      assert FriendsOk(cfg, ps, q);
      WithoutAbsent(ps[q].friends, p);
    }
  }

  /** A new peer under a name of its own. */
  method Enroll(sim: object, all: Roster, name: PeerId) returns (more: Roster)
    requires Named(all) && name !in all
    ensures Named(more) && |more| == |all| + 1
    ensures Views(more) == old(Views(all))[name := FRESH_PEER]
    ensures more.Keys == all.Keys + {name} && more[name].sim == sim && forall p :: p in all ==> more[p] == all[p]
  {
    var p := new Peer(sim, name);
    more := all[p.id := p];
    ViewsAre(more, Views(all)[name := FRESH_PEER]);
  }

  /** The peer p leaves the roster, and everybody else's list. */
  method Depart(all: Roster, p: PeerId, ghost w: World) returns (rest: Roster)
    requires Named(all) && p in all && Views(all) == w.peers && CanBeForgotten(w.peers, p)
    modifies all.Values`simFriends
    ensures Named(rest) && rest == all - {p}
    ensures Views(rest) == PeerRemoved(w, p).peers
  {
    hide Without, JoinPicks, AskPicks;
    rest := all - {p};
    DropFromEach(rest, all[p].simFriends, p);
    ghost var ps' := PeerRemoved(w, p).peers;
    forall q | q in rest ensures ps'[q] == rest[q].View() {
      assert w.peers[q] == old(all[q].View());
    }
    ViewsAre(rest, ps');
  }

  // ---- garbage collection ----

  /** The state of p's list fs in a collection of ps: unchanged seen through the filter. */
  ghost predicate Filtering(fs: seq<PeerId>, ps: Peers, p: PeerId, visited: bool) {
    && p in ps
    && Keep(fs, SharingWith(ps, p)) == Keep(ps[p].friends, SharingWith(ps, p))
    && (visited ==> fs == Keep(ps[p].friends, SharingWith(ps, p)))
  }

  /** Dropping a friend that shares no topic does not disturb a collection under way. */
  lemma ForgettingKeepsFiltering(fs: seq<PeerId>, ps: Peers, p: PeerId, q: PeerId, visited: bool)
    requires Filtering(fs, ps, p, visited) && q !in SharingWith(ps, p)
    ensures Filtering(Without(fs, q), ps, p, visited)
  {
    KeepWithout(fs, q, SharingWith(ps, p));
    KeepMembers(ps[p].friends, SharingWith(ps, p));
    if visited { WithoutAbsent(fs, q); }
  }

  lemma KeepingEndsFiltering(fs: seq<PeerId>, ps: Peers, p: PeerId)
    requires Filtering(fs, ps, p, false)
    ensures Filtering(Keep(fs, SharingWith(ps, p)), ps, p, true)
  {
    KeepMembers(fs, SharingWith(ps, p));
    KeepAll(Keep(fs, SharingWith(ps, p)), SharingWith(ps, p));
  }

  /** A collection of the roster ps is under way; todo are the peers not visited yet. */
  ghost predicate Collecting(all: Roster, ps: Peers, todo: set<PeerId>)
    reads all.Values
  {
    forall p :: p in all ==> Filtering(all[p].simFriends, ps, p, p !in todo)
  }

  ghost predicate SameTopics(all: Roster, ps: Peers)
    reads all.Values
  {
    all.Keys == ps.Keys && forall p :: p in all ==> all[p].simTopics == ps[p].topics
  }

  method Forget(all: Roster, p: PeerId, q: PeerId, ghost ps: Peers, ghost todo: set<PeerId>)
    requires Named(all) && p in all && Collecting(all, ps, todo) && p in ps && q !in SharingWith(ps, p)
    modifies all.Values`simFriends
    ensures Collecting(all, ps, todo)
  {
    ForgettingKeepsFiltering(all[p].simFriends, ps, p, q, p !in todo);
    all[p].DropFriend(q);
  }

  /**
   One visit of the collection: p1 keeps the friends it shares a topic with, and the others
   forget p1 as well. The list is the one captured when the visit began.
   */
  method VisitFriends(all: Roster, p1: PeerId, ghost ps: Peers, ghost todo: set<PeerId>)
    requires Named(all) && p1 in all && SameTopics(all, ps) && Collecting(all, ps, todo)
    modifies all.Values`simFriends
    ensures Collecting(all, ps, todo - {p1})
  {
    var captured := all[p1].simFriends;
    var newFriends: seq<PeerId> := [];
    assert Filtering(captured, ps, p1, p1 !in todo);
    var i := 0;
    while i < |captured|
      invariant 0 <= i <= |captured| && newFriends == Keep(captured[..i], SharingWith(ps, p1))
      invariant Collecting(all, ps, todo)
    {
      var fid := captured[i];
      assert captured[..i + 1][..i] == captured[..i];
      if fid in all {
        if exists t | t in all[p1].simTopics :: t in all[fid].simTopics {
          newFriends := newFriends + [fid];
        } else {
          Forget(all, fid, p1, ps, todo);
          Forget(all, p1, fid, ps, todo);
        }
      }
      i := i + 1;
    }
    assert captured[..i] == captured;
    KeepingEndsFiltering(captured, ps, p1);
    all[p1].simFriends := newFriends;
  }

  /** From any state at all, in any order of visits, both sides of each stranger edge are gone. */
  method DropStrangers(all: Roster)
    requires Named(all)
    modifies all.Values`simFriends
    ensures forall p :: p in all ==>
      all[p].simFriends == Keep(old(all[p].simFriends), SharingWith(old(Views(all)), p))
  {
    hide Keep, SharingWith;
    ghost var ps := Views(all);
    var todo := all.Keys;
    while todo != {}
      invariant todo <= all.Keys && Collecting(all, ps, todo) && SameTopics(all, ps)
      decreases |todo|
    {
      var p :| p in todo;
      VisitFriends(all, p, ps, todo);
      todo := todo - {p};
    }
    assert forall p :: p in all ==> Filtering(all[p].simFriends, ps, p, true);
  }

  method TrimMsgs(all: Roster, maxMsgs: nat)
    requires Named(all)
    modifies all.Values`msgs
    ensures forall p :: p in all ==> all[p].msgs == LastN(old(all[p].msgs), maxMsgs)
  {
    var todo := all.Keys;
    while todo != {}
      invariant todo <= all.Keys
      invariant forall p :: p in all ==>
        all[p].msgs == if p in todo then old(all[p].msgs) else LastN(old(all[p].msgs), maxMsgs)
      decreases |todo|
    {
      var p :| p in todo;
      todo := todo - {p};
      all[p].TrimMsgs(maxMsgs);
    }
  }

  /** The whole collection of GCState. */
  method Collect(all: Roster, ghost w: World, ghost cfg: Config, maxMsgs: nat)
    requires Named(all) && Views(all) == w.peers && cfg.maxMsgs == maxMsgs
    modifies all.Values`simFriends, all.Values`msgs
    ensures Views(all) == Collected(cfg, w).peers
  {
    hide Keep, SharingWith, LastN;
    DropStrangers(all);
    TrimMsgs(all, maxMsgs);
    ghost var ps' := Collected(cfg, w).peers;
    forall p | p in all ensures ps'[p] == all[p].View() {
      assert w.peers[p] == old(all[p].View());
    }
    ViewsAre(all, ps');
  }

  // ---- picking ----

  method GetReadyPeers(all: Roster) returns (ids: seq<PeerId>)
    ensures NoDup(ids)
    ensures forall p :: p in ids <==> p in all && all[p].ready
  {
    ids := [];
    var todo := all.Keys;
    while todo != {}
      invariant todo <= all.Keys && NoDup(ids)
      invariant forall p :: p in ids <==> p in all && p !in todo && all[p].ready
      decreases |todo|
    {
      var p :| p in todo;
      todo := todo - {p};
      if all[p].ready {
        NoDupSnoc(ids, p);
        ids := ids + [p];
      }
    }
  }

  method GetTopicPeers(all: Roster, t: TopicId) returns (ids: seq<PeerId>)
    ensures NoDup(ids)
    ensures forall p :: p in ids <==> p in all && all[p].ready && t in all[p].simTopics
  {
    ids := [];
    var ready := GetReadyPeers(all);
    for i := 0 to |ready|
      invariant NoDup(ids)
      invariant forall p :: p in ids <==> p in ready[..i] && p in all && t in all[p].simTopics
    {
      assert ready[i] in ready;
      if t in all[ready[i]].simTopics {
        NoDupSnoc(ids, ready[i]);
        ids := ids + [ready[i]];
      }
    }
  }

  /** The drawn one of the ready peers, unless there is none. */
  method PickRandPeer(all: Roster, draw: PeerId) returns (found: bool)
    requires Drawn(Views(all), draw)
    ensures found <==> IsReady(Views(all), draw)
    ensures found <==> ReadyPeers(Views(all)) != {}
  {
    var ids := GetReadyPeers(all);
    found := |ids| != 0;
    assert forall q :: q in ids <==> q in ReadyPeers(Views(all));
    if found {
      assert ids[0] in ids;
    } else {
      assert draw !in ids;
    }
  }

  /** Any ready peer with room for one more topic. */
  method PickRoomyPeer(all: Roster, room: nat) returns (found: bool, p: PeerId)
    ensures found <==> exists q :: q in all && all[q].ready && |all[q].simTopics| < room
    ensures found ==> p in all && all[p].ready && |all[p].simTopics| < room
  {
    var ids := GetReadyPeers(all);
    var roomy: seq<PeerId> := [];
    for i := 0 to |ids|
      invariant forall q :: q in roomy <==> q in ids[..i] && q in all && |all[q].simTopics| < room
    {
      assert ids[i] in ids;
      if |all[ids[i]].simTopics| < room {
        roomy := roomy + [ids[i]];
      }
    }
    found, p := |roomy| != 0, NOBODY;
    if found {
      assert roomy[0] in roomy;
      p :| p in roomy;
    }
  }

  // ---- topics ----

  lemma JoinPicksSnoc(cfg: Config, ps: Peers, t: TopicId, picks: seq<Pick>, pick: Pick)
    requires PicksRoomy(cfg, ps, t, picks) && pick.peer in RoomyPeers(cfg, JoinPicks(ps, t, picks))
    ensures PicksRoomy(cfg, ps, t, picks + [pick])
    ensures var before := JoinPicks(ps, t, picks);
      JoinPicks(ps, t, picks + [pick]) ==
        if t in before[pick.peer].topics then before
        else before[pick.peer := before[pick.peer].Joining(t, pick.at)]
  {
    var more := picks + [pick];
    assert more[..|picks|] == picks;
    forall i | 0 <= i < |more| ensures more[i].peer in RoomyPeers(cfg, JoinPicks(ps, t, more[..i])) {
      if i < |picks| { assert more[..i] == picks[..i]; }
    }
  }

  /** The rounds in which random peers join a new topic; a peer picked again is passed over. */
  method JoinRounds(all: Roster, cfg: Config, t: TopicId, ghost ps: Peers) returns (ghost picks: seq<Pick>)
    requires Named(all) && Views(all) == ps
    modifies all.Values`simTopics, all.Values`simTopicJoined, all.Values`requests
    ensures PicksRoomy(cfg, ps, t, picks) && Views(all) == JoinPicks(ps, t, picks)
    ensures |picks| <= cfg.initialPeersPerTopic && |picks| <= |ps| && PicksComplete(cfg, ps, t, picks)
  {
    ViewsSize(all);
    picks := [];
    var i := 0;
    while i < cfg.initialPeersPerTopic && i < |all|
      invariant i == |picks| && i <= cfg.initialPeersPerTopic && i <= |all|
      invariant PicksRoomy(cfg, ps, t, picks) && Views(all) == JoinPicks(ps, t, picks)
    {
      var found, p := PickRoomyPeer(all, cfg.maxTopicsPerPeer);
      if !found {
        return;
      }
      var now: int := *;
      JoinUnlessIn(all, p, t, now);
      JoinPicksSnoc(cfg, ps, t, picks, Pick(p, now));
      picks := picks + [Pick(p, now)];
      i := i + 1;
    }
  }

  method JoinUnlessIn(all: Roster, p: PeerId, t: TopicId, now: int)
    requires Named(all) && p in all
    modifies {all[p]}`simTopics, {all[p]}`simTopicJoined, {all[p]}`requests
    ensures var before := old(Views(all));
      Views(all) == if t in before[p].topics then before else before[p := before[p].Joining(t, now)]
  {
    ghost var ps := Views(all);
    if t !in all[p].simTopics {
      all[p].JoinTopic(t, now);
      ViewsAre(all, ps[p := ps[p].Joining(t, now)]);
    } else {
      ViewsAre(all, ps);
    }
  }

  /** slices.Index. */
  method IndexOf(s: seq<TopicId>, t: TopicId) returns (i: int)
    ensures i == -1 <==> t !in s
    ensures i != -1 ==> 0 <= i < |s| && s[i] == t
  {
    i := 0;
    while i < |s|
      invariant 0 <= i <= |s| && t !in s[..i]
    {
      if s[i] == t {
        return;
      }
      i := i + 1;
    }
    i := -1;
  }

  method LeaveOne(p: Peer, t: TopicId)
    requires NoDup(p.simTopics) && t in p.simTopics
    modifies p`simTopics, p`simTopicJoined, p`requests
    ensures p.View() == old(p.View()).Leaving(t)
    ensures t !in p.simTopics && t !in p.simTopicJoined && p.requests == old(p.requests) + [Leave(t)]
  {
    p.requests := p.requests + [Leave(t)];
    var idx := IndexOf(p.simTopics, t);
    if idx == -1 {
      assert false; // "topic not found"
    } else {
      DeleteIsWithout(p.simTopics, idx);
      p.simTopics := p.simTopics[..idx] + p.simTopics[idx + 1..];
      p.simTopicJoined := p.simTopicJoined - {t};
    }
  }

  /** The loop of RemoveTopic: it visits the ready topic peers only, yet nobody keeps the topic. */
  method LeaveTopic(all: Roster, t: TopicId, ghost w: World)
    requires Named(all) && Views(all) == w.peers && TopicsAgree(w.peers, w.topics.Keys)
    modifies all.Values`simTopics, all.Values`simTopicJoined, all.Values`requests
    ensures Views(all) == TopicRemoved(w, t).peers
    ensures forall q :: q in all ==>
      t !in all[q].simTopics &&
      all[q].requests == old(all[q].requests) + if t in old(all[q].simTopics) then [Leave(t)] else []
  {
    hide Without;
    ghost var ps, live := w.peers, w.topics.Keys;
    var ids := GetTopicPeers(all, t);
    assert forall q :: q in all ==> (q in ids <==> t in ps[q].topics) by {
      forall q | q in all ensures q in ids <==> t in ps[q].topics {
        assert ps[q] == all[q].View() && TopicsOk(ps[q], live);
      }
    }
    LeaveEach(all, t, ids, ps, live);
    forall q | q in all
      ensures t !in all[q].simTopics
      ensures all[q].View().requests == ps[q].requests + if t in ps[q].topics then [Leave(t)] else []
    {
      assert all[q].View() == if q in ids then ps[q].Leaving(t) else ps[q];
      WithoutMembers(ps[q].topics, t);
    }
    ViewsAre(all, TopicRemoved(w, t).peers);
  }

  method LeaveEach(all: Roster, t: TopicId, ids: seq<PeerId>, ghost ps: Peers, ghost live: set<TopicId>)
    requires Named(all) && Views(all) == ps && TopicsAgree(ps, live) && NoDup(ids)
    requires forall q :: q in ids ==> q in all && t in all[q].simTopics
    modifies all.Values`simTopics, all.Values`simTopicJoined, all.Values`requests
    ensures forall q :: q in all ==> all[q].View() == if q in ids then ps[q].Leaving(t) else ps[q]
  {
    var i := 0;
    while i < |ids|
      invariant 0 <= i <= |ids|
      invariant forall q :: q in all ==>
        all[q].View() == if q in ids[..i] then ps[q].Leaving(t) else ps[q]
    {
      var p := ids[i];
      assert p in ids && p !in ids[..i] && TopicsOk(ps[p], live);
      LeaveOne(all[p], t);
      i := i + 1;
    }
  }

  lemma AskedNobody(ps: Peers, t: TopicId)
    ensures AskPicks(ps, t, []) == ps
  {
  }

  lemma AskPicksSnoc(ps: Peers, t: TopicId, asked: seq<PeerId>, p: PeerId)
    requires p in AskPicks(ps, t, asked)
    ensures var before := AskPicks(ps, t, asked);
      AskPicks(ps, t, asked + [p]) == before[p := before[p].(requests := before[p].requests + [Join(t)])]
  {
    assert (asked + [p])[..|asked|] == asked;
  }

  /** Being asked makes nobody ready or not ready. */
  lemma AskedStaysReady(ps: Peers, t: TopicId, asked: seq<PeerId>, p: PeerId)
    ensures IsReady(AskPicks(ps, t, asked), p) <==> IsReady(ps, p)
  {
    AskPicksOnlyAsks(ps, t, asked);
    if p in ps { assert AskPicks(ps, t, asked)[p].(requests := ps[p].requests) == ps[p]; }
  }

  lemma SomebodyReady(ps: Peers, t: TopicId, asked: seq<PeerId>)
    requires ReadyPeers(ps) != {}
    ensures exists p :: IsReady(AskPicks(ps, t, asked), p)
  {
    var p :| p in ReadyPeers(ps);
    AskedStaysReady(ps, t, asked, p);
  }

  /** One round of peaking: the guard saw ready peers, so one is found. */
  method AskRandPeer(all: Roster, t: TopicId, ghost ps: Peers, ghost asked: seq<PeerId>) returns (ghost picked: PeerId)
    requires Named(all) && Views(all) == AskPicks(ps, t, asked) && ReadyPeers(ps) != {}
    modifies all.Values`requests
    ensures IsReady(ps, picked) && Views(all) == AskPicks(ps, t, asked + [picked])
  {
    hide AskPicks, ReadyPeers;
    var ids := GetReadyPeers(all);
    if |ids| == 0 {
      SomebodyReady(ps, t, asked);
      assert false;
    } else {
      assert ids[0] in ids;
      var p :| p in ids;
      picked := p;
      AskedStaysReady(ps, t, asked, p);
      AskOne(all, p, t);
      AskPicksSnoc(ps, t, asked, p);
    }
  }

  method AskOne(all: Roster, p: PeerId, t: TopicId)
    requires Named(all) && p in all
    modifies {all[p]}`requests
    ensures var before := old(Views(all));
      Views(all) == before[p := before[p].(requests := before[p].requests + [Join(t)])]
  {
    ghost var ps := Views(all);
    all[p].requests := all[p].requests + [Join(t)];
    ViewsAre(all, ps[p := ps[p].(requests := ps[p].requests + [Join(t)])]);
  }

  // ---- friendships ----

  /** Two different peers befriend each other; both objects change. */
  method Link(all: Roster, p: PeerId, q: PeerId)
    requires Named(all) && p in all && q in all && p != q
    modifies {all[p], all[q]}`simFriends
    ensures var ps := old(Views(all));
      Views(all) == ps[p := ps[p].(friends := ps[p].friends + [q])][q := ps[q].(friends := ps[q].friends + [p])]
  {
    ghost var ps := Views(all);
    all[p].simFriends := all[p].simFriends + [q];
    all[q].simFriends := all[q].simFriends + [p];
    ViewsAre(all, ps[p := ps[p].(friends := ps[p].friends + [q])][q := ps[q].(friends := ps[q].friends + [p])]);
  }

  /** Two different peers become friends and the second follows the first into a topic. */
  method Befriend(all: Roster, p: PeerId, q: PeerId, t: TopicId, now: int, ghost w: World)
    requires Named(all) && p in all && q in all && p != q && Views(all) == w.peers
    modifies all.Values`simFriends, all.Values`simTopics, all.Values`simTopicJoined, all.Values`requests
    ensures Views(all) == Befriended(w, p, q, t, now).peers
  {
    Link(all, p, q);
    JoinUnlessIn(all, q, t, now);
  }

  ghost function DegreesOf(ps: Peers, done: set<PeerId>): map<PeerId, int> {
    map p | p in ps && p in done :: |ps[p].friends|
  }

  lemma DegreeSumGrows(ps: Peers, done: set<PeerId>, p: PeerId)
    requires p in ps && p !in done
    ensures Sum(DegreesOf(ps, done + {p})) == Sum(DegreesOf(ps, done)) + |ps[p].friends|
  {
    SumSplit(DegreesOf(ps, done + {p}), p);
    assert DegreesOf(ps, done + {p}) - {p} == DegreesOf(ps, done);
  }

  /** The connected peers that list a topic; a peer connects and becomes ready at once. */
  function WithTopics(ps: Peers, among: set<PeerId>): set<PeerId> {
    set p | p in ps && p in among && ps[p].ready && ps[p].topics != []
  }

  lemma WithTopicsGrows(ps: Peers, done: set<PeerId>, p: PeerId)
    requires p in ps && p !in done
    ensures |WithTopics(ps, done + {p})| == |WithTopics(ps, done)| + if ps[p].ready && ps[p].topics != [] then 1 else 0
  {
    var more := if ps[p].ready && ps[p].topics != [] then {p} else {};
    assert WithTopics(ps, done + {p}) == WithTopics(ps, done) + more;
  }

  /** In every run nobody with a topic is overlooked for not being ready. */
  lemma WithTopicsInRuns(cfg: Config, run: seq<Action>)
    ensures var ps := Exec(cfg, run).peers;
      WithTopics(ps, ps.Keys) == set p | p in ps && ps[p].topics != []
  {
    RunsKeepInv(cfg, run);
    var w := Exec(cfg, run);
    assert forall p :: p in w.peers ==> TopicsOk(w.peers[p], w.topics.Keys);
  }

  /** Adding up the lengths of all friend lists counts every friendship twice. */
  method SumPeers(all: Roster, ghost cfg: Config) returns (friends: int, withTopics: int)
    requires Named(all) && FriendGraph(cfg, Views(all))
    ensures friends == 2 * |Edges(Views(all))|
    ensures withTopics == |WithTopics(Views(all), all.Keys)|
  {
    hide FriendGraph, Sum, Edges, WithTopics, Degrees, DegreesOf, Named;
    ViewsSize(all);
    ghost var ps := Views(all);
    ghost var done: set<PeerId> := {};
    friends, withTopics := 0, 0;
    var todo := all.Keys;
    NothingSummed(ps);
    while todo != {}
      invariant todo <= all.Keys && done == all.Keys - todo && friends == Sum(DegreesOf(ps, done))
      invariant withTopics == |WithTopics(ps, done)|
      decreases |todo|
    {
      var p :| p in todo;
      DegreeSumGrows(ps, done, p);
      WithTopicsGrows(ps, done, p);
      todo, done := todo - {p}, done + {p};
      friends := friends + |all[p].simFriends|;
      if all[p].ready && |all[p].simTopics| > 0 {
        withTopics := withTopics + 1;
      }
    }
    assert done == all.Keys;
    AllSummed(ps);
    Handshake(cfg, ps);
  }

  lemma AllSummed(ps: Peers)
    ensures DegreesOf(ps, ps.Keys) == Degrees(ps)
  {
  }

  lemma NothingSummed(ps: Peers)
    ensures Sum(DegreesOf(ps, {})) == 0 && WithTopics(ps, {}) == {}
  {
    assert DegreesOf(ps, {}) == map[];
  }

  // ---- delivery ----

  /** How many of the messages are in the buffer. */
  function Hits(msgs: seq<Message>, buffer: seq<Message>): nat {
    if msgs == [] then 0
    else Hits(msgs[..|msgs| - 1], buffer) + if msgs[|msgs| - 1] in buffer then 1 else 0
  }

  lemma {:induction false} HitsCount(p: PeerId, msgs: seq<Message>, buffer: seq<Message>)
    ensures |set i | 0 <= i < |msgs| && msgs[i] in buffer :: (p, i)| == Hits(msgs, buffer)
  {
    if msgs == [] {
    } else {
      var front, n := msgs[..|msgs| - 1], |msgs| - 1;
      HitsCount(p, front, buffer);
      var found := set i | 0 <= i < n && front[i] in buffer :: (p, i);
      assert (set i | 0 <= i < |msgs| && msgs[i] in buffer :: (p, i)) ==
        if msgs[n] in buffer then found + {(p, n)} else found;
    }
  }

  lemma MissCount(p: PeerId, msgs: seq<Message>, buffer: seq<Message>)
    ensures |set i | 0 <= i < |msgs| && msgs[i] !in buffer :: (p, i)| == |msgs| - Hits(msgs, buffer)
  {
    var found := set i | 0 <= i < |msgs| && msgs[i] in buffer :: (p, i);
    var lost := set i | 0 <= i < |msgs| && msgs[i] !in buffer :: (p, i);
    assert found + lost == set i | 0 <= i < |msgs| :: (p, i);
    assert found !! lost;
    Column(p, |msgs|);
    HitsCount(p, msgs, buffer);
  }

  lemma ReceivedGrows(ps: Peers, done: set<PeerId>, p: PeerId, msgs: seq<Message>)
    requires p in ps && p !in done
    ensures |Received(ps, done + {p}, msgs)| == |Received(ps, done, msgs)| + Hits(msgs, ps[p].msgs)
  {
    var mine := set i | 0 <= i < |msgs| && msgs[i] in ps[p].msgs :: (p, i);
    assert Received(ps, done + {p}, msgs) == Received(ps, done, msgs) + mine;
    HitsCount(p, msgs, ps[p].msgs);
  }

  lemma MissedGrows(ps: Peers, done: set<PeerId>, p: PeerId, msgs: seq<Message>)
    requires p in ps && p !in done
    ensures |Missed(ps, done + {p}, msgs)| == |Missed(ps, done, msgs)| + |msgs| - Hits(msgs, ps[p].msgs)
  {
    var mine := set i | 0 <= i < |msgs| && msgs[i] !in ps[p].msgs :: (p, i);
    assert Missed(ps, done + {p}, msgs) == Missed(ps, done, msgs) + mine;
    MissCount(p, msgs, ps[p].msgs);
  }

  method CheckMsgs(msgs: seq<Message>, buffer: seq<Message>) returns (recv: nat, miss: nat)
    ensures recv == Hits(msgs, buffer) && recv + miss == |msgs|
  {
    recv, miss := 0, 0;
    for i := 0 to |msgs|
      invariant recv == Hits(msgs[..i], buffer) && recv + miss == i
    {
      assert msgs[..i + 1][..i] == msgs[..i];
      if msgs[i] in buffer {
        recv := recv + 1;
      } else {
        miss := miss + 1;
      }
    }
    assert msgs[..|msgs|] == msgs;
  }

  ghost predicate Tally(ps: Peers, done: set<PeerId>, msgs: seq<Message>, recv: int, miss: int) {
    recv == |Received(ps, done, msgs)| && miss == |Missed(ps, done, msgs)|
  }

  lemma NothingTallied(ps: Peers, msgs: seq<Message>)
    ensures Tally(ps, {}, msgs, 0, 0)
  {
  }

  lemma TallyGrows(ps: Peers, done: set<PeerId>, p: PeerId, msgs: seq<Message>, recv: int, miss: int)
    requires p in ps && p !in done && Tally(ps, done, msgs, recv, miss)
    ensures var hits := Hits(msgs, ps[p].msgs);
      Tally(ps, done + {p}, msgs, recv + hits, miss + |msgs| - hits)
  {
    ReceivedGrows(ps, done, p, msgs);
    MissedGrows(ps, done, p, msgs);
  }

  /** The check of one peer: its messages count only when it is expected to have them. */
  method VerifyPeer(p: Peer, author: PeerId, t: TopicId, msgs: seq<Message>, sent: int)
    returns (counted: bool, recv: nat, miss: nat)
    requires p.ready && t in p.simTopics
    ensures counted <==> Expected(p.View(), p.id, author, t, sent)
    ensures counted ==> recv == Hits(msgs, p.msgs) && recv + miss == |msgs|
    ensures !counted ==> recv == miss == 0
  {
    counted, recv, miss := true, 0, 0;
    if p.id == author || (t in p.simTopicJoined && p.simTopicJoined[t] > sent) {
      counted := false;
    } else {
      recv, miss := CheckMsgs(msgs, p.msgs);
    }
  }

  /** The verification loops: every message of every audience peer is counted as received or missed. */
  method VerifyDelivery(all: Roster, author: PeerId, t: TopicId, msgs: seq<Message>, sent: int)
    returns (recv: nat, miss: nat)
    requires Named(all)
    ensures recv == |Received(Views(all), Audience(Views(all), author, t, sent), msgs)|
    ensures miss == |Missed(Views(all), Audience(Views(all), author, t, sent), msgs)|
  {
    hide Received, Missed, Hits;
    ghost var ps := Views(all);
    ghost var done: set<PeerId> := {};
    NothingTallied(ps, msgs);
    recv, miss := 0, 0;
    var ids := GetTopicPeers(all, t);
    for i := 0 to |ids|
      invariant done == set p | p in ids[..i] && p in ps && Expected(ps[p], p, author, t, sent)
      invariant Tally(ps, done, msgs, recv, miss)
    {
      var p := ids[i];
      assert p in ids;
      var counted, r, m := VerifyPeer(all[p], author, t, msgs, sent);
      if counted {
        TallyGrows(ps, done, p, msgs, recv, miss);
        done := done + {p};
      }
      recv, miss := recv + r, miss + m;
    }
    assert done == Audience(ps, author, t, sent);
  }
}
