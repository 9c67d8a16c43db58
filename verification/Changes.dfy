/**
 Exactly what each transition changes, one kind of fact at a time: who lists whom, who lists which
 topic and since when, and who is ready.
 */
module Changes {
  import opened Names
  import opened World
  import opened WorldRuns
  import opened Friendships
  import opened Seqs

  // ---- friends ----

  /** Whether p lists q once the transition is made. */
  ghost predicate ListsAfter(ps: Peers, a: Action, p: PeerId, q: PeerId) {
    match a
    case AddFriend(x, y, _, _) => (p in ps && q in ps[p].friends) || (p, q) == (x, y) || (p, q) == (y, x)
    case RemovePeer(x) => p in ps && q in ps[p].friends && p != x && q != x
    case GC => p in ps && q in ps[p].friends && q in ps && exists t | t in ps[p].topics :: t in ps[q].topics
    case _ => p in ps && q in ps[p].friends
  }

  /** Only befriending adds friends, and only a removal and a collection part any. */
  lemma FriendsAfter(cfg: Config, w: World, a: Action, p: PeerId, q: PeerId)
    requires Enabled(cfg, w, a) && PeerName(w.nextPeerNum) !in w.peers
    ensures var ps' := Effect(cfg, w, a).peers;
      (p in ps' && q in ps'[p].friends) <==> ListsAfter(w.peers, a, p, q)
  {
    hide ListsAfter;
    match a
    case RemovePeer(_) => PartedFriends(cfg, w, a, p, q);
    case GC => PartedFriends(cfg, w, a, p, q);
    case AddTopic(_, _) => SameFriends(cfg, w, a, p, q);
    case PeakTopic(_, _) => SameFriends(cfg, w, a, p, q);
    case _ => OtherFriends(cfg, w, a, p, q);
  }

  lemma PartedFriends(cfg: Config, w: World, a: Action, p: PeerId, q: PeerId)
    requires Enabled(cfg, w, a) && (a.RemovePeer? || a.GC?)
    ensures var ps' := Effect(cfg, w, a).peers;
      (p in ps' && q in ps'[p].friends) <==> ListsAfter(w.peers, a, p, q)
  {
    if p in w.peers {
      if a.GC? { CollectedEdges(cfg, w, p, q); } else { WithoutMembers(w.peers[p].friends, a.p); }
    }
  }

  lemma SameFriends(cfg: Config, w: World, a: Action, p: PeerId, q: PeerId)
    requires Enabled(cfg, w, a) && (a.AddTopic? || a.PeakTopic?)
    ensures var ps' := Effect(cfg, w, a).peers;
      (p in ps' && q in ps'[p].friends) <==> ListsAfter(w.peers, a, p, q)
  {
    if a.AddTopic? {
      JoinPicksOnce(cfg, w.peers, a.t, a.picks);
      assert p in w.peers ==> JoinedAtMostOnce(w.peers[p], JoinPicks(w.peers, a.t, a.picks)[p], a.t);
    } else {
      AskPicksOnlyAsks(w.peers, a.t, a.asked);
      assert p in w.peers ==> AskPicks(w.peers, a.t, a.asked)[p].(requests := w.peers[p].requests) == w.peers[p];
    }
  }

  lemma OtherFriends(cfg: Config, w: World, a: Action, p: PeerId, q: PeerId)
    requires Enabled(cfg, w, a) && PeerName(w.nextPeerNum) !in w.peers
    requires !(a.RemovePeer? || a.GC? || a.AddTopic? || a.PeakTopic?)
    ensures var ps' := Effect(cfg, w, a).peers;
      (p in ps' && q in ps'[p].friends) <==> ListsAfter(w.peers, a, p, q)
  {
  }

  /** New friends are listed last, on both sides. */
  lemma NewFriendsStandLast(cfg: Config, w: World, p: PeerId, q: PeerId, t: TopicId, at: int)
    requires Enabled(cfg, w, AddFriend(p, q, t, at))
    ensures var ps, ps' := w.peers, Effect(cfg, w, AddFriend(p, q, t, at)).peers;
      ps'[p].friends == ps[p].friends + [q] && ps'[q].friends == ps[q].friends + [p]
  {
  }

  /** A removal keeps the order of every list. */
  lemma RemovalKeepsOrder(cfg: Config, w: World, x: PeerId, p: PeerId, i: nat, j: nat, k: nat, l: nat)
    requires FriendGraph(cfg, w.peers) && p in w.peers && p != x
    requires var fs := PeerRemoved(w, x).peers[p].friends;
      i < j < |fs| && k < |w.peers[p].friends| && l < |w.peers[p].friends| &&
      fs[i] == w.peers[p].friends[k] && fs[j] == w.peers[p].friends[l]
    ensures k < l
  {
    assert FriendsOk(cfg, w.peers, p);
    var fs := w.peers[p].friends;
    WithoutIsKeep(fs, x);
    KeepOrder(fs, (set y | y in fs) - {x}, i, j, k, l);
  }

  /** A collection keeps the order of every list. */
  lemma CollectionKeepsOrder(cfg: Config, w: World, p: PeerId, i: nat, j: nat, k: nat, l: nat)
    requires FriendGraph(cfg, w.peers) && p in w.peers
    requires var fs := Collected(cfg, w).peers[p].friends;
      i < j < |fs| && k < |w.peers[p].friends| && l < |w.peers[p].friends| &&
      fs[i] == w.peers[p].friends[k] && fs[j] == w.peers[p].friends[l]
    ensures k < l
  {
    assert FriendsOk(cfg, w.peers, p);
    KeepOrder(w.peers[p].friends, SharingWith(w.peers, p), i, j, k, l);
  }

  // ---- topics ----

  /** The time read for the first pick of p, if it was picked. */
  function FirstPick(picks: seq<Pick>, p: PeerId): seq<int> {
    if picks == [] then []
    else if picks[0].peer == p then [picks[0].at]
    else FirstPick(picks[1..], p)
  }

  lemma {:induction false} FirstPickSnoc(picks: seq<Pick>, pick: Pick, p: PeerId)
    ensures FirstPick(picks + [pick], p) ==
      if FirstPick(picks, p) != [] then FirstPick(picks, p) else if pick.peer == p then [pick.at] else []
  {
    if picks == [] {
      assert ([] + [pick])[1..] == [];
    } else {
      assert (picks + [pick])[1..] == picks[1..] + [pick];
      FirstPickSnoc(picks[1..], pick, p);
    }
  }

  /** Exactly the picked peers join a new topic, each at the time of its first pick. */
  lemma {:induction false} PickedJoin(ps: Peers, t: TopicId, picks: seq<Pick>, p: PeerId)
    requires p in ps && t !in ps[p].topics && t !in ps[p].joined
    ensures p in JoinPicks(ps, t, picks)
    ensures var v, v', at := ps[p], JoinPicks(ps, t, picks)[p], FirstPick(picks, p);
      if at == [] then v' == v else v'.topics == v.topics + [t] && v'.joined == v.joined[t := at[0]]
  {
    if picks == [] {
    } else {
      var front, last := picks[..|picks| - 1], picks[|picks| - 1];
      assert picks == front + [last];
      PickedJoin(ps, t, front, p);
      FirstPickSnoc(front, last, p);
    }
  }

  /** The time at which the transition puts t on p's list, if it does. */
  function Reading(a: Action, p: PeerId, t: TopicId): seq<int> {
    match a
    case AddTopic(u, picks) => if u == t then FirstPick(picks, p) else []
    case AddFriend(_, q, u, at) => if q == p && u == t then [at] else []
    case JoinRandom(q, u, at) => if q == p && u == t then [at] else []
    case JoinFriends(q, _, u, at) => if q == p && u == t then [at] else []
    case _ => []
  }

  /** t leaves all lists. */
  predicate Drops(a: Action, t: TopicId) {
    a == RemoveTopic(t)
  }

  /** What a transition does to one entry of one peer's list: nothing, enter it with the time read, or drop it. */
  ghost predicate EntryAfter(v: PeerView, v': PeerView, reading: seq<int>, t: TopicId, dropped: bool) {
    && (t in v'.topics <==> (t in v.topics || reading != []) && !dropped)
    && (t in v'.topics ==> t in v'.joined)
    && (t in v'.topics && t in v.topics ==> t in v.joined && v'.joined[t] == v.joined[t])
    && (t in v'.topics && t !in v.topics ==> reading != [] && v'.joined[t] == reading[0])
  }

  lemma EntriesAfter(cfg: Config, w: World, a: Action, p: PeerId, t: TopicId)
    requires TopicsAgree(w.peers, w.topics.Keys) && Enabled(cfg, w, a) && PeerName(w.nextPeerNum) !in w.peers
    requires p in w.peers && p in Effect(cfg, w, a).peers
    ensures EntryAfter(w.peers[p], Effect(cfg, w, a).peers[p], Reading(a, p, t), t, Drops(a, t))
  {
    hide TopicsAgree, TopicsOk, EntryAfter, Drops, Reading;
    TopicsOkOf(w, p);
    match a
    case AddTopic(_, _) => VisitedEntries(cfg, w, a, p, t);
    case RemoveTopic(_) => VisitedEntries(cfg, w, a, p, t);
    case PeakTopic(_, _) => VisitedEntries(cfg, w, a, p, t);
    case _ => OtherEntriesAfter(cfg, w, a, p, t);
  }

  lemma VisitedEntries(cfg: Config, w: World, a: Action, p: PeerId, t: TopicId)
    requires Enabled(cfg, w, a) && (a.AddTopic? || a.RemoveTopic? || a.PeakTopic?)
    requires p in w.peers && p in Effect(cfg, w, a).peers && TopicsOk(w.peers[p], w.topics.Keys)
    ensures EntryAfter(w.peers[p], Effect(cfg, w, a).peers[p], Reading(a, p, t), t, Drops(a, t))
  {
    hide NoDup;
    if a.AddTopic? {
      PickedJoin(w.peers, a.t, a.picks, p);
    } else if a.RemoveTopic? {
      WithoutMembers(w.peers[p].topics, a.t);
    } else {
      AskPicksOnlyAsks(w.peers, a.t, a.asked);
      assert AskPicks(w.peers, a.t, a.asked)[p].(requests := w.peers[p].requests) == w.peers[p];
    }
  }

  lemma OtherEntriesAfter(cfg: Config, w: World, a: Action, p: PeerId, t: TopicId)
    requires Enabled(cfg, w, a) && PeerName(w.nextPeerNum) !in w.peers
    requires !(a.AddTopic? || a.RemoveTopic? || a.PeakTopic?)
    requires p in w.peers && p in Effect(cfg, w, a).peers && TopicsOk(w.peers[p], w.topics.Keys)
    ensures EntryAfter(w.peers[p], Effect(cfg, w, a).peers[p], Reading(a, p, t), t, Drops(a, t))
  {
    hide NoDup;
  }

  lemma TopicsOkOf(w: World, p: PeerId)
    requires TopicsAgree(w.peers, w.topics.Keys) && p in w.peers
    ensures TopicsOk(w.peers[p], w.topics.Keys)
  {
  }

  lemma NewcomersAreBlank(cfg: Config, w: World, a: Action, p: PeerId)
    requires Enabled(cfg, w, a) && p !in w.peers && p in Effect(cfg, w, a).peers
    ensures a == AddPeer && p == PeerName(w.nextPeerNum)
    ensures var v := Effect(cfg, w, a).peers[p];
      !v.ready && v.topics == [] && v.joined == map[] && v.friends == [] && v.msgs == [] && v.requests == []
  {
    KeysAfter(cfg, w, a);
  }

  /** The k-th transition put t on p's list, where it has been ever since. */
  ghost predicate ListedSince(cfg: Config, run: seq<Action>, p: PeerId, t: TopicId, k: nat) {
    && k < |run| && Reading(run[k], p, t) != []
    && !Lists(Exec(cfg, run[..k]), p, t)
    && forall n :: k < n <= |run| ==> Lists(Exec(cfg, run[..n]), p, t)
  }

  ghost predicate Lists(w: World, p: PeerId, t: TopicId) {
    p in w.peers && t in w.peers[p].topics
  }

  lemma ListedSinceSnoc(cfg: Config, run: seq<Action>, p: PeerId, t: TopicId, k: nat)
    requires run != [] && Lists(Exec(cfg, run), p, t)
    requires (k < |run| - 1 && ListedSince(cfg, run[..|run| - 1], p, t, k)) ||
      (k == |run| - 1 && Reading(run[k], p, t) != [] && !Lists(Exec(cfg, run[..k]), p, t))
    ensures ListedSince(cfg, run, p, t, k)
  {
    hide Exec, Lists;
    var front := run[..|run| - 1];
    assert run[..|run|] == run;
    if k < |run| - 1 {
      assert run[..k] == front[..k];
      forall n | k < n <= |run| ensures Lists(Exec(cfg, run[..n]), p, t) {
        if n < |run| { assert run[..n] == front[..n]; }
      }
    }
  }

  /** The join time of a listed topic is the clock reading of the transition that listed it. */
  lemma {:induction false} JoinTimesInRuns(cfg: Config, run: seq<Action>, p: PeerId, t: TopicId) returns (k: nat)
    requires Lists(Exec(cfg, run), p, t)
    ensures ListedSince(cfg, run, p, t, k)
    ensures t in Exec(cfg, run).peers[p].joined
    ensures Exec(cfg, run).peers[p].joined[t] == Reading(run[k], p, t)[0]
  {
    hide Effect, Enabled, FriendGraph, TopicsAgree, Population, Buffers, Numbered, ListedSince, Reading;
    var front, last := run[..|run| - 1], run[|run| - 1];
    var w := Exec(cfg, front);
    RunsKeepInv(cfg, front);
    FreshName(w);
    if Enabled(cfg, w, last) {
      if p !in w.peers { NewcomersAreBlank(cfg, w, last, p); } else { EntriesAfter(cfg, w, last, p, t); }
    }
    if Lists(w, p, t) {
      k := JoinTimesInRuns(cfg, front, p, t);
      SinceBefore(cfg, front, p, t, k);
      assert run[k] == front[k];
    } else {
      k := |front|;
    }
    ListedSinceSnoc(cfg, run, p, t, k);
  }

  lemma SinceBefore(cfg: Config, run: seq<Action>, p: PeerId, t: TopicId, k: nat)
    requires ListedSince(cfg, run, p, t, k)
    ensures k < |run|
  {
  }

  /** Who may take a topic, or a peer, over its limit: friends, and nobody else. */
  lemma OnlyFriendsOverfill(cfg: Config, w: World, a: Action, p: PeerId, t: TopicId)
    requires TopicsAgree(w.peers, w.topics.Keys) && Enabled(cfg, w, a) && PeerName(w.nextPeerNum) !in w.peers
    requires p in w.peers && p in Effect(cfg, w, a).peers
    requires t !in w.peers[p].topics && t in Effect(cfg, w, a).peers[p].topics
    ensures t in w.topics && w.topics[t] >= cfg.maxPeersPerTopic ==> a.AddFriend? || a.JoinFriends?
    ensures |w.peers[p].topics| >= cfg.maxTopicsPerPeer ==> a.AddFriend? || a.JoinFriends? || a.JoinRandom?
  {
    EntriesAfter(cfg, w, a, p, t);
    if a.AddTopic? { PickedHadRoom(cfg, w.peers, a.t, a.picks, p); }
  }

  /** Whoever was picked for a new topic was ready and had room. */
  lemma {:induction false} PickedHadRoom(cfg: Config, ps: Peers, t: TopicId, picks: seq<Pick>, p: PeerId)
    requires p in ps && t !in ps[p].topics && t !in ps[p].joined && PicksRoomy(cfg, ps, t, picks)
    requires FirstPick(picks, p) != []
    ensures ps[p].ready && |ps[p].topics| < cfg.maxTopicsPerPeer
  {
    var front, last := picks[..|picks| - 1], picks[|picks| - 1];
    assert picks == front + [last];
    FirstPickSnoc(front, last, p);
    forall i | 0 <= i < |front| ensures front[i].peer in RoomyPeers(cfg, JoinPicks(ps, t, front[..i])) {
      assert front[..i] == picks[..i];
    }
    if FirstPick(front, p) != [] {
      PickedHadRoom(cfg, ps, t, front, p);
    } else {
      PickedJoin(ps, t, front, p);
      assert picks[..|front|] == front;
    }
  }

  /** A new topic is populated in as many rounds as are asked for, or until no ready peer has room. */
  lemma NewTopicsArePopulated(cfg: Config, w: World, t: TopicId, picks: seq<Pick>)
    requires Enabled(cfg, w, AddTopic(t, picks))
    ensures var ps' := Effect(cfg, w, AddTopic(t, picks)).peers;
      || |picks| == (if cfg.initialPeersPerTopic <= |w.peers| then cfg.initialPeersPerTopic else |w.peers|)
      || (forall p :: p in ps' && ps'[p].ready ==> |ps'[p].topics| >= cfg.maxTopicsPerPeer)
  {
    var ps' := Effect(cfg, w, AddTopic(t, picks)).peers;
    if RoomyPeers(cfg, ps') == {} {
      forall p | p in ps' && ps'[p].ready ensures |ps'[p].topics| >= cfg.maxTopicsPerPeer {
        assert p !in RoomyPeers(cfg, ps');
      }
    }
  }

  /** Peaking asks as many peers as it should, all of them ready, unless the topic is full. */
  lemma PeakingAsksEnough(cfg: Config, w: World, t: TopicId, asked: seq<PeerId>)
    requires Enabled(cfg, w, PeakTopic(t, asked))
    ensures t in w.topics && |asked| == if w.topics[t] < cfg.maxPeersPerTopic then cfg.peakPeers else 0
    ensures forall p :: p in asked ==> p in w.peers && w.peers[p].ready
  {
  }

  // ---- readiness ----

  lemma ReadyAfter(cfg: Config, w: World, a: Action, p: PeerId)
    requires Enabled(cfg, w, a) && PeerName(w.nextPeerNum) !in w.peers
    requires p in Effect(cfg, w, a).peers
    ensures Effect(cfg, w, a).peers[p].ready <==> (p in w.peers && w.peers[p].ready) || a == PeerReady(p)
  {
    match a
    case AddTopic(t, picks) =>
      JoinPicksOnce(cfg, w.peers, t, picks);
      assert JoinedAtMostOnce(w.peers[p], JoinPicks(w.peers, t, picks)[p], t);
    case PeakTopic(t, asked) =>
      AskPicksOnlyAsks(w.peers, t, asked);
      assert AskPicks(w.peers, t, asked)[p].(requests := w.peers[p].requests) == w.peers[p];
    case _ =>
  }

  /** p connected at some point of the run while it was there. */
  ghost predicate Connected(cfg: Config, run: seq<Action>, p: PeerId) {
    exists k :: ConnectedAt(cfg, run, p, k)
  }

  ghost predicate ConnectedAt(cfg: Config, run: seq<Action>, p: PeerId, k: nat) {
    k < |run| && run[k] == PeerReady(p) && p in Exec(cfg, run[..k]).peers
  }

  lemma ConnectedSnoc(cfg: Config, run: seq<Action>, a: Action, p: PeerId)
    ensures Connected(cfg, run + [a], p) <==>
      Connected(cfg, run, p) || (a == PeerReady(p) && p in Exec(cfg, run).peers)
  {
    hide Exec;
    var more := run + [a];
    assert more[..|run|] == run;
    if k: nat :| ConnectedAt(cfg, run, p, k) {
      assert more[..k] == run[..k] && ConnectedAt(cfg, more, p, k);
    }
    if k: nat :| ConnectedAt(cfg, more, p, k) {
      if k < |run| { assert more[..k] == run[..k] && ConnectedAt(cfg, run, p, k); }
    }
    if a == PeerReady(p) && p in Exec(cfg, run).peers {
      assert ConnectedAt(cfg, more, p, |run|);
    }
  }

  /** A present peer is ready exactly if it connected. */
  lemma {:induction false} ReadyInRuns(cfg: Config, run: seq<Action>, p: PeerId)
    requires p in Exec(cfg, run).peers
    ensures Exec(cfg, run).peers[p].ready <==> Connected(cfg, run, p)
  {
    hide Effect, Inv, Numbered, Connected, UsedName;
    var front, last := run[..|run| - 1], run[|run| - 1];
    var w := Exec(cfg, front);
    assert run == front + [last];
    RunsKeepInv(cfg, front);
    FreshName(w);
    ConnectedSnoc(cfg, front, last, p);
    if Enabled(cfg, w, last) { ReadyAfter(cfg, w, last, p); }
    if p in w.peers {
      ReadyInRuns(cfg, front, p);
    } else {
      NewcomersAreBlank(cfg, w, last, p);
      NextNameIsUnused(w.nextPeerNum);
      NotConnectedYet(cfg, front, p);
    }
  }

  lemma {:induction false} NotConnectedYet(cfg: Config, run: seq<Action>, p: PeerId)
    requires !UsedName(p, Exec(cfg, run).nextPeerNum)
    ensures !Connected(cfg, run, p)
  {
    hide Effect, Enabled, Inv, UsedName;
    if run == [] {
    } else {
      var front, last := run[..|run| - 1], run[|run| - 1];
      assert run == front + [last];
      if UsedName(p, Exec(cfg, front).nextPeerNum) { UsedStaysUsed(cfg, Exec(cfg, front), last, p); }
      RunsKeepInv(cfg, front);
      NotConnectedYet(cfg, front, p);
      ConnectedSnoc(cfg, front, last, p);
    }
  }
}
