/**
 The simulator as an object: the shared maps of peers and topics and the handlers that change them
 in place. Each handler takes its Enter guard and its State body in one transition and is proved
 to make the step of the world model that belongs to it, whatever is picked at random.
 */
module Simulator {
  import opened Seqs
  import opened Names
  import opened World
  import opened WorldRuns
  import opened PopulationRuns
  import opened Friendships
  import Delivery
  import opened Roster
  import opened Additions
  import opened Histories
  import opened TopicLogs
  import Topics

  type TopicMap = map<TopicId, Topics.Topic>

  /** The map of topics is keyed by the topics' own names, and the topics are consistent. */
  ghost predicate TopicsValid(topics: TopicMap, window: nat)
    reads topics.Values
  {
    forall t :: t in topics ==> topics[t].id == t && topics[t].window == window && topics[t].Valid()
  }

  ghost function Counts(topics: TopicMap): map<TopicId, int>
    reads topics.Values
  {
    map t | t in topics :: topics[t].peersCount
  }

  ghost function EventsOf(topics: TopicMap): Logs
    reads topics.Values
  {
    map t | t in topics :: topics[t].events
  }

  lemma CountsSize(topics: TopicMap)
    ensures |Counts(topics)| == |topics| && Counts(topics).Keys == topics.Keys
  {
    assert Counts(topics).Keys == topics.Keys;
    assert |Counts(topics)| == |Counts(topics).Keys| && |topics| == |topics.Keys|;
  }

  method NewTopic(sim: object, topics: TopicMap, name: TopicId, window: nat, peakMin: int) returns (more: TopicMap)
    requires name !in topics && TopicsValid(topics, window)
    ensures name in more && more == topics[name := more[name]] && more[name].sim == sim && TopicsValid(more, window)
    ensures Counts(more) == old(Counts(topics))[name := 0] && EventsOf(more) == old(EventsOf(topics))[name := []]
  {
    hide *;
    ghost var counts, logs := Counts(topics), EventsOf(topics);
    TopicParts(topics, window);
    var topic := new Topics.Topic(sim, name, window, peakMin);
    more := topics[topic.id := topic];
    TopicsAre(more, window, counts[name := 0], logs[name := []]);
  }

  lemma TopicParts(topics: TopicMap, window: nat)
    requires TopicsValid(topics, window)
    ensures Counts(topics).Keys == topics.Keys && EventsOf(topics).Keys == topics.Keys
    ensures forall t :: t in topics ==> topics[t].id == t && topics[t].window == window && topics[t].Valid()
    ensures forall t :: t in topics ==>
      Counts(topics)[t] == topics[t].peersCount && EventsOf(topics)[t] == topics[t].events
  {
  }

  lemma TopicsAre(topics: TopicMap, window: nat, counts: map<TopicId, int>, logs: Logs)
    requires counts.Keys == topics.Keys && logs.Keys == topics.Keys
    requires forall t :: t in topics ==> topics[t].id == t && topics[t].window == window && topics[t].Valid()
    requires forall t :: t in topics ==> counts[t] == topics[t].peersCount && logs[t] == topics[t].events
    ensures TopicsValid(topics, window) && Counts(topics) == counts && EventsOf(topics) == logs
  {
  }

  ghost predicate Ours(sim: object, peers: Roster, topics: TopicMap) {
    (forall p :: p in peers ==> peers[p].sim == sim) && (forall t :: t in topics ==> topics[t].sim == sim)
  }

  lemma OursStill(sim: object, peers: Roster, topics: TopicMap, t: TopicId)
    requires Ours(sim, peers, topics)
    ensures Ours(sim, peers, topics - {t})
  {
  }

  lemma OneTopicLess(topics: TopicMap, t: TopicId, window: nat)
    requires TopicsValid(topics, window) && t in topics
    ensures TopicsValid(topics - {t}, window)
    ensures Counts(topics - {t}) == Counts(topics) - {t} && EventsOf(topics - {t}) == EventsOf(topics) - {t}
  {
  }

  lemma NotingIs(logs: Logs, t: TopicId, e: Topics.Event)
    requires t in logs
    ensures Noting(logs, t, e) == logs[t := logs[t] + [e]] && Noting(logs, t, e).Keys == logs.Keys
  {
  }

  method ChangeTopic(topics: TopicMap, t: TopicId, amount: int, now: int, window: nat)
    requires TopicsValid(topics, window) && t in topics && amount != 0
    modifies topics[t]
    ensures TopicsValid(topics, window)
    ensures EventsOf(topics) == Noting(old(EventsOf(topics)), t, Topics.PeerChange(now, amount))
    ensures Counts(topics) == old(Counts(topics))[t := old(Counts(topics))[t] + amount]
  {
    hide *;
    ghost var counts, logs := Counts(topics), EventsOf(topics);
    TopicParts(topics, window);
    topics[t].ChangePeers(amount, now);
    NotingIs(logs, t, Topics.PeerChange(now, amount));
    TopicsAre(topics, window, counts[t := counts[t] + amount], Noting(logs, t, Topics.PeerChange(now, amount)));
  }

  method LogAtTopic(topics: TopicMap, t: TopicId, amount: int, now: int, window: nat)
    requires TopicsValid(topics, window) && t in topics && window > 0
    modifies topics[t]
    ensures TopicsValid(topics, window)
    ensures EventsOf(topics) == Noting(old(EventsOf(topics)), t, Topics.Msgs(now, amount))
    ensures Counts(topics) == old(Counts(topics))
  {
    hide *;
    ghost var counts, logs := Counts(topics), EventsOf(topics);
    TopicParts(topics, window);
    topics[t].LogMsgs(amount, now);
    NotingIs(logs, t, Topics.Msgs(now, amount));
    TopicsAre(topics, window, counts, Noting(logs, t, Topics.Msgs(now, amount)));
  }

  lemma NothingNoted(topics: TopicMap, t: TopicId, e: Topics.Event)
    requires t !in topics
    ensures Noting(EventsOf(topics), t, e) == EventsOf(topics)
  {
  }

  lemma ReadyCount(ps: Peers, ready: seq<PeerId>)
    requires NoDup(ready) && forall p :: p in ready <==> p in ps && ps[p].ready
    ensures |ready| == |ReadyPeers(ps)|
  {
    NoDupCard(ready);
    assert ReadyPeers(ps) == set p | p in ready;
  }

  datatype Gauges = Gauges(peers: int, topics: int, friendships: int, peersWithTopics: int, peersPerTopic: real)

  const NO_GAUGES := Gauges(0, 0, 0, 0, 0.0)

  /** What the gauges should say of a world; without topics the average stays as it was. */
  ghost function GaugesOf(w: World, was: Gauges): Gauges {
    Gauges(
      |w.peers|, |w.topics|, |Edges(w.peers)|, |WithTopics(w.peers, w.peers.Keys)|,
      if |w.topics| > 0 then Sum(w.topics) as real / |w.topics| as real else was.peersPerTopic)
  }

  lemma GaugesAre(w: World, was: Gauges)
    ensures GaugesOf(w, was) == Gauges(
      |w.peers|, |w.topics|, |Edges(w.peers)|, |WithTopics(w.peers, w.peers.Keys)|,
      if |w.topics| > 0 then Sum(w.topics) as real / |w.topics| as real else was.peersPerTopic)
  {
  }

  /** The gauges of any reachable world, by laws of their own. */
  lemma GaugesInRuns(cfg: Config, run: seq<Action>, was: Gauges)
    ensures var w := Exec(cfg, run);
      var g := GaugesOf(w, was);
      && g.peers + Removals(cfg, run) == w.nextPeerNum
      && g.topics == |w.topics| <= cfg.maxTopics
      && 2 * g.friendships == Sum(Degrees(w.peers))
      && g.peersWithTopics == |set p | p in w.peers && w.peers[p].topics != []|
      && (w.topics != map[] ==> g.peersPerTopic * |w.topics| as real == Sum(w.topics) as real)
      && (w.topics == map[] ==> g.peersPerTopic == was.peersPerTopic)
  {
    hide Exec, Removals, Sum, Edges, Degrees, WithTopics;
    PeersAreCounted(cfg, run);
    RunsKeepInv(cfg, run);
    HandshakeInRuns(cfg, run);
    WithTopicsInRuns(cfg, run);
  }

  ghost function CountsOf(counts: map<TopicId, int>, done: set<TopicId>): map<TopicId, int> {
    map t | t in counts && t in done :: counts[t]
  }

  lemma CountSumGrows(counts: map<TopicId, int>, done: set<TopicId>, t: TopicId)
    requires t in counts && t !in done
    ensures Sum(CountsOf(counts, done + {t})) == Sum(CountsOf(counts, done)) + counts[t]
  {
    SumSplit(CountsOf(counts, done + {t}), t);
    assert CountsOf(counts, done + {t}) - {t} == CountsOf(counts, done);
  }

  method SumCounts(topics: TopicMap) returns (sum: int)
    ensures sum == Sum(Counts(topics))
  {
    hide Sum;
    ghost var counts, done: set<TopicId> := Counts(topics), {};
    sum := 0;
    var todo := topics.Keys;
    assert Sum(CountsOf(counts, done)) == 0 by { NothingCounted(counts); }
    while todo != {}
      invariant todo <= topics.Keys && done == topics.Keys - todo && sum == Sum(CountsOf(counts, done))
      decreases |todo|
    {
      var t :| t in todo;
      CountSumGrows(counts, done, t);
      todo, done := todo - {t}, done + {t};
      sum := sum + topics[t].peersCount;
    }
    assert CountsOf(counts, done) == counts;
  }

  lemma NothingCounted(counts: map<TopicId, int>)
    ensures Sum(CountsOf(counts, {})) == 0
  {
    assert CountsOf(counts, {}) == map[];
  }

  class Sim {
    const cfg: Config
    const window: nat
    const peakMin: int
    var peers: Roster
    var topics: TopicMap
    var nextPeerNum: nat
    var msgsRecv: nat
    var msgsMiss: nat
    var gauges: Gauges

    ghost function View(): World
      reads this, peers.Values, topics.Values
    {
      World(Views(peers), Counts(topics), nextPeerNum, msgsRecv, msgsMiss)
    }

    /** All peers and topics are this simulator's own. */
    ghost predicate Housed()
      reads this
    {
      Ours(this, peers, topics)
    }

    lemma ViewIs(ps: Peers, counts: map<TopicId, int>)
      requires Views(peers) == ps && Counts(topics) == counts
      ensures View() == World(ps, counts, nextPeerNum, msgsRecv, msgsMiss)
    {
    }

    lemma ViewParts()
      ensures View() == World(Views(peers), Counts(topics), nextPeerNum, msgsRecv, msgsMiss)
    {
    }

    lemma Sizes()
      ensures |View().peers| == |peers| && View().peers.Keys == peers.Keys
      ensures |View().topics| == |topics| && View().topics.Keys == topics.Keys
    {
      ViewsSize(peers);
      CountsSize(topics);
    }

    constructor (cfg: Config, window: nat, peakMin: int)
      requires window > 0
      ensures Named(peers) && TopicsValid(topics, window) && View() == INIT && this.cfg == cfg && this.window == window
      ensures Housed() && topics == map[] && gauges == NO_GAUGES
    {
      this.cfg, this.window, this.peakMin := cfg, window, peakMin;
      peers, topics := map[], map[];
      nextPeerNum, msgsRecv, msgsMiss, gauges := 0, 0, 0, NO_GAUGES;
    }

    method CanDraw(p: PeerId) returns (can: bool)
      requires Named(peers)
      ensures can <==> Drawn(View().peers, p)
    {
      var ids := GetReadyPeers(peers);
      assert forall q :: q in ids <==> q in ReadyPeers(View().peers);
      if |ids| != 0 { assert ids[0] in ids; }
      can := |ids| == 0 || p in ids;
    }

    method CanDrawTopic(t: TopicId) returns (can: bool)
      ensures can <==> DrawnTopic(View(), t)
    {
      Sizes();
      can := |topics| == 0 || t in topics;
    }

    method CanDrawTopicOf(p: PeerId, t: TopicId) returns (can: bool)
      ensures can <==> DrawnTopicOf(View().peers, p, t)
    {
      can := p in peers && |peers[p].simTopics| != 0 ==> t in peers[p].simTopics;
    }

    method CanDrawFriend(p: PeerId, friend: PeerId) returns (can: bool)
      ensures can <==> DrawnFriend(View().peers, p, friend)
    {
      can := p in peers && |peers[p].simFriends| != 0 ==> friend in peers[p].simFriends;
    }

    /** Whether the turn can come now. */
    method CanCome(turn: Turn) returns (can: bool)
      requires Named(peers)
      ensures can <==> CanTake(View(), turn)
    {
      hide Drawn, DrawnTopic, DrawnTopicOf, DrawnFriend, Named, Views, Counts;
      Sizes();
      var can1, can2 := true, true;
      can := true;
      match turn
      case DropPeerTurn(p) => can := |peers| == 0 || p in peers;
      case ReadyTurn(p) => can := p in peers;
      case StoreTurn(p, _) => can := p in peers;
      case DropTopicTurn(t) => can := CanDrawTopic(t);
      case FriendTurn(p, q, t, _) =>
        can1 := CanDraw(p);
        can2 := CanDraw(q);
        can := CanDrawTopicOf(p, t);
        can := can && can1 && can2;
      case RandomJoinTurn(p, t, _) =>
        can1 := CanDraw(p);
        can := CanDrawTopic(t);
        can := can && can1;
      case FriendJoinTurn(p, friend, t, _) =>
        can1 := CanDraw(p);
        can2 := CanDrawFriend(p, friend);
        can := CanDrawTopicOf(friend, t);
        can := can && can1 && can2;
      case PeakTurn(t) => can := CanDrawTopic(t);
      case MsgTurn(p, t) =>
        can1 := CanDraw(p);
        can := CanDrawTopicOf(p, t);
        can := can && can1;
      case CountTurn(_, delta, _) => can := delta != 0;
      case _ =>
    }

    // ---- peers come and go ----

    /** AddPeer's loop; built creations succeed before one fails. */
    method AddPeerState(amount: nat, built: nat) returns (added: nat)
      requires Named(peers) && Housed() && NoNameAhead(View())
      modifies this`peers, this`nextPeerNum
      ensures added == NewPeers(cfg, |old(peers)|, amount, built)
      ensures Named(peers) && View() == PeersAdded(old(View()), added)
      ensures |peers| == |old(peers)| + added
      ensures Housed()
    {
      hide *;
      ghost var w := View();
      added := 0;
      NoPeersAdded(w);
      NewPeersCount(cfg, |peers|, amount, built, 0);
      while added < amount
        invariant added <= NewPeers(cfg, |old(peers)|, amount, built) <= built
        invariant Named(peers) && NoNameAhead(View())
        invariant View() == PeersAdded(w, added) && |peers| == |old(peers)| + added
        invariant Housed()
      {
        NewPeersCount(cfg, |old(peers)|, amount, built, added);
        if |peers| >= cfg.maxPeers {
          break;
        }
        if added == built {
          return; // "Error creating peer"
        }
        AddOnePeer();
        added := added + 1;
        OnePeerMore(w, added);
      }
      NewPeersCount(cfg, |old(peers)|, amount, built, added);
    }

    /** One round of AddPeer's loop. */
    method AddOnePeer()
      requires Named(peers) && Housed() && NoNameAhead(View())
      modifies this`peers, this`nextPeerNum
      ensures Named(peers) && NoNameAhead(View())
      ensures View() == PeerAdded(old(View())) && |peers| == |old(peers)| + 1
      ensures Housed()
    {
      hide PeerName;
      AddingKeepsNoNameAhead(View());
      var name := PeerName(nextPeerNum);
      assert name !in View().peers;
      StorePeer(name);
    }

    method StorePeer(name: PeerId)
      requires Named(peers) && Housed() && name !in peers
      modifies this`peers, this`nextPeerNum
      ensures Named(peers) && |peers| == |old(peers)| + 1
      ensures Housed()
      ensures View() == old(View()).(peers := old(Views(peers))[name := FRESH_PEER],
                                     nextPeerNum := old(nextPeerNum) + 1)
    {
      hide Views, Counts;
      ghost var w := View();
      peers := Enroll(this, peers, name);
      nextPeerNum := nextPeerNum + 1;
      ViewIs(w.peers[name := FRESH_PEER], w.topics);
    }

    method RemovePeerEnter() returns (ok: bool)
      ensures ok <==> CanDropPeer(cfg, View())
      ensures ok <==> |peers| > cfg.initialPeers
    {
      Sizes();
      ok := |peers| > cfg.initialPeers;
    }

    /** The chosen peer leaves; its friends drop it from their lists. */
    method RemovePeerState(randID: PeerId)
      requires Named(peers) && FriendGraph(cfg, View().peers) && randID in View().peers
      modifies this`peers, peers.Values`simFriends
      ensures Named(peers) && peers == old(peers) - {randID}
      ensures View() == PeerRemoved(old(View()), randID)
    {
      hide Without, FriendGraph, CanBeForgotten;
      ghost var w := View();
      OnlyFriendsListIt(cfg, w.peers, randID);
      peers := Depart(peers, randID, w);
      RemovedView(w, randID);
    }

    lemma RemovedView(w: World, p: PeerId)
      requires Views(peers) == PeerRemoved(w, p).peers && Counts(topics) == w.topics
      requires (nextPeerNum, msgsRecv, msgsMiss) == (w.nextPeerNum, w.msgsRecv, w.msgsMiss)
      ensures View() == PeerRemoved(w, p)
    {
    }

    /** The environment: a started peer connects and becomes ready. */
    method PeerBecomesReady(p: PeerId)
      requires Named(peers) && p in peers
      modifies {peers[p]}`ready
      ensures View() == WithPeer(old(View()), p, old(View()).peers[p].(ready := true))
    {
      ghost var w := View();
      peers[p].ready := true;
      ViewsAre(peers, w.peers[p := w.peers[p].(ready := true)]);
      ViewIs(Views(peers), w.topics);
    }

    /** A message arrives at a peer. */
    method PeerStoresMsg(p: PeerId, m: Message)
      requires Named(peers) && p in peers
      modifies {peers[p]}`msgs
      ensures View() == WithPeer(old(View()), p, old(View()).peers[p].Storing(m, cfg.maxMsgs))
    {
      ghost var w := View();
      peers[p].StoreMsg(m, cfg.maxMsgs);
      ViewsAre(peers, w.peers[p := w.peers[p].Storing(m, cfg.maxMsgs)]);
      ViewIs(Views(peers), w.topics);
    }

    // ---- topics come and go ----

    method CreateTopic(name: TopicId)
      requires Named(peers) && Housed() && TopicsValid(topics, window) && name !in topics
      modifies this`topics
      ensures Housed() && TopicsValid(topics, window) && EventsOf(topics) == old(EventsOf(topics))[name := []]
      ensures View() == old(View()).(topics := old(View()).topics[name := 0])
    {
      hide Views, Counts, Named, TopicsValid, EventsOf;
      ghost var w := View();
      topics := NewTopic(this, topics, name, window, peakMin);
      ViewIs(w.peers, w.topics[name := 0]);
    }

    method Populate(name: TopicId) returns (ghost picks: seq<Pick>)
      requires Named(peers)
      modifies peers.Values`simTopics, peers.Values`simTopicJoined, peers.Values`requests
      ensures View() == old(View()).(peers := JoinPicks(old(View()).peers, name, picks))
      ensures PicksRoomy(cfg, old(View()).peers, name, picks) && PicksComplete(cfg, old(View()).peers, name, picks)
      ensures |picks| <= cfg.initialPeersPerTopic && |picks| <= |old(View()).peers|
    {
      hide *;
      ghost var w := View();
      ViewParts();
      picks := JoinRounds(peers, cfg, name, w.peers);
      ViewIs(JoinPicks(w.peers, name, picks), w.topics);
    }

    /** One round of AddTopic's loop: a topic under a new name, and its first peers. */
    method AddOneTopic(name: TopicId) returns (ghost picks: seq<Pick>)
      requires Named(peers) && Housed() && TopicsValid(topics, window) && name !in topics && |topics| < cfg.maxTopics
      modifies this`topics, peers.Values`simTopics, peers.Values`simTopicJoined, peers.Values`requests
      ensures Housed() && TopicsValid(topics, window) && EventsOf(topics) == old(EventsOf(topics))[name := []]
      ensures CanAddTopic(cfg, old(View()), name, picks)
      ensures View() == TopicAdded(old(View()), name, picks)
    {
      hide *;
      ghost var w := View();
      Sizes();
      CreateTopic(name);
      picks := Populate(name);
      TopicIsAdded(cfg, w, name, picks);
    }

    method AddTopicEnter() returns (ok: bool)
      requires Named(peers)
      ensures ok <==> CanAddTopics(cfg, View())
      ensures ok <==>
        && |topics| < cfg.maxTopics
        && exists p | p in peers :: peers[p].ready && |peers[p].simTopics| < cfg.maxTopicsPerPeer
    {
      Sizes();
      var roomy, p := PickRoomyPeer(peers, cfg.maxTopicsPerPeer);
      ok := |topics| < cfg.maxTopics && roomy;
      if roomy { assert p in RoomyPeers(cfg, Views(peers)); }
    }

    /** One round of AddTopic's loop. */
    method AddTopicRound(name: TopicId, fails: bool) returns (round: Round, ghost picks: seq<Pick>)
      requires Named(peers) && Housed() && TopicsValid(topics, window)
      modifies this`topics, peers.Values`simTopics, peers.Values`simTopicJoined, peers.Values`requests
      ensures Housed() && TopicsValid(topics, window)
      ensures round == RoundOf(old(View()).topics.Keys, name, cfg.maxTopics, fails)
      ensures round != Made ==> View() == old(View()) && EventsOf(topics) == old(EventsOf(topics))
      ensures round == Made ==> EventsOf(topics) == old(EventsOf(topics))[name := []]
      ensures round == Made ==> CanAddTopic(cfg, old(View()), name, picks)
      ensures round == Made ==> View() == TopicAdded(old(View()), name, picks)
      ensures View().topics.Keys == old(View()).topics.Keys + if round == Made then {name} else {}
    {
      hide *;
      ghost var w := View();
      Sizes();
      RoundIs(w.topics, name, cfg.maxTopics, fails);
      picks := [];
      if |topics| >= cfg.maxTopics {
        round := Stopped;
      } else if name in topics {
        round := Taken;
      } else if fails {
        round := Stopped;
      } else {
        round := Made;
        picks := AddOneTopic(name);
        OneTopicMore(w, name, picks);
      }
    }

    /**
     AddTopic's loop over the random names drawn; one that is taken already is passed over, and built
     creations succeed before one fails.
     */
    method AddTopicState(names: seq<TopicId>, built: nat) returns (ghost added: seq<Addition>)
      requires Named(peers) && Housed() && TopicsValid(topics, window)
      modifies this`topics, peers.Values`simTopics, peers.Values`simTopicJoined, peers.Values`requests
      ensures Housed() && TopicsValid(topics, window)
      ensures NamesOf(added) == NewTopics(old(View()).topics.Keys, names, cfg.maxTopics, built)
      ensures View() == TopicsAdded(old(View()), added) && AdditionsOk(cfg, old(View()), added)
      ensures EventsOf(topics) == WithNew(old(EventsOf(topics)), NamesOf(added))
    {
      hide *;
      ghost var logs := EventsOf(topics);
      ghost var w, all := View(), NewTopics(View().topics.Keys, names, cfg.maxTopics, built);
      var left := built;
      added := [];
      NothingAdded(cfg, w);
      NamesSnoc([], Addition(NO_TOPIC, []));
      WithNewSnoc(logs, [], NO_TOPIC);
      NamingStarts(w.topics.Keys, names, cfg.maxTopics, built);
      for i := 0 to |names|
        invariant Housed() && TopicsValid(topics, window)
        invariant View() == TopicsAdded(w, added) && AdditionsOk(cfg, w, added)
        invariant EventsOf(topics) == WithNew(logs, NamesOf(added))
        invariant Naming(all, added, View().topics.Keys, names[i..], cfg.maxTopics, left)
      {
        ghost var live := View().topics.Keys;
        var round; ghost var picks;
        round, picks := AddTopicRound(names[i], left == 0);
        NamingGoesOn(all, added, live, names, i, cfg.maxTopics, left, picks);
        if round == Stopped {
          return;
        }
        if round == Made {
          left := left - 1;
          AddedSnoc(cfg, w, added, Addition(names[i], picks));
          NamesSnoc(added, Addition(names[i], picks));
          WithNewSnoc(logs, NamesOf(added), names[i]);
          added := added + [Addition(names[i], picks)];
        }
      }
      NamingEnds(all, added, View().topics.Keys, names, cfg.maxTopics, left);
    }

    method RemoveTopicEnter() returns (ok: bool)
      ensures ok <==> View().topics != map[]
      ensures ok <==> topics != map[]
    {
      Sizes();
      ok := |topics| != 0;
    }

    method DeleteTopic(randTID: TopicId)
      requires randTID in View().topics && TopicsValid(topics, window) && Housed()
      modifies this`topics
      ensures TopicsValid(topics, window) && Housed()
      ensures EventsOf(topics) == old(EventsOf(topics)) - {randTID}
      ensures View() == old(View()).(topics := old(View()).topics - {randTID})
    {
      hide *;
      ghost var w := View();
      ViewParts();
      InTopics(randTID);
      OneTopicLess(topics, randTID, window);
      OursStill(this, peers, topics, randTID);
      topics := topics - {randTID};
      ViewIs(w.peers, w.topics - {randTID});
      HousedIs();
    }

    lemma InTopics(t: TopicId)
      requires t in View().topics
      ensures t in topics && (Housed() <==> Ours(this, peers, topics))
    {
    }

    lemma HousedIs()
      ensures Housed() <==> Ours(this, peers, topics)
    {
    }

    /** The drawn topic goes; every peer leaves it, though only the ready ones are visited. */
    method RemoveTopicState(randTID: TopicId)
      requires Named(peers) && TopicsValid(topics, window) && Housed()
      requires randTID in View().topics && TopicsAgree(View().peers, View().topics.Keys)
      modifies this`topics, peers.Values`simTopics, peers.Values`simTopicJoined, peers.Values`requests
      ensures TopicsValid(topics, window) && Housed()
      ensures EventsOf(topics) == old(EventsOf(topics)) - {randTID}
      ensures View() == TopicRemoved(old(View()), randTID)
      ensures forall p :: p in peers ==>
        randTID !in peers[p].simTopics &&
        peers[p].requests ==
          old(peers[p].requests) + if randTID in old(peers[p].simTopics) then [Leave(randTID)] else []
    {
      hide TopicsAgree, TopicsOk, Without, EventsOf, TopicsValid;
      ghost var w := View();
      DeleteTopic(randTID);
      LeaveTopic(peers, randTID, w);
      ViewIs(TopicRemoved(w, randTID).peers, w.topics - {randTID});
    }

    // ---- friends ----

    /** Accepts the two drawn peers if and only if they may become friends. */
    method AddRandomFriendEnter(p1: PeerId, p2: PeerId) returns (ok: bool)
      requires Named(peers) && Drawn(View().peers, p1) && Drawn(View().peers, p2)
      ensures ok <==> Suitable(cfg, View().peers, p1, p2)
      ensures ok <==>
        && p1 in peers && p2 in peers && peers[p1].ready && peers[p2].ready && p1 != p2
        && p2 !in peers[p1].simFriends && |peers[p1].simTopics| >= 1
        && |peers[p1].simFriends| < cfg.maxFriends && |peers[p2].simFriends| < cfg.maxFriends
    {
      var found1 := PickRandPeer(peers, p1);
      var found2 := PickRandPeer(peers, p2);
      ok := found1 && found2 && p1 != p2 && p2 !in peers[p1].simFriends && |peers[p1].simTopics| >= 1
        && |peers[p1].simFriends| < cfg.maxFriends && |peers[p2].simFriends| < cfg.maxFriends;
    }

    /** Two peers become friends; the second joins the topic drawn from those of the first. */
    method AddRandomFriendState(p1: PeerId, p2: PeerId, t: TopicId, now: int)
      requires Named(peers) && CanBefriend(cfg, View().peers, p1, p2, t)
      modifies peers.Values`simFriends, peers.Values`simTopics, peers.Values`simTopicJoined, peers.Values`requests
      ensures View() == Befriended(old(View()), p1, p2, t, now)
    {
      ghost var w := View();
      Befriend(peers, p1, p2, t, now, w);
      ViewIs(Befriended(w, p1, p2, t, now).peers, w.topics);
    }

    /** From any state, in any order of visits, exactly the friendships that share a topic are left. */
    method GCState()
      requires Named(peers)
      modifies peers.Values`simFriends, peers.Values`msgs
      ensures View() == Collected(cfg, old(View()))
    {
      ghost var w := View();
      Collect(peers, w, cfg, cfg.maxMsgs);
      ViewIs(Collected(cfg, w).peers, w.topics);
    }

    // ---- joining ----

    /** Accepts the drawn peer and topic if and only if the peer is not in it and it has room. */
    method JoinRandomTopicEnter(p: PeerId, t: TopicId) returns (ok: bool)
      requires Named(peers) && Drawn(View().peers, p) && DrawnTopic(View(), t)
      ensures ok <==> CanJoinRandom(cfg, View(), p, t)
      ensures ok <==>
        && p in peers && peers[p].ready && t in topics
        && t !in peers[p].simTopics && topics[t].peersCount < cfg.maxPeersPerTopic
    {
      Sizes();
      var found := PickRandPeer(peers, p);
      ok := found && |topics| != 0 && t !in peers[p].simTopics && topics[t].peersCount < cfg.maxPeersPerTopic;
    }

    /** The drawn friend is always found; accepts if and only if it has topics and p is not in the drawn one. */
    method JoinFriendsTopicEnter(p: PeerId, fid: PeerId, t: TopicId) returns (ok: bool)
      requires Named(peers) && FriendGraph(cfg, View().peers)
      requires Drawn(View().peers, p) && DrawnFriend(View().peers, p, fid) && DrawnTopicOf(View().peers, fid, t)
      ensures ok <==> CanJoinFriend(View().peers, p, fid, t)
      ensures ok <==>
        && p in peers && peers[p].ready && fid in peers[p].simFriends && fid in peers
        && t in peers[fid].simTopics && t !in peers[p].simTopics
    {
      var found := PickRandPeer(peers, p);
      ok := false;
      if !found || |peers[p].simFriends| == 0 {
        return;
      }
      ghost var ps := Views(peers);
      assert FriendsOk(cfg, ps, p) && fid in ps[p].friends;
      if fid !in peers {
        assert false; // "friend not found"
      } else if |peers[fid].simTopics| != 0 {
        ok := t !in peers[p].simTopics;
      }
    }

    /** The State body that JoinRandomTopic and JoinFriendsTopic have in common. */
    method JoinTopicState(p: PeerId, t: TopicId, now: int)
      requires Named(peers) && p in View().peers && t !in View().peers[p].topics
      modifies peers.Values`simTopics, peers.Values`simTopicJoined, peers.Values`requests
      ensures View() == WithPeer(old(View()), p, old(View()).peers[p].Joining(t, now))
    {
      ghost var w := View();
      JoinUnlessIn(peers, p, t, now);
      ViewIs(w.peers[p := w.peers[p].Joining(t, now)], w.topics);
    }

    method PeakRandTopicEnter() returns (ok: bool)
      requires Named(peers)
      ensures ok <==> MayPeak(cfg, View())
      ensures ok <==> |topics| >= 3 && |set p | p in peers && peers[p].ready| >= 2 * cfg.peakPeers
    {
      Sizes();
      var ready := GetReadyPeers(peers);
      ReadyCount(Views(peers), ready);
      assert (set p | p in peers && peers[p].ready) == ReadyPeers(Views(peers));
      ok := |topics| >= 3 && |ready| >= cfg.peakPeers * 2;
    }

    /** Many random peers are asked at once to join the drawn topic; their own lists do not show it. */
    method PeakRandTopicState(t: TopicId) returns (ghost asked: seq<PeerId>)
      requires Named(peers) && MayPeak(cfg, View()) && DrawnTopic(View(), t)
      modifies peers.Values`requests
      ensures CanPeak(cfg, old(View()), t, asked)
      ensures View() == old(View()).(peers := AskPicks(old(View()).peers, t, asked))
    {
      hide AskPicks, ReadyPeers, IsReady, Named;
      ghost var w := View();
      Sizes();
      asked := [];
      AskedNobody(w.peers, t);
      var i := 0;
      while i < cfg.peakPeers
        invariant 0 <= i <= cfg.peakPeers && |asked| == i
        invariant topics[t].peersCount == w.topics[t] && (i > 0 ==> w.topics[t] < cfg.maxPeersPerTopic)
        invariant Views(peers) == AskPicks(w.peers, t, asked) && forall p :: p in asked ==> IsReady(w.peers, p)
      {
        if topics[t].peersCount >= cfg.maxPeersPerTopic {
          break;
        }
        ghost var p := AskRandPeer(peers, t, w.peers, asked);
        asked := asked + [p];
        i := i + 1;
      }
      ViewIs(AskPicks(w.peers, t, asked), w.topics);
    }

    // ---- messages and metrics ----

    /** Accepts the drawn peer and topic if and only if another ready peer is in it; the last test never fails. */
    method MsgRandomTopicEnter(p: PeerId, t: TopicId) returns (ok: bool)
      requires Named(peers) && TopicsAgree(View().peers, View().topics.Keys)
      requires Drawn(View().peers, p) && DrawnTopicOf(View().peers, p, t)
      ensures ok <==> CanMsg(View().peers, p, t)
      ensures ok <==>
        && p in peers && peers[p].ready && t in peers[p].simTopics
        && exists q | q in peers :: q != p && peers[q].ready && t in peers[q].simTopics
    {
      var found := PickRandPeer(peers, p);
      ok := false;
      if !found || |peers[p].simTopics| == 0 {
        return;
      }
      var ids := GetTopicPeers(peers, t);
      assert p in ids;
      if |ids| < 2 {
        assert forall q :: q in ids ==> q == ids[0];
        return;
      }
      assert ids[0] in ids && ids[1] in ids;
      Sizes();
      assert TopicsOk(View().peers[p], View().topics.Keys);
      ok := |topics| > 0;
    }

    method VerifyMsgsRecvState(author: PeerId, t: TopicId, msgs: seq<Message>, sent: int)
      requires Named(peers)
      modifies this`msgsRecv, this`msgsMiss
      ensures View() == Verified(old(View()), author, t, msgs, sent)
      ensures msgsRecv == old(msgsRecv) + |Delivery.VerifiedPairs(Views(peers), author, t, msgs, sent, true)|
      ensures msgsMiss == old(msgsMiss) + |Delivery.VerifiedPairs(Views(peers), author, t, msgs, sent, false)|
    {
      hide Delivery.VerifiedPairs, Audience, Received, Missed;
      ghost var w := View();
      Delivery.VerifiedCounts(w, author, t, msgs, sent);
      var recv, miss := VerifyDelivery(peers, author, t, msgs, sent);
      msgsRecv := msgsRecv + recv;
      msgsMiss := msgsMiss + miss;
      ViewIs(w.peers, w.topics);
    }

    /** The gauges; the friendships are exact, for the halving never rounds. */
    method RefreshMetricsState()
      requires Named(peers) && FriendGraph(cfg, View().peers)
      modifies this`gauges
      ensures View() == old(View()) && gauges == GaugesOf(View(), old(gauges))
    {
      hide *;
      ghost var w := View();
      ViewParts();
      Sizes();
      var friends, withTopics := SumPeers(peers, cfg);
      gauges := gauges.(
        peers := |peers|, topics := |topics|, friendships := friends / 2, peersWithTopics := withTopics);
      var topicsPeers := SumCounts(topics);
      if |topics| > 0 {
        gauges := gauges.(peersPerTopic := topicsPeers as real / |topics| as real);
      }
      ViewIs(w.peers, w.topics);
      GaugesAre(w, old(gauges));
    }

    /** A delta arrives at a topic, and no other topic changes; without its topic it is only logged. */
    method TopicPeerChange(t: TopicId, amount: int, now: int) returns (found: bool)
      requires Named(peers) && TopicsValid(topics, window) && amount != 0
      modifies if t in topics then {topics[t]} else {}
      ensures TopicsValid(topics, window)
      ensures EventsOf(topics) == Noting(old(EventsOf(topics)), t, Topics.PeerChange(now, amount))
      ensures found <==> t in old(View()).topics
      ensures found ==> View() == old(View()).(topics := old(View()).topics[t := old(View()).topics[t] + amount])
      ensures !found ==> View() == old(View())
    {
      hide *;
      ghost var w := View();
      ViewParts();
      Sizes();
      found := t in topics;
      if !found {
        NothingNoted(topics, t, Topics.PeerChange(now, amount));
      } else {
        ChangeTopic(topics, t, amount, now, window);
        ViewIs(w.peers, w.topics[t := w.topics[t] + amount]);
      }
    }

    /** Sent messages are logged by their topic, and no other topic changes; nor does any counter. */
    method TopicMsgs(t: TopicId, amount: int, now: int)
      requires Named(peers) && TopicsValid(topics, window) && window > 0
      modifies if t in topics then {topics[t]} else {}
      ensures TopicsValid(topics, window) && View() == old(View())
      ensures EventsOf(topics) == Noting(old(EventsOf(topics)), t, Topics.Msgs(now, amount))
    {
      hide *;
      ghost var w := View();
      ViewParts();
      if t !in topics {
        NothingNoted(topics, t, Topics.Msgs(now, amount));
      } else {
        LogAtTopic(topics, t, amount, now, window);
        ViewIs(w.peers, w.topics);
      }
    }
  }
}
