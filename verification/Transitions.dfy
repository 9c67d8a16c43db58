/**
 The simulator's machine: one transition after another on the one object. Whatever its turns, the
 object goes on following a run of the world model that fits them, so the preconditions of every
 handler hold whenever its turn comes, and what is proved of runs is true of the object.
 */
module Transitions {
  import opened Names
  import opened World
  import opened WorldRuns
  import opened PopulationRuns
  import opened Friendships
  import opened Delivery
  import opened Roster
  import opened Additions
  import opened Histories
  import opened TopicLogs
  import opened Simulator
  import Seqs
  import Topics

  /** The object is what the run leads to. */
  ghost predicate Follows(s: Sim, run: seq<Action>)
    reads s, s.peers.Values, s.topics.Values
  {
    && Named(s.peers) && s.Housed() && TopicsValid(s.topics, s.window) && s.window > 0
    && s.View() == Exec(s.cfg, run)
  }

  method Start(cfg: Config, window: nat, peakMin: int) returns (s: Sim)
    requires window > 0
    ensures Follows(s, []) && s.cfg == cfg && s.window == window && fresh(s)
    ensures s.topics == map[] && s.gauges == NO_GAUGES
  {
    s := new Sim(cfg, window, peakMin);
  }

  /** What the handlers rely on. */
  lemma Reliance(cfg: Config, run: seq<Action>)
    ensures FriendGraph(cfg, Exec(cfg, run).peers)
    ensures TopicsAgree(Exec(cfg, run).peers, Exec(cfg, run).topics.Keys)
    ensures NoNameAhead(Exec(cfg, run))
  {
    RunsKeepInv(cfg, run);
    NumberedMeansNoNameAhead(Exec(cfg, run));
  }

  /** Adding topics in one transition is a run of single steps. */
  lemma {:induction false} TopicsAddedInRun(cfg: Config, run: seq<Action>, added: seq<Addition>)
    returns (more: seq<Action>)
    requires AdditionsOk(cfg, Exec(cfg, run), added)
    ensures Exec(cfg, more) == TopicsAdded(Exec(cfg, run), added)
    ensures AddsTopics(cfg, run, more, NamesOf(added))
  {
    hide Exec, AddsTopics, CanAddTopic, TopicAdded, Step;
    if added == [] {
      more := run;
      assert AddsTopics(cfg, run, run, []) by { NoTopicsAdded(cfg, run); }
    } else {
      more := TopicsAddedInRun(cfg, run, added[..|added| - 1]);
      var last := added[|added| - 1];
      AddsTopicsSnoc(cfg, run, more, NamesOf(added[..|added| - 1]), last.t, last.picks);
      assert NamesOf(added) == NamesOf(added[..|added| - 1]) + [last.t];
      OneStep(cfg, more, AddTopic(last.t, last.picks));
      more := more + [AddTopic(last.t, last.picks)];
    }
  }

  lemma NoTopicsAdded(cfg: Config, run: seq<Action>)
    ensures AddsTopics(cfg, run, run, [])
  {
  }

  lemma SuitableIs(cfg: Config, ps: Peers, p: PeerId, q: PeerId, t: TopicId)
    requires DrawnTopicOf(ps, p, t)
    ensures Suitable(cfg, ps, p, q) <==> CanBefriend(cfg, ps, p, q, t)
  {
  }

  // ---- one method for each turn ----

  method AddPeers(s: Sim, amount: nat, built: nat, ghost run: seq<Action>) returns (ghost more: seq<Action>)
    requires Follows(s, run) && CanTake(Exec(s.cfg, run), AddPeersTurn(amount, built))
    modifies s, s.peers.Values
    ensures Follows(s, more) && Fits(s.cfg, AddPeersTurn(amount, built), run, more)
    ensures s.gauges == old(s.gauges)
    ensures EventsOf(s.topics) ==
      old(LogsAfter(s.cfg, Exec(s.cfg, run), AddPeersTurn(amount, built), EventsOf(s.topics)))
  {
    hide Fires, Exec, TopicsValid, EventsOf, Named, Views, Counts, FriendGraph, TopicsAgree, NoNameAhead,
      PeersAdded, NewPeers, Repeat;
    Reliance(s.cfg, run);
    s.Sizes();
    NewPeersFit(s.cfg, |s.peers|, amount, built);
    var added := s.AddPeerState(amount, built);
    PeersAddedInRun(s.cfg, run, added);
    more := run + Repeat(AddPeer, added);
  }

  method DropPeer(s: Sim, p: PeerId, ghost run: seq<Action>) returns (ghost more: seq<Action>)
    requires Follows(s, run) && CanTake(Exec(s.cfg, run), DropPeerTurn(p))
    modifies s, s.peers.Values
    ensures Follows(s, more) && Fits(s.cfg, DropPeerTurn(p), run, more)
    ensures s.gauges == old(s.gauges)
    ensures EventsOf(s.topics) == old(LogsAfter(s.cfg, Exec(s.cfg, run), DropPeerTurn(p), EventsOf(s.topics)))
  {
    hide Fires, Exec, TopicsValid, EventsOf, Named, Views, Counts, FriendGraph, TopicsAgree, NoNameAhead,
      PeerRemoved;
    Reliance(s.cfg, run);
    var ok := s.RemovePeerEnter();
    if ok {
      s.RemovePeerState(p);
      OneStep(s.cfg, run, RemovePeer(p));
      more := run + [RemovePeer(p)];
    } else {
      more := run;
      assert run + [] == run;
    }
  }

  method ReadyPeer(s: Sim, p: PeerId, ghost run: seq<Action>) returns (ghost more: seq<Action>)
    requires Follows(s, run) && CanTake(Exec(s.cfg, run), ReadyTurn(p))
    modifies s.peers.Values
    ensures Follows(s, more) && Fits(s.cfg, ReadyTurn(p), run, more)
    ensures EventsOf(s.topics) == old(LogsAfter(s.cfg, Exec(s.cfg, run), ReadyTurn(p), EventsOf(s.topics)))
  {
    hide Fires, Exec, TopicsValid, EventsOf, Named, Views, Counts;
    s.Sizes();
    s.PeerBecomesReady(p);
    OneStep(s.cfg, run, PeerReady(p));
    more := run + [PeerReady(p)];
  }

  method StoreAtPeer(s: Sim, p: PeerId, m: Message, ghost run: seq<Action>) returns (ghost more: seq<Action>)
    requires Follows(s, run) && CanTake(Exec(s.cfg, run), StoreTurn(p, m))
    modifies s.peers.Values
    ensures Follows(s, more) && Fits(s.cfg, StoreTurn(p, m), run, more)
    ensures EventsOf(s.topics) == old(LogsAfter(s.cfg, Exec(s.cfg, run), StoreTurn(p, m), EventsOf(s.topics)))
  {
    hide Fires, Exec, TopicsValid, EventsOf, Named, Views, Counts;
    s.Sizes();
    s.PeerStoresMsg(p, m);
    OneStep(s.cfg, run, StoreMsg(p, m));
    more := run + [StoreMsg(p, m)];
  }

  method AddTopics(s: Sim, names: seq<TopicId>, built: nat, ghost run: seq<Action>) returns (ghost more: seq<Action>)
    requires Follows(s, run) && CanTake(Exec(s.cfg, run), AddTopicsTurn(names, built))
    modifies s, s.peers.Values
    ensures Follows(s, more) && Fits(s.cfg, AddTopicsTurn(names, built), run, more)
    ensures s.gauges == old(s.gauges)
    ensures EventsOf(s.topics) ==
      old(LogsAfter(s.cfg, Exec(s.cfg, run), AddTopicsTurn(names, built), EventsOf(s.topics)))
  {
    hide Fires, Exec, TopicsValid, EventsOf, Named, Views, Counts, TopicsAdded, AdditionsOk, NewTopics, NamesOf,
      AddsTopics, CanAddTopics, WithNew;
    more := run;
    var ok := s.AddTopicEnter();
    if ok {
      ghost var added := s.AddTopicState(names, built);
      more := TopicsAddedInRun(s.cfg, run, added);
    }
  }

  lemma NoTopicToDrop(topics: TopicMap, t: TopicId)
    requires topics == map[]
    ensures EventsOf(topics) - {t} == EventsOf(topics)
  {
  }

  method DropTopic(s: Sim, t: TopicId, ghost run: seq<Action>) returns (ghost more: seq<Action>)
    requires Follows(s, run) && CanTake(Exec(s.cfg, run), DropTopicTurn(t))
    modifies s, s.peers.Values
    ensures Follows(s, more) && Fits(s.cfg, DropTopicTurn(t), run, more)
    ensures s.gauges == old(s.gauges)
    ensures EventsOf(s.topics) == old(LogsAfter(s.cfg, Exec(s.cfg, run), DropTopicTurn(t), EventsOf(s.topics)))
  {
    hide Fires, Exec, TopicsValid, EventsOf, Named, Views, Counts, FriendGraph, TopicsAgree, NoNameAhead,
      TopicRemoved;
    Reliance(s.cfg, run);
    var ok := s.RemoveTopicEnter();
    if ok {
      s.RemoveTopicState(t);
      OneStep(s.cfg, run, RemoveTopic(t));
      more := run + [RemoveTopic(t)];
    } else {
      more := run;
      assert run + [] == run;
      NoTopicToDrop(s.topics, t);
    }
  }

  method AddFriends(s: Sim, p: PeerId, q: PeerId, t: TopicId, now: int, ghost run: seq<Action>)
    returns (ghost more: seq<Action>)
    requires Follows(s, run) && CanTake(Exec(s.cfg, run), FriendTurn(p, q, t, now))
    modifies s.peers.Values
    ensures Follows(s, more) && Fits(s.cfg, FriendTurn(p, q, t, now), run, more)
    ensures EventsOf(s.topics) ==
      old(LogsAfter(s.cfg, Exec(s.cfg, run), FriendTurn(p, q, t, now), EventsOf(s.topics)))
  {
    hide Fires, Exec, TopicsValid, EventsOf, Named, Views, Counts, Befriended, Suitable, Drawn;
    SuitableIs(s.cfg, s.View().peers, p, q, t);
    var ok := s.AddRandomFriendEnter(p, q);
    if ok {
      s.AddRandomFriendState(p, q, t, now);
      assert TopicsValid(s.topics, s.window);
      OneStep(s.cfg, run, AddFriend(p, q, t, now));
      more := run + [AddFriend(p, q, t, now)];
    } else {
      more := run;
      assert run + [] == run;
    }
  }

  method CollectGarbage(s: Sim, ghost run: seq<Action>) returns (ghost more: seq<Action>)
    requires Follows(s, run) && CanTake(Exec(s.cfg, run), GCTurn)
    modifies s.peers.Values
    ensures Follows(s, more) && Fits(s.cfg, GCTurn, run, more)
    ensures EventsOf(s.topics) == old(LogsAfter(s.cfg, Exec(s.cfg, run), GCTurn, EventsOf(s.topics)))
  {
    hide Fires, Exec, TopicsValid, EventsOf, Named, Views, Counts, Collected;
    s.GCState();
    OneStep(s.cfg, run, GC);
    more := run + [GC];
  }

  method JoinAtRandom(s: Sim, p: PeerId, t: TopicId, now: int, ghost run: seq<Action>)
    returns (ghost more: seq<Action>)
    requires Follows(s, run) && CanTake(Exec(s.cfg, run), RandomJoinTurn(p, t, now))
    modifies s.peers.Values
    ensures Follows(s, more) && Fits(s.cfg, RandomJoinTurn(p, t, now), run, more)
    ensures EventsOf(s.topics) ==
      old(LogsAfter(s.cfg, Exec(s.cfg, run), RandomJoinTurn(p, t, now), EventsOf(s.topics)))
  {
    hide Fires, Exec, TopicsValid, EventsOf, Named, Views, Counts, Drawn;
    var ok := s.JoinRandomTopicEnter(p, t);
    if ok {
      s.JoinTopicState(p, t, now);
      assert TopicsValid(s.topics, s.window);
      OneStep(s.cfg, run, JoinRandom(p, t, now));
      more := run + [JoinRandom(p, t, now)];
    } else {
      more := run;
      assert run + [] == run;
    }
  }

  method FollowFriend(s: Sim, p: PeerId, friend: PeerId, t: TopicId, now: int, ghost run: seq<Action>)
    returns (ghost more: seq<Action>)
    requires Follows(s, run) && CanTake(Exec(s.cfg, run), FriendJoinTurn(p, friend, t, now))
    modifies s.peers.Values
    ensures Follows(s, more) && Fits(s.cfg, FriendJoinTurn(p, friend, t, now), run, more)
    ensures EventsOf(s.topics) ==
      old(LogsAfter(s.cfg, Exec(s.cfg, run), FriendJoinTurn(p, friend, t, now), EventsOf(s.topics)))
  {
    hide Fires, Exec, TopicsValid, EventsOf, Named, Views, Counts, FriendGraph, TopicsAgree, NoNameAhead, Drawn,
      DrawnFriend, DrawnTopicOf;
    Reliance(s.cfg, run);
    var ok := s.JoinFriendsTopicEnter(p, friend, t);
    if ok {
      s.JoinTopicState(p, t, now);
      assert TopicsValid(s.topics, s.window);
      OneStep(s.cfg, run, JoinFriends(p, friend, t, now));
      more := run + [JoinFriends(p, friend, t, now)];
    } else {
      more := run;
      assert run + [] == run;
    }
  }

  method PeakTopics(s: Sim, t: TopicId, ghost run: seq<Action>) returns (ghost more: seq<Action>)
    requires Follows(s, run) && CanTake(Exec(s.cfg, run), PeakTurn(t))
    modifies s.peers.Values
    ensures Follows(s, more) && Fits(s.cfg, PeakTurn(t), run, more)
    ensures EventsOf(s.topics) == old(LogsAfter(s.cfg, Exec(s.cfg, run), PeakTurn(t), EventsOf(s.topics)))
  {
    hide Fires, Exec, TopicsValid, EventsOf, Named, Views, Counts, AskPicks, MayPeak, DrawnTopic;
    more := run;
    var ok := s.PeakRandTopicEnter();
    if ok {
      ghost var asked := s.PeakRandTopicState(t);
      OneStep(s.cfg, run, PeakTopic(t, asked));
      more := run + [PeakTopic(t, asked)];
    }
  }

  /** Sending starts here; its messages, their log and their verification are turns of their own. */
  method SendMessages(s: Sim, p: PeerId, t: TopicId, ghost run: seq<Action>) returns (ghost more: seq<Action>)
    requires Follows(s, run) && CanTake(Exec(s.cfg, run), MsgTurn(p, t))
    ensures Follows(s, more) && Fits(s.cfg, MsgTurn(p, t), run, more)
    ensures EventsOf(s.topics) == old(LogsAfter(s.cfg, Exec(s.cfg, run), MsgTurn(p, t), EventsOf(s.topics)))
  {
    hide Fires, Exec, TopicsValid, EventsOf, Named, Views, Counts, FriendGraph, TopicsAgree, NoNameAhead, Drawn,
      DrawnTopicOf;
    Reliance(s.cfg, run);
    var ok := s.MsgRandomTopicEnter(p, t);
    more := run;
    assert run + [] == run;
  }

  method VerifyMessages(s: Sim, author: PeerId, t: TopicId, msgs: seq<Message>, sent: int, ghost run: seq<Action>)
    returns (ghost more: seq<Action>)
    requires Follows(s, run) && CanTake(Exec(s.cfg, run), VerifyTurn(author, t, msgs, sent))
    modifies s
    ensures Follows(s, more) && Fits(s.cfg, VerifyTurn(author, t, msgs, sent), run, more)
    ensures s.gauges == old(s.gauges)
    ensures EventsOf(s.topics) ==
      old(LogsAfter(s.cfg, Exec(s.cfg, run), VerifyTurn(author, t, msgs, sent), EventsOf(s.topics)))
  {
    hide Fires, Exec, TopicsValid, EventsOf, Named, Views, Counts, Verified;
    s.VerifyMsgsRecvState(author, t, msgs, sent);
    OneStep(s.cfg, run, VerifyMsgs(author, t, msgs, sent));
    more := run + [VerifyMsgs(author, t, msgs, sent)];
  }

  method Refresh(s: Sim, ghost run: seq<Action>) returns (ghost more: seq<Action>)
    requires Follows(s, run) && CanTake(Exec(s.cfg, run), RefreshTurn)
    modifies s
    ensures Follows(s, more) && Fits(s.cfg, RefreshTurn, run, more)
    ensures s.gauges == GaugesOf(Exec(s.cfg, run), old(s.gauges))
    ensures EventsOf(s.topics) == old(LogsAfter(s.cfg, Exec(s.cfg, run), RefreshTurn, EventsOf(s.topics)))
  {
    hide Fires, Exec, TopicsValid, EventsOf, Named, Views, Counts, FriendGraph, TopicsAgree, NoNameAhead;
    Reliance(s.cfg, run);
    s.RefreshMetricsState();
    more := run;
    assert run + [] == run;
  }

  method Count(s: Sim, t: TopicId, delta: int, now: int, ghost run: seq<Action>) returns (ghost more: seq<Action>)
    requires Follows(s, run) && CanTake(Exec(s.cfg, run), CountTurn(t, delta, now))
    modifies s.topics.Values
    ensures Follows(s, more) && Fits(s.cfg, CountTurn(t, delta, now), run, more)
    ensures EventsOf(s.topics) ==
      old(LogsAfter(s.cfg, Exec(s.cfg, run), CountTurn(t, delta, now), EventsOf(s.topics)))
  {
    hide Fires, Exec, TopicsValid, EventsOf, Named, Views, Counts, Noting;
    var found := s.TopicPeerChange(t, delta, now);
    if found {
      OneStep(s.cfg, run, CountChange(t, delta));
      more := run + [CountChange(t, delta)];
    } else {
      more := run;
      assert run + [] == run;
    }
  }

  method Log(s: Sim, t: TopicId, sentMsgs: int, now: int, ghost run: seq<Action>) returns (ghost more: seq<Action>)
    requires Follows(s, run) && CanTake(Exec(s.cfg, run), LogTurn(t, sentMsgs, now))
    modifies s.topics.Values
    ensures Follows(s, more) && Fits(s.cfg, LogTurn(t, sentMsgs, now), run, more)
    ensures EventsOf(s.topics) ==
      old(LogsAfter(s.cfg, Exec(s.cfg, run), LogTurn(t, sentMsgs, now), EventsOf(s.topics)))
  {
    hide Fires, Exec, TopicsValid, EventsOf, Named, Views, Counts, Noting;
    s.TopicMsgs(t, sentMsgs, now);
    more := run;
    assert run + [] == run;
  }

  /** Only a RefreshTurn touches the gauges. */
  ghost function GaugesAfter(w: World, turn: Turn, gauges: Gauges): Gauges {
    if turn.RefreshTurn? then GaugesOf(w, gauges) else gauges
  }

  /** The gauges show the world at the last RefreshTurn. */
  ghost function GaugesBy(cfg: Config, turns: seq<Turn>, runs: seq<seq<Action>>): Gauges
    requires |runs| == |turns| + 1
  {
    if turns == [] then NO_GAUGES
    else
      var n := |turns| - 1;
      GaugesAfter(Exec(cfg, runs[n]), turns[n], GaugesBy(cfg, turns[..n], runs[..n + 1]))
  }

  lemma GaugesSnoc(cfg: Config, turns: seq<Turn>, runs: seq<seq<Action>>, turn: Turn, more: seq<Action>)
    requires |runs| == |turns| + 1
    ensures GaugesBy(cfg, turns + [turn], runs + [more]) ==
      GaugesAfter(Exec(cfg, runs[|turns|]), turn, GaugesBy(cfg, turns, runs))
  {
    hide Exec, GaugesAfter;
    assert (turns + [turn])[..|turns|] == turns && (runs + [more])[..|turns| + 1] == runs;
  }

  lemma RefreshAlwaysComes(w: World, turn: Turn)
    ensures turn.RefreshTurn? ==> CanTake(w, turn)
  {
  }

  /** Any turn that can come continues the run as it must. */
  method Take(s: Sim, turn: Turn, ghost run: seq<Action>) returns (ghost more: seq<Action>)
    requires Follows(s, run) && CanTake(Exec(s.cfg, run), turn)
    modifies s, s.peers.Values, s.topics.Values
    ensures Follows(s, more) && Fits(s.cfg, turn, run, more)
    ensures s.gauges == GaugesAfter(Exec(s.cfg, run), turn, old(s.gauges))
    ensures EventsOf(s.topics) == old(LogsAfter(s.cfg, Exec(s.cfg, run), turn, EventsOf(s.topics)))
  {
    hide Follows, Fits, LogsAfter, CanTake, GaugesOf;
    match turn
    case AddPeersTurn(amount, built) => more := AddPeers(s, amount, built, run);
    case DropPeerTurn(p) => more := DropPeer(s, p, run);
    case ReadyTurn(p) => more := ReadyPeer(s, p, run);
    case StoreTurn(p, m) => more := StoreAtPeer(s, p, m, run);
    case AddTopicsTurn(names, built) => more := AddTopics(s, names, built, run);
    case DropTopicTurn(t) => more := DropTopic(s, t, run);
    case FriendTurn(p, q, t, now) => more := AddFriends(s, p, q, t, now, run);
    case GCTurn => more := CollectGarbage(s, run);
    case RandomJoinTurn(p, t, now) => more := JoinAtRandom(s, p, t, now, run);
    case FriendJoinTurn(p, friend, t, now) => more := FollowFriend(s, p, friend, t, now, run);
    case PeakTurn(t) => more := PeakTopics(s, t, run);
    case MsgTurn(p, t) => more := SendMessages(s, p, t, run);
    case VerifyTurn(author, t, msgs, sent) => more := VerifyMessages(s, author, t, msgs, sent, run);
    case RefreshTurn => more := Refresh(s, run);
    case CountTurn(t, delta, now) => more := Count(s, t, delta, now, run);
    case LogTurn(t, sentMsgs, now) => more := Log(s, t, sentMsgs, now, run);
  }

  /** Any turn; one that cannot come is passed over. */
  method Transition(s: Sim, turn: Turn, ghost run: seq<Action>) returns (ghost more: seq<Action>)
    requires Follows(s, run)
    modifies s, s.peers.Values, s.topics.Values
    ensures Follows(s, more) && NextRun(s.cfg, turn, run, more)
    ensures s.gauges == GaugesAfter(Exec(s.cfg, run), turn, old(s.gauges))
    ensures EventsOf(s.topics) == old(LogsNext(s.cfg, Exec(s.cfg, run), turn, EventsOf(s.topics)))
  {
    hide Fits, Exec, EventsOf, LogsAfter, CanTake;
    more := run;
    var can := s.CanCome(turn);
    if can {
      more := Take(s, turn, run);
    } else {
      RefreshAlwaysComes(s.View(), turn);
    }
  }

  /** What the turns alone say about the object they lead to. */
  ghost predicate Accounts(cfg: Config, w: World, turns: seq<Turn>, runs: seq<seq<Action>>)
    requires |runs| == |turns| + 1
  {
    && (CleanTurns(turns) ==> FriendsShare(w.peers))
    && |w.peers| + Drops(cfg, turns, runs) == w.nextPeerNum
    && (forall p :: p in w.peers ==> w.peers[p].msgs == Seqs.LastN(StoredBy(cfg, turns, runs, p), cfg.maxMsgs))
    && w.msgsRecv + w.msgsMiss == DueBy(cfg, turns, runs)
    && w.msgsRecv == PairsBy(cfg, turns, runs, true) && w.msgsMiss == PairsBy(cfg, turns, runs, false)
  }

  lemma HistoryAccounts(cfg: Config, turns: seq<Turn>, runs: seq<seq<Action>>)
    requires History(cfg, turns, runs)
    ensures Accounts(cfg, Exec(cfg, runs[|turns|]), turns, runs)
  {
    hide History, Exec, Drops, StoredBy, DueBy, PairsBy, CleanTurns, FriendsShare;
    HistoryShape(cfg, turns, runs);
    var run := runs[|turns|];
    var w := Exec(cfg, run);
    if CleanTurns(turns) { FriendsShareInHistory(cfg, turns, runs); }
    PeersAreCounted(cfg, run);
    RemovalsInHistory(cfg, turns, runs);
    forall p | p in w.peers ensures w.peers[p].msgs == Seqs.LastN(StoredBy(cfg, turns, runs, p), cfg.maxMsgs) {
      BuffersInRuns(cfg, run, p);
      StoredInHistory(cfg, turns, runs, p);
    }
    CountersInRuns(cfg, run);
    DueInHistory(cfg, turns, runs);
    EachCounterInRuns(cfg, run);
    PairsInHistory(cfg, turns, runs, true);
    PairsInHistory(cfg, turns, runs, false);
  }

  /** What the turns alone say about the object's topics. */
  ghost predicate TopicsAccount(s: Sim, turns: seq<Turn>, runs: seq<seq<Action>>)
    requires |runs| == |turns| + 1
    reads s, s.topics.Values
  {
    var logs: Logs := LogsBy(s.cfg, turns, runs);
    && s.topics.Keys == logs.Keys
    && forall t :: t in s.topics ==>
         && s.topics[t].events == logs[t]
         && s.topics[t].peersCount == Topics.Deltas(logs[t])
         && s.topics[t].msgsLog == Topics.Log(logs[t], s.window)
         && (MonotoneClock(turns) && logs[t] != [] ==>
              s.topics[t].msgsLog == Topics.Recent(Topics.History(logs[t]), logs[t][|logs[t]| - 1].at, s.window))
  }

  lemma TopicsAreAccounted(s: Sim, turns: seq<Turn>, runs: seq<seq<Action>>)
    requires |runs| == |turns| + 1 && TopicsValid(s.topics, s.window)
    requires EventsOf(s.topics) == LogsBy(s.cfg, turns, runs)
    ensures TopicsAccount(s, turns, runs)
  {
    hide LogsBy, MonotoneClock, Topics.Deltas, Topics.Log, Topics.Recent, Topics.History;
    var logs: Logs := LogsBy(s.cfg, turns, runs);
    assert s.topics.Keys == EventsOf(s.topics).Keys;
    forall t | t in s.topics && MonotoneClock(turns) && logs[t] != []
      ensures Topics.Log(logs[t], s.window) ==
        Topics.Recent(Topics.History(logs[t]), logs[t][|logs[t]| - 1].at, s.window)
    {
      LogsAreMonotone(s.cfg, turns, runs, t);
      Topics.WindowRefinesHistory(logs[t], s.window);
    }
  }

  /**
   Any sequence of turns from a new simulator on: the object follows the last of the runs, each of
   which continues the one before as its turn must; every action took effect; the object keeps all
   invariants; and the turns account for its friendships, peers, buffers, counters and topics.
   */
  method Simulate(cfg: Config, window: nat, peakMin: int, turns: seq<Turn>)
    returns (s: Sim, ghost runs: seq<seq<Action>>)
    requires window > 0
    ensures s.cfg == cfg && s.window == window && History(cfg, turns, runs) && Follows(s, runs[|turns|])
    ensures Fires(cfg, runs[|turns|], 0) && Inv(cfg, s.View()) && Numbered(s.View())
    ensures Accounts(cfg, s.View(), turns, runs) && TopicsAccount(s, turns, runs)
    ensures s.gauges == GaugesBy(cfg, turns, runs)
  {
    hide Exec, Inv, Numbered, NextRun, Accounts, Fires, EventsOf, LogsNext, TopicsAccount, GaugesAfter;
    s := Start(cfg, window, peakMin);
    runs := [[]];
    NoLogs(cfg, s.topics);
    for i := 0 to |turns|
      invariant fresh(s) && s.cfg == cfg && s.window == window && |runs| == i + 1
      invariant History(cfg, turns[..i], runs) && Follows(s, runs[i])
      invariant EventsOf(s.topics) == LogsBy(cfg, turns[..i], runs)
      invariant s.gauges == GaugesBy(cfg, turns[..i], runs)
    {
      ghost var more := Transition(s, turns[i], runs[i]);
      HistorySnoc(cfg, turns[..i], runs, turns[i], more);
      LogsSnoc(cfg, turns[..i], runs, turns[i], more);
      GaugesSnoc(cfg, turns[..i], runs, turns[i], more);
      assert turns[..i + 1] == turns[..i] + [turns[i]];
      runs := runs + [more];
    }
    assert turns[..|turns|] == turns;
    RunsKeepInv(cfg, runs[|turns|]);
    HistoryFires(cfg, turns, runs);
    HistoryAccounts(cfg, turns, runs);
    TopicsAreAccounted(s, turns, runs);
  }

  lemma NoLogs(cfg: Config, topics: TopicMap)
    requires topics == map[]
    ensures EventsOf(topics) == LogsBy(cfg, [], [[]])
  {
  }

  lemma LogsSnoc(cfg: Config, turns: seq<Turn>, runs: seq<seq<Action>>, turn: Turn, more: seq<Action>)
    requires |runs| == |turns| + 1
    ensures LogsBy(cfg, turns + [turn], runs + [more]) ==
      LogsNext(cfg, Exec(cfg, runs[|turns|]), turn, LogsBy(cfg, turns, runs))
  {
    hide Exec, LogsNext;
    assert (turns + [turn])[..|turns|] == turns && (runs + [more])[..|turns| + 1] == runs;
  }

  lemma HistorySnoc(cfg: Config, turns: seq<Turn>, runs: seq<seq<Action>>, turn: Turn, more: seq<Action>)
    requires History(cfg, turns, runs) && NextRun(cfg, turn, runs[|turns|], more)
    ensures History(cfg, turns + [turn], runs + [more])
  {
    hide NextRun;
  }
}
