/**
 What the simulator is asked to do, turn by turn, and which runs of the world that allows. A turn
 carries what the environment decides, creations that succeed, messages and deltas that arrive, and
 what is drawn at random; who is picked to populate a new topic, or asked while one peaks, shows in the
 actions.
 */
module Histories {
  import opened Names
  import opened World
  import opened WorldRuns
  import opened PopulationRuns
  import opened Friendships
  import opened Delivery
  import opened Additions

  // ---- guards ----

  predicate CanDropPeer(cfg: Config, w: World) {
    |w.peers| > cfg.initialPeers
  }

  predicate CanAddTopics(cfg: Config, w: World) {
    |w.topics| < cfg.maxTopics && RoomyPeers(cfg, w.peers) != {}
  }

  predicate MayPeak(cfg: Config, w: World) {
    |w.topics| >= 3 && |ReadyPeers(w.peers)| >= 2 * cfg.peakPeers
  }

  /** The two peers may become friends; the topic is drawn later. */
  predicate Suitable(cfg: Config, ps: Peers, p: PeerId, q: PeerId) {
    && IsReady(ps, p) && IsReady(ps, q) && p != q
    && q !in ps[p].friends && ps[p].topics != []
    && |ps[p].friends| < cfg.maxFriends && |ps[q].friends| < cfg.maxFriends
  }

  /** Another ready peer is in p's topic t. */
  predicate CanMsg(ps: Peers, p: PeerId, t: TopicId) {
    IsReady(ps, p) && t in ps[p].topics && exists q | q in ps :: q != p && ps[q].ready && t in ps[q].topics
  }

  // ---- turns ----

  /** What happens, with every random draw and every reading of the clock that matters. */
  datatype Turn =
    | AddPeersTurn(amount: nat, built: nat) | DropPeerTurn(p: PeerId)
    | ReadyTurn(p: PeerId) | StoreTurn(p: PeerId, m: Message)
    | AddTopicsTurn(names: seq<TopicId>, built: nat) | DropTopicTurn(t: TopicId)
    | FriendTurn(p: PeerId, q: PeerId, t: TopicId, now: int) | GCTurn
    | RandomJoinTurn(p: PeerId, t: TopicId, now: int)
    | FriendJoinTurn(p: PeerId, friend: PeerId, t: TopicId, now: int)
    | PeakTurn(t: TopicId) | MsgTurn(p: PeerId, t: TopicId)
    | VerifyTurn(author: PeerId, t: TopicId, msgs: seq<Message>, sent: int) | RefreshTurn
    | CountTurn(t: TopicId, delta: int, now: int) | LogTurn(t: TopicId, sentMsgs: int, now: int)

  /** t is a possible draw among the topics; any is when there are none. */
  predicate DrawnTopic(w: World, t: TopicId) {
    w.topics != map[] ==> t in w.topics
  }

  predicate DrawnTopicOf(ps: Peers, p: PeerId, t: TopicId) {
    p in ps && ps[p].topics != [] ==> t in ps[p].topics
  }

  predicate DrawnFriend(ps: Peers, p: PeerId, friend: PeerId) {
    p in ps && ps[p].friends != [] ==> friend in ps[p].friends
  }

  /**
   The turn can come: its draws are among those to draw from, peers connect and get messages while
   they are there, and no delta is zero.
   */
  predicate CanTake(w: World, turn: Turn) {
    match turn
    case DropPeerTurn(p) => w.peers != map[] ==> p in w.peers
    case ReadyTurn(p) => p in w.peers
    case StoreTurn(p, _) => p in w.peers
    case DropTopicTurn(t) => DrawnTopic(w, t)
    case FriendTurn(p, q, t, _) => Drawn(w.peers, p) && Drawn(w.peers, q) && DrawnTopicOf(w.peers, p, t)
    case RandomJoinTurn(p, t, _) => Drawn(w.peers, p) && DrawnTopic(w, t)
    case FriendJoinTurn(p, friend, t, _) =>
      Drawn(w.peers, p) && DrawnFriend(w.peers, p, friend) && DrawnTopicOf(w.peers, friend, t)
    case PeakTurn(t) => DrawnTopic(w, t)
    case MsgTurn(p, t) => Drawn(w.peers, p) && DrawnTopicOf(w.peers, p, t)
    case CountTurn(_, delta, _) => delta != 0
    case _ => true
  }

  /** The k-th action adds the topic t, and its guard allowed it. */
  ghost predicate AddsTopic(cfg: Config, run: seq<Action>, k: nat, t: TopicId)
    requires k < |run|
  {
    run[k].AddTopic? && run[k].t == t && Enabled(cfg, Exec(cfg, run[..k]), run[k])
  }

  /** more continues run by adding topics of these names, one after the other. */
  ghost predicate AddsTopics(cfg: Config, run: seq<Action>, more: seq<Action>, names: seq<TopicId>) {
    run <= more && |more| == |run| + |names| &&
    forall i :: 0 <= i < |names| ==> AddsTopic(cfg, more, |run| + i, names[i])
  }

  lemma AddsTopicsSnoc(
    cfg: Config, run: seq<Action>, more: seq<Action>, names: seq<TopicId>, t: TopicId, picks: seq<Pick>)
    requires AddsTopics(cfg, run, more, names) && Enabled(cfg, Exec(cfg, more), AddTopic(t, picks))
    ensures AddsTopics(cfg, run, more + [AddTopic(t, picks)], names + [t])
  {
    hide Exec, Enabled;
    var longer := more + [AddTopic(t, picks)];
    assert longer[..|more|] == more;
    forall i | 0 <= i <= |names| ensures AddsTopic(cfg, longer, |run| + i, (names + [t])[i]) {
      if i < |names| {
        assert AddsTopic(cfg, more, |run| + i, names[i]);
        assert longer[..|run| + i] == more[..|run| + i];
      }
    }
  }

  /** more continues run by peaking t, with whoever is asked. */
  ghost predicate Peaks(cfg: Config, run: seq<Action>, more: seq<Action>, t: TopicId) {
    && |more| == |run| + 1 && run <= more
    && more[|run|].PeakTopic? && more[|run|].t == t && Enabled(cfg, Exec(cfg, run), more[|run|])
  }

  function Repeat(a: Action, n: nat): seq<Action> {
    seq(n, i => a)
  }

  /** a if its guard holds. */
  function IfEnabled(cfg: Config, w: World, a: Action): seq<Action> {
    if Enabled(cfg, w, a) then [a] else []
  }

  /** How a turn continues the run: it acts if and only if its guard holds. */
  ghost predicate Fits(cfg: Config, turn: Turn, run: seq<Action>, more: seq<Action>) {
    var w := Exec(cfg, run);
    match turn
    case AddPeersTurn(amount, built) => more == run + Repeat(AddPeer, NewPeers(cfg, |w.peers|, amount, built))
    case AddTopicsTurn(names, built) =>
      if CanAddTopics(cfg, w) then AddsTopics(cfg, run, more, NewTopics(w.topics.Keys, names, cfg.maxTopics, built))
      else more == run
    case PeakTurn(t) => if MayPeak(cfg, w) then Peaks(cfg, run, more, t) else more == run
    case _ => more == run + Brought(cfg, w, turn)
  }

  /** What the turns that do at most one thing do. */
  function Brought(cfg: Config, w: World, turn: Turn): seq<Action> {
    match turn
    case DropPeerTurn(p) => IfEnabled(cfg, w, RemovePeer(p))
    case ReadyTurn(p) => IfEnabled(cfg, w, PeerReady(p))
    case StoreTurn(p, m) => IfEnabled(cfg, w, StoreMsg(p, m))
    case DropTopicTurn(t) => IfEnabled(cfg, w, RemoveTopic(t))
    case FriendTurn(p, q, t, now) => IfEnabled(cfg, w, AddFriend(p, q, t, now))
    case GCTurn => [GC]
    case RandomJoinTurn(p, t, now) => IfEnabled(cfg, w, JoinRandom(p, t, now))
    case FriendJoinTurn(p, friend, t, now) => IfEnabled(cfg, w, JoinFriends(p, friend, t, now))
    case VerifyTurn(author, t, msgs, sent) => [VerifyMsgs(author, t, msgs, sent)]
    case CountTurn(t, delta, _) => IfEnabled(cfg, w, CountChange(t, delta))
    case _ => []
  }

  ghost predicate NextRun(cfg: Config, turn: Turn, run: seq<Action>, more: seq<Action>) {
    if CanTake(Exec(cfg, run), turn) then Fits(cfg, turn, run, more) else more == run
  }

  /** runs[i] is the run so far before the i-th turn; the last one is the whole run. */
  ghost predicate History(cfg: Config, turns: seq<Turn>, runs: seq<seq<Action>>) {
    && |runs| == |turns| + 1 && runs[0] == []
    && forall i :: 0 <= i < |turns| ==> NextRun(cfg, turns[i], runs[i], runs[i + 1])
  }

  lemma HistoryShape(cfg: Config, turns: seq<Turn>, runs: seq<seq<Action>>)
    requires History(cfg, turns, runs)
    ensures |runs| == |turns| + 1 && runs[0] == []
  {
  }

  lemma HistoryFront(cfg: Config, turns: seq<Turn>, runs: seq<seq<Action>>)
    requires History(cfg, turns, runs) && turns != []
    ensures History(cfg, turns[..|turns| - 1], runs[..|turns|])
    ensures NextRun(cfg, turns[|turns| - 1], runs[|turns| - 1], runs[|turns|])
  {
  }

  // ---- every action of a history takes effect ----

  /** The run's actions from lo on were enabled when their turn came. */
  ghost predicate Fires(cfg: Config, run: seq<Action>, lo: nat) {
    forall k :: lo <= k < |run| ==> Enabled(cfg, Exec(cfg, run[..k]), run[k])
  }

  lemma OneStep(cfg: Config, run: seq<Action>, a: Action)
    requires Enabled(cfg, Exec(cfg, run), a)
    ensures Fires(cfg, run + [a], |run|)
    ensures Exec(cfg, run + [a]) == Step(cfg, Exec(cfg, run), a) == Effect(cfg, Exec(cfg, run), a)
  {
    ExecSnoc(cfg, run, a);
    assert (run + [a])[..|run|] == run;
  }

  lemma FiresOn(cfg: Config, run: seq<Action>, more: seq<Action>)
    requires Fires(cfg, run, 0) && run <= more && Fires(cfg, more, |run|)
    ensures Fires(cfg, more, 0)
  {
    hide Enabled, Exec;
    forall k | 0 <= k < |run| ensures Enabled(cfg, Exec(cfg, more[..k]), more[k]) {
      assert more[..k] == run[..k];
    }
  }

  /** Adding n peers in one transition is n steps of the model. */
  lemma {:induction false} PeersAddedInRun(cfg: Config, run: seq<Action>, n: nat)
    requires n > 0 ==> |Exec(cfg, run).peers| + n <= cfg.maxPeers
    ensures Exec(cfg, run + Repeat(AddPeer, n)) == PeersAdded(Exec(cfg, run), n)
    ensures |PeersAdded(Exec(cfg, run), n).peers| == |Exec(cfg, run).peers| + n
    ensures Fires(cfg, run + Repeat(AddPeer, n), |run|)
  {
    hide Exec, Step, Inv, Numbered, Fires;
    if n == 0 {
      assert run + Repeat(AddPeer, 0) == run;
      NothingFires(cfg, run);
    } else {
      PeersAddedInRun(cfg, run, n - 1);
      var front := run + Repeat(AddPeer, n - 1);
      assert run + Repeat(AddPeer, n) == front + [AddPeer];
      RunsKeepInv(cfg, front);
      OneStep(cfg, front, AddPeer);
      SizeAfter(cfg, Exec(cfg, front), AddPeer);
      OneMoreFires(cfg, front, AddPeer, |run|);
    }
  }

  lemma NothingFires(cfg: Config, run: seq<Action>)
    ensures Fires(cfg, run, |run|)
  {
  }

  lemma OneMoreFires(cfg: Config, run: seq<Action>, a: Action, lo: nat)
    requires Fires(cfg, run, lo) && Enabled(cfg, Exec(cfg, run), a)
    ensures Fires(cfg, run + [a], lo)
  {
    hide Enabled, Exec;
    var more := run + [a];
    forall k | lo <= k < |more| ensures Enabled(cfg, Exec(cfg, more[..k]), more[k]) {
      assert more[..k] == if k < |run| then run[..k] else run;
    }
  }

  lemma NewPeersFit(cfg: Config, size: nat, amount: nat, built: nat)
    ensures NewPeers(cfg, size, amount, built) > 0 ==> size + NewPeers(cfg, size, amount, built) <= cfg.maxPeers
  {
  }

  lemma TurnFires(cfg: Config, turn: Turn, run: seq<Action>, more: seq<Action>)
    requires NextRun(cfg, turn, run, more)
    ensures run <= more && Fires(cfg, more, |run|)
  {
    hide Exec, NewPeers, NewTopics, CanAddTopics, MayPeak, Repeat;
    if CanTake(Exec(cfg, run), turn) {
      match turn
      case AddPeersTurn(amount, built) =>
        NewPeersFit(cfg, |Exec(cfg, run).peers|, amount, built);
        PeersAddedInRun(cfg, run, NewPeers(cfg, |Exec(cfg, run).peers|, amount, built));
      case AddTopicsTurn(names, built) =>
        if CanAddTopics(cfg, Exec(cfg, run)) {
          AddedTopicsFire(cfg, run, more, NewTopics(Exec(cfg, run).topics.Keys, names, cfg.maxTopics, built));
        }
      case PeakTurn(t) =>
        if MayPeak(cfg, Exec(cfg, run)) {
          assert more == run + [more[|run|]];
          OneStep(cfg, run, more[|run|]);
        }
      case _ => BroughtFires(cfg, turn, run);
    }
  }

  lemma BroughtFires(cfg: Config, turn: Turn, run: seq<Action>)
    ensures Fires(cfg, run + Brought(cfg, Exec(cfg, run), turn), |run|)
  {
    hide Exec;
    var w := Exec(cfg, run);
    var news := Brought(cfg, w, turn);
    if news == [] {
      assert run + news == run;
    } else {
      assert news == [news[0]];
      OneStep(cfg, run, news[0]);
    }
  }

  lemma AddedTopicsFire(cfg: Config, run: seq<Action>, more: seq<Action>, names: seq<TopicId>)
    requires AddsTopics(cfg, run, more, names)
    ensures Fires(cfg, more, |run|) && forall k :: |run| <= k < |more| ==> more[k].AddTopic?
  {
    hide Exec, Enabled;
    forall k | |run| <= k < |more| ensures more[k].AddTopic? && Enabled(cfg, Exec(cfg, more[..k]), more[k]) {
      var i := k - |run|;
      assert AddsTopic(cfg, more, |run| + i, names[i]);
    }
  }

  /** No action of a history is one that its guard would have rejected. */
  lemma {:induction false} HistoryFires(cfg: Config, turns: seq<Turn>, runs: seq<seq<Action>>)
    requires History(cfg, turns, runs)
    ensures Fires(cfg, runs[|turns|], 0)
  {
    hide NextRun, Exec, Fires;
    if turns == [] {
      NothingFires(cfg, []);
    } else {
      var n := |turns| - 1;
      HistoryFront(cfg, turns, runs);
      HistoryFires(cfg, turns[..n], runs[..n + 1]);
      TurnFires(cfg, turns[n], runs[n], runs[n + 1]);
      FiresOn(cfg, runs[n], runs[n + 1]);
    }
  }

  // ---- what the turns alone say about a run ----

  /** The actions a turn can add. */
  predicate Brings(turn: Turn, a: Action) {
    match turn
    case AddPeersTurn(_, _) => a == AddPeer
    case DropPeerTurn(p) => a == RemovePeer(p)
    case ReadyTurn(p) => a == PeerReady(p)
    case StoreTurn(p, m) => a == StoreMsg(p, m)
    case AddTopicsTurn(_, _) => a.AddTopic?
    case DropTopicTurn(t) => a == RemoveTopic(t)
    case FriendTurn(p, q, t, now) => a == AddFriend(p, q, t, now)
    case GCTurn => a == GC
    case RandomJoinTurn(p, t, now) => a == JoinRandom(p, t, now)
    case FriendJoinTurn(p, friend, t, now) => a == JoinFriends(p, friend, t, now)
    case PeakTurn(t) => a.PeakTopic? && a.t == t
    case VerifyTurn(author, t, msgs, sent) => a == VerifyMsgs(author, t, msgs, sent)
    case CountTurn(t, delta, _) => a == CountChange(t, delta)
    case _ => false
  }

  ghost predicate Extends(turn: Turn, run: seq<Action>, more: seq<Action>) {
    run <= more && forall i :: |run| <= i < |more| ==> Brings(turn, more[i])
  }

  lemma NextRunExtends(cfg: Config, turn: Turn, run: seq<Action>, more: seq<Action>)
    requires NextRun(cfg, turn, run, more)
    ensures Extends(turn, run, more)
  {
    hide Exec, Enabled, NewPeers, NewTopics, CanAddTopics, MayPeak;
    if CanTake(Exec(cfg, run), turn) && turn.AddTopicsTurn? && CanAddTopics(cfg, Exec(cfg, run)) {
      AddedTopicsFire(cfg, run, more, NewTopics(Exec(cfg, run).topics.Keys, turn.names, cfg.maxTopics, turn.built));
    }
  }

  /** No DropTopicTurn since the start or the last GCTurn. */
  predicate CleanTurns(turns: seq<Turn>) {
    turns == [] || turns[|turns| - 1].GCTurn? ||
    (!turns[|turns| - 1].DropTopicTurn? && CleanTurns(turns[..|turns| - 1]))
  }

  lemma {:induction false} CleanStays(run: seq<Action>, more: seq<Action>)
    requires run <= more && CleanSinceGC(run) && forall i :: |run| <= i < |more| ==> !more[i].RemoveTopic?
    ensures CleanSinceGC(more)
  {
    if more == run {
    } else {
      CleanStays(run, more[..|more| - 1]);
    }
  }

  lemma {:induction false} CleanHistory(cfg: Config, turns: seq<Turn>, runs: seq<seq<Action>>)
    requires History(cfg, turns, runs) && CleanTurns(turns)
    ensures CleanSinceGC(runs[|turns|])
  {
    hide History, Fits, Exec;
    assert |runs| == |turns| + 1 && (turns == [] ==> runs[0] == []) by { HistoryShape(cfg, turns, runs); }
    if turns == [] {
    } else {
      var n := |turns| - 1;
      HistoryFront(cfg, turns, runs);
      NextRunExtends(cfg, turns[n], runs[n], runs[n + 1]);
      if turns[n].GCTurn? {
        GCTurnCollects(cfg, runs[n], runs[n + 1]);
      } else {
        CleanHistory(cfg, turns[..n], runs[..n + 1]);
        CleanStays(runs[n], runs[n + 1]);
      }
    }
  }

  lemma GCTurnCollects(cfg: Config, run: seq<Action>, more: seq<Action>)
    requires NextRun(cfg, GCTurn, run, more)
    ensures more == run + [GC] && CleanSinceGC(more)
  {
  }

  /** Without a topic dropped since the start or the last collection all friends share a topic. */
  lemma FriendsShareInHistory(cfg: Config, turns: seq<Turn>, runs: seq<seq<Action>>)
    requires History(cfg, turns, runs) && CleanTurns(turns)
    ensures FriendsShare(Exec(cfg, runs[|turns|]).peers)
  {
    CleanHistory(cfg, turns, runs);
    FriendsShareInCleanRuns(cfg, runs[|turns|]);
  }

  /** The turn drops a peer: it found more than the initial number. */
  predicate Dropped(cfg: Config, w: World, turn: Turn) {
    turn.DropPeerTurn? && CanDropPeer(cfg, w) && turn.p in w.peers
  }

  /** How many of the turns dropped a peer. */
  ghost function Drops(cfg: Config, turns: seq<Turn>, runs: seq<seq<Action>>): nat
    requires |runs| == |turns| + 1
  {
    if turns == [] then 0
    else
      var n := |turns| - 1;
      Drops(cfg, turns[..n], runs[..n + 1]) +
      if Dropped(cfg, Exec(cfg, runs[n]), turns[n]) then 1 else 0
  }

  lemma {:induction false} NoRemovals(cfg: Config, run: seq<Action>, more: seq<Action>)
    requires run <= more && forall i :: |run| <= i < |more| ==> !more[i].RemovePeer?
    ensures Removals(cfg, more) == Removals(cfg, run)
  {
    if more == run {
    } else {
      NoRemovals(cfg, run, more[..|more| - 1]);
    }
  }

  lemma RemovalsAfterTurn(cfg: Config, turn: Turn, run: seq<Action>, more: seq<Action>)
    requires NextRun(cfg, turn, run, more)
    ensures Removals(cfg, more) == Removals(cfg, run) +
      if Dropped(cfg, Exec(cfg, run), turn) then 1 else 0
  {
    hide Exec;
    NextRunExtends(cfg, turn, run, more);
    if Dropped(cfg, Exec(cfg, run), turn) {
      assert more == run + [RemovePeer(turn.p)] && more[..|run|] == run;
    } else {
      assert turn.DropPeerTurn? ==> more == run;
      NoRemovals(cfg, run, more);
    }
  }

  lemma {:induction false} RemovalsInHistory(cfg: Config, turns: seq<Turn>, runs: seq<seq<Action>>)
    requires History(cfg, turns, runs)
    ensures Removals(cfg, runs[|turns|]) == Drops(cfg, turns, runs)
  {
    hide NextRun;
    if turns == [] {
    } else {
      var n := |turns| - 1;
      HistoryFront(cfg, turns, runs);
      RemovalsInHistory(cfg, turns[..n], runs[..n + 1]);
      RemovalsAfterTurn(cfg, turns[n], runs[n], runs[n + 1]);
    }
  }

  /** The messages the turns brought to p while it was there, oldest first. */
  ghost function StoredBy(cfg: Config, turns: seq<Turn>, runs: seq<seq<Action>>, p: PeerId): seq<Message>
    requires |runs| == |turns| + 1
  {
    if turns == [] then []
    else
      var n := |turns| - 1;
      StoredBy(cfg, turns[..n], runs[..n + 1], p) +
      if turns[n].StoreTurn? && turns[n].p == p && p in Exec(cfg, runs[n]).peers then [turns[n].m] else []
  }

  lemma {:induction false} NothingStored(cfg: Config, run: seq<Action>, more: seq<Action>, p: PeerId)
    requires run <= more && forall i :: |run| <= i < |more| ==> !(more[i].StoreMsg? && more[i].p == p)
    ensures StoredIn(cfg, more, p) == StoredIn(cfg, run, p)
  {
    if more == run {
    } else {
      NothingStored(cfg, run, more[..|more| - 1], p);
    }
  }

  lemma StoredAfterTurn(cfg: Config, turn: Turn, run: seq<Action>, more: seq<Action>, p: PeerId)
    requires NextRun(cfg, turn, run, more)
    ensures StoredIn(cfg, more, p) == StoredIn(cfg, run, p) +
      if turn.StoreTurn? && turn.p == p && p in Exec(cfg, run).peers then [turn.m] else []
  {
    hide Exec;
    NextRunExtends(cfg, turn, run, more);
    if turn.StoreTurn? && turn.p == p && p in Exec(cfg, run).peers {
      assert more == run + [StoreMsg(p, turn.m)] && more[..|run|] == run;
    } else {
      assert turn.StoreTurn? && turn.p == p ==> more == run;
      NothingStored(cfg, run, more, p);
    }
  }

  lemma {:induction false} StoredInHistory(cfg: Config, turns: seq<Turn>, runs: seq<seq<Action>>, p: PeerId)
    requires History(cfg, turns, runs)
    ensures StoredIn(cfg, runs[|turns|], p) == StoredBy(cfg, turns, runs, p)
  {
    hide NextRun;
    if turns == [] {
    } else {
      var n := |turns| - 1;
      HistoryFront(cfg, turns, runs);
      StoredInHistory(cfg, turns[..n], runs[..n + 1], p);
      StoredAfterTurn(cfg, turns[n], runs[n], runs[n + 1], p);
    }
  }

  /** Messages times audience, over the turns that verified. */
  ghost function DueBy(cfg: Config, turns: seq<Turn>, runs: seq<seq<Action>>): nat
    requires |runs| == |turns| + 1
  {
    if turns == [] then 0
    else
      var n := |turns| - 1;
      DueBy(cfg, turns[..n], runs[..n + 1]) +
      if turns[n].VerifyTurn?
      then |Audience(Exec(cfg, runs[n]).peers, turns[n].author, turns[n].t, turns[n].sent)| * |turns[n].msgs|
      else 0
  }

  lemma {:induction false} NothingDue(cfg: Config, run: seq<Action>, more: seq<Action>)
    requires run <= more && forall i :: |run| <= i < |more| ==> !more[i].VerifyMsgs?
    ensures Due(cfg, more) == Due(cfg, run)
  {
    if more == run {
    } else {
      NothingDue(cfg, run, more[..|more| - 1]);
    }
  }

  lemma DueAfterTurn(cfg: Config, turn: Turn, run: seq<Action>, more: seq<Action>)
    requires NextRun(cfg, turn, run, more)
    ensures Due(cfg, more) == Due(cfg, run) +
      if turn.VerifyTurn? then |Audience(Exec(cfg, run).peers, turn.author, turn.t, turn.sent)| * |turn.msgs| else 0
  {
    hide Exec;
    NextRunExtends(cfg, turn, run, more);
    if turn.VerifyTurn? {
      assert more[..|run|] == run;
    } else {
      NothingDue(cfg, run, more);
    }
  }

  lemma {:induction false} DueInHistory(cfg: Config, turns: seq<Turn>, runs: seq<seq<Action>>)
    requires History(cfg, turns, runs)
    ensures Due(cfg, runs[|turns|]) == DueBy(cfg, turns, runs)
  {
    hide NextRun;
    if turns == [] {
    } else {
      var n := |turns| - 1;
      HistoryFront(cfg, turns, runs);
      DueInHistory(cfg, turns[..n], runs[..n + 1]);
      DueAfterTurn(cfg, turns[n], runs[n], runs[n + 1]);
    }
  }

  /** The pairs present, or absent, over the turns that verified. */
  ghost function PairsBy(cfg: Config, turns: seq<Turn>, runs: seq<seq<Action>>, present: bool): nat
    requires |runs| == |turns| + 1
  {
    if turns == [] then 0
    else
      var n := |turns| - 1;
      PairsBy(cfg, turns[..n], runs[..n + 1], present) + PairsOf(Exec(cfg, runs[n]), turns[n], present)
  }

  ghost function PairsOf(w: World, turn: Turn, present: bool): nat {
    if turn.VerifyTurn?
    then |VerifiedPairs(w.peers, turn.author, turn.t, turn.msgs, turn.sent, present)|
    else 0
  }

  lemma {:induction false} NoPairs(cfg: Config, run: seq<Action>, more: seq<Action>, present: bool)
    requires run <= more && forall i :: |run| <= i < |more| ==> !more[i].VerifyMsgs?
    ensures PairsIn(cfg, more, present) == PairsIn(cfg, run, present)
  {
    if more == run {
    } else {
      NoPairs(cfg, run, more[..|more| - 1], present);
    }
  }

  lemma PairsAfterTurn(cfg: Config, turn: Turn, run: seq<Action>, more: seq<Action>, present: bool)
    requires NextRun(cfg, turn, run, more)
    ensures PairsIn(cfg, more, present) == PairsIn(cfg, run, present) + PairsOf(Exec(cfg, run), turn, present)
  {
    hide Exec, VerifiedPairs;
    NextRunExtends(cfg, turn, run, more);
    if turn.VerifyTurn? {
      assert more[..|run|] == run;
    } else {
      NoPairs(cfg, run, more, present);
    }
  }

  /** What each of the two counters counts, by the turns. */
  lemma {:induction false} PairsInHistory(cfg: Config, turns: seq<Turn>, runs: seq<seq<Action>>, present: bool)
    requires History(cfg, turns, runs)
    ensures PairsIn(cfg, runs[|turns|], present) == PairsBy(cfg, turns, runs, present)
  {
    hide NextRun, PairsOf;
    if turns == [] {
    } else {
      var n := |turns| - 1;
      HistoryFront(cfg, turns, runs);
      PairsInHistory(cfg, turns[..n], runs[..n + 1], present);
      PairsAfterTurn(cfg, turns[n], runs[n], runs[n + 1], present);
    }
  }
}
