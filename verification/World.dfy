/**
 The simulator's shared world as a value, and every handler as one atomic step on it. A handler's
 Enter guard and State body run in the same transition, so a step is its guard and its effect;
 when the guard rejects, the transition is cancelled and the world stays as it was. Random picks
 and clock readings are arguments of the step.
 */
module World {
  import opened Seqs
  import opened Names

  datatype TopicId = TopicId(name: string)
  datatype Message = Message(text: string)

  const NO_TOPIC := TopicId("")

  /** The limits, kept symbolic. */
  datatype Config = Config(
    maxPeers: nat,
    maxTopics: nat,
    initialPeers: nat,
    initialPeersPerTopic: nat,
    maxTopicsPerPeer: nat,
    maxPeersPerTopic: int,
    maxFriends: nat,
    maxMsgs: nat,
    peakPeers: nat)

  /** What the simulator asks a peer's own machine to do. */
  datatype Request = Join(topic: TopicId) | Leave(topic: TopicId)

  /** A peer as the simulator sees it; requests lists all it was asked so far. */
  datatype PeerView = PeerView(
    ready: bool,
    topics: seq<TopicId>,
    joined: map<TopicId, int>,
    friends: seq<PeerId>,
    msgs: seq<Message>,
    requests: seq<Request>)
  {
    function Joining(t: TopicId, at: int): PeerView {
      this.(topics := topics + [t], joined := joined[t := at], requests := requests + [Join(t)])
    }

    function Leaving(t: TopicId): PeerView {
      this.(topics := Without(topics, t), joined := joined - {t}, requests := requests + [Leave(t)])
    }

    function Storing(m: Message, maxMsgs: nat): PeerView {
      this.(msgs := LastN(msgs + [m], maxMsgs))
    }
  }

  const FRESH_PEER := PeerView(false, [], map[], [], [], [])

  type Peers = map<PeerId, PeerView>

  /** topics maps a live topic to its peers counter. */
  datatype World = World(
    peers: Peers,
    topics: map<TopicId, int>,
    nextPeerNum: nat,
    msgsRecv: nat,
    msgsMiss: nat)

  const INIT := World(map[], map[], 0, 0, 0)

  /** A random peer picked to join a topic, and the time read for it. */
  datatype Pick = Pick(peer: PeerId, at: int)

  datatype Action =
    | AddPeer
    | RemovePeer(p: PeerId)
    | PeerReady(p: PeerId)
    | AddTopic(t: TopicId, picks: seq<Pick>)
    | RemoveTopic(t: TopicId)
    | AddFriend(p: PeerId, q: PeerId, t: TopicId, at: int)
    | GC
    | JoinRandom(p: PeerId, t: TopicId, at: int)
    | JoinFriends(p: PeerId, friend: PeerId, t: TopicId, at: int)
    | PeakTopic(t: TopicId, asked: seq<PeerId>)
    | StoreMsg(p: PeerId, m: Message)
    | VerifyMsgs(author: PeerId, t: TopicId, msgs: seq<Message>, sent: int)
    | CountChange(t: TopicId, amount: int)

  predicate IsReady(ps: Peers, p: PeerId) {
    p in ps && ps[p].ready
  }

  /** lo.Intersect of the two topic lists is not empty. */
  predicate Shares(a: PeerView, b: PeerView) {
    exists t | t in a.topics :: t in b.topics
  }

  /** The live peers p shares a topic with. */
  function SharingWith(ps: Peers, p: PeerId): set<PeerId>
    requires p in ps
  {
    set q | q in ps && Shares(ps[p], ps[q])
  }

  /** p is a possible draw among the ready peers; any is when there are none. */
  predicate Drawn(ps: Peers, p: PeerId) {
    ReadyPeers(ps) != {} ==> IsReady(ps, p)
  }

  function ReadyPeers(ps: Peers): set<PeerId> {
    set p | p in ps && ps[p].ready
  }

  /** Ready peers with room for one more topic. */
  function RoomyPeers(cfg: Config, ps: Peers): set<PeerId> {
    set p | p in ps && ps[p].ready && |ps[p].topics| < cfg.maxTopicsPerPeer
  }

  /** The picked peers join t one after the other; a peer already in t is passed over. */
  function JoinPicks(ps: Peers, t: TopicId, picks: seq<Pick>): Peers {
    if picks == [] then ps
    else
      var before := JoinPicks(ps, t, picks[..|picks| - 1]);
      var pick := picks[|picks| - 1];
      if pick.peer in before && t !in before[pick.peer].topics
      then before[pick.peer := before[pick.peer].Joining(t, pick.at)]
      else before
  }

  /** Each pick had room for one more topic when it was made. */
  predicate PicksRoomy(cfg: Config, ps: Peers, t: TopicId, picks: seq<Pick>) {
    forall i :: 0 <= i < |picks| ==> picks[i].peer in RoomyPeers(cfg, JoinPicks(ps, t, picks[..i]))
  }

  /** The rounds are used up, or nobody has room any more. */
  predicate PicksComplete(cfg: Config, ps: Peers, t: TopicId, picks: seq<Pick>) {
    |picks| < cfg.initialPeersPerTopic && |picks| < |ps| ==> RoomyPeers(cfg, JoinPicks(ps, t, picks)) == {}
  }

  /** Every picked peer is asked to join t; the simulator's own lists are not touched. */
  function AskPicks(ps: Peers, t: TopicId, asked: seq<PeerId>): Peers {
    if asked == [] then ps
    else
      var before := AskPicks(ps, t, asked[..|asked| - 1]);
      var p := asked[|asked| - 1];
      if p in before then before[p := before[p].(requests := before[p].requests + [Join(t)])] else before
  }

  /** p should have received the message: ready, in the topic, not its author, joined in time. */
  predicate Expected(v: PeerView, p: PeerId, author: PeerId, t: TopicId, sent: int) {
    v.ready && t in v.topics && p != author && (t in v.joined ==> v.joined[t] <= sent)
  }

  function Audience(ps: Peers, author: PeerId, t: TopicId, sent: int): set<PeerId> {
    set p | p in ps && Expected(ps[p], p, author, t, sent)
  }

  /** The (peer, message position) pairs found in the peers' buffers. */
  function Received(ps: Peers, who: set<PeerId>, msgs: seq<Message>): set<(PeerId, int)> {
    set p, i | p in who && p in ps && 0 <= i < |msgs| && msgs[i] in ps[p].msgs :: (p, i)
  }

  function Missed(ps: Peers, who: set<PeerId>, msgs: seq<Message>): set<(PeerId, int)> {
    set p, i | p in who && p in ps && 0 <= i < |msgs| && msgs[i] !in ps[p].msgs :: (p, i)
  }

  // ---- the guards, as the Enter handlers and loop conditions state them ----

  predicate CanAddTopic(cfg: Config, w: World, t: TopicId, picks: seq<Pick>) {
    && |w.topics| < cfg.maxTopics && t !in w.topics
    && |picks| <= cfg.initialPeersPerTopic && |picks| <= |w.peers|
    && PicksRoomy(cfg, w.peers, t, picks) && PicksComplete(cfg, w.peers, t, picks)
  }

  predicate CanBefriend(cfg: Config, ps: Peers, p: PeerId, q: PeerId, t: TopicId) {
    && IsReady(ps, p) && IsReady(ps, q) && p != q
    && q !in ps[p].friends
    && t in ps[p].topics
    && |ps[p].friends| < cfg.maxFriends && |ps[q].friends| < cfg.maxFriends
  }

  predicate CanJoinRandom(cfg: Config, w: World, p: PeerId, t: TopicId) {
    IsReady(w.peers, p) && t in w.topics && t !in w.peers[p].topics && w.topics[t] < cfg.maxPeersPerTopic
  }

  predicate CanJoinFriend(ps: Peers, p: PeerId, friend: PeerId, t: TopicId) {
    && IsReady(ps, p) && friend in ps[p].friends && friend in ps
    && t in ps[friend].topics && t !in ps[p].topics
  }

  predicate CanPeak(cfg: Config, w: World, t: TopicId, asked: seq<PeerId>) {
    && |w.topics| >= 3 && |ReadyPeers(w.peers)| >= 2 * cfg.peakPeers && t in w.topics
    && |asked| == (if w.topics[t] >= cfg.maxPeersPerTopic then 0 else cfg.peakPeers)
    && forall p :: p in asked ==> IsReady(w.peers, p)
  }

  predicate Enabled(cfg: Config, w: World, a: Action) {
    match a
    case AddPeer => |w.peers| < cfg.maxPeers
    case RemovePeer(p) => |w.peers| > cfg.initialPeers && p in w.peers
    case PeerReady(p) => p in w.peers
    case AddTopic(t, picks) => CanAddTopic(cfg, w, t, picks)
    case RemoveTopic(t) => t in w.topics
    case AddFriend(p, q, t, _) => CanBefriend(cfg, w.peers, p, q, t)
    case GC => true
    case JoinRandom(p, t, _) => CanJoinRandom(cfg, w, p, t)
    case JoinFriends(p, f, t, _) => CanJoinFriend(w.peers, p, f, t)
    case PeakTopic(t, asked) => CanPeak(cfg, w, t, asked)
    case StoreMsg(p, _) => p in w.peers
    case VerifyMsgs(_, _, _, _) => true
    case CountChange(t, _) => t in w.topics
  }

  function WithPeer(w: World, p: PeerId, v: PeerView): World {
    w.(peers := w.peers[p := v])
  }

  function PeerAdded(w: World): World {
    w.(peers := w.peers[PeerName(w.nextPeerNum) := FRESH_PEER], nextPeerNum := w.nextPeerNum + 1)
  }

  function PeersAdded(w: World, n: nat): World {
    if n == 0 then w else PeerAdded(PeersAdded(w, n - 1))
  }

  /** The peer is gone and no list mentions it any more. */
  function PeerRemoved(w: World, p: PeerId): World {
    w.(peers := map q | q in w.peers && q != p :: w.peers[q].(friends := Without(w.peers[q].friends, p)))
  }

  function TopicAdded(w: World, t: TopicId, picks: seq<Pick>): World {
    w.(peers := JoinPicks(w.peers, t, picks), topics := w.topics[t := 0])
  }

  datatype Addition = Addition(t: TopicId, picks: seq<Pick>)

  function TopicsAdded(w: World, added: seq<Addition>): World {
    if added == [] then w
    else
      var last := added[|added| - 1];
      TopicAdded(TopicsAdded(w, added[..|added| - 1]), last.t, last.picks)
  }

  /** The topic is gone and no peer lists it any more. */
  function TopicRemoved(w: World, t: TopicId): World {
    w.(peers := map q | q in w.peers :: if t in w.peers[q].topics then w.peers[q].Leaving(t) else w.peers[q],
       topics := w.topics - {t})
  }

  /** The edge between p and q, listed on both sides. */
  function Linked(w: World, p: PeerId, q: PeerId): World
    requires p in w.peers && q in w.peers && p != q
  {
    var ps := w.peers;
    w.(peers := ps[p := ps[p].(friends := ps[p].friends + [q])][q := ps[q].(friends := ps[q].friends + [p])])
  }

  /** An edge between p and q; q follows p into the topic t unless it is there already. */
  function Befriended(w: World, p: PeerId, q: PeerId, t: TopicId, at: int): World
    requires p in w.peers && q in w.peers && p != q
  {
    var l := Linked(w, p, q);
    if t in l.peers[q].topics then l else WithPeer(l, q, l.peers[q].Joining(t, at))
  }

  /** Exactly the friendships between peers that share a topic are left, in the order they had. */
  function Collected(cfg: Config, w: World): World {
    w.(peers := map p | p in w.peers :: w.peers[p].(
       friends := Keep(w.peers[p].friends, SharingWith(w.peers, p)),
       msgs := LastN(w.peers[p].msgs, cfg.maxMsgs)))
  }

  function Verified(w: World, author: PeerId, t: TopicId, msgs: seq<Message>, sent: int): World {
    var who := Audience(w.peers, author, t, sent);
    w.(msgsRecv := w.msgsRecv + |Received(w.peers, who, msgs)|,
       msgsMiss := w.msgsMiss + |Missed(w.peers, who, msgs)|)
  }

  function Effect(cfg: Config, w: World, a: Action): World
    requires Enabled(cfg, w, a)
  {
    match a
    case AddPeer => PeerAdded(w)
    case RemovePeer(p) => PeerRemoved(w, p)
    case PeerReady(p) => WithPeer(w, p, w.peers[p].(ready := true))
    case AddTopic(t, picks) => TopicAdded(w, t, picks)
    case RemoveTopic(t) => TopicRemoved(w, t)
    case AddFriend(p, q, t, at) => Befriended(w, p, q, t, at)
    case GC => Collected(cfg, w)
    case JoinRandom(p, t, at) => WithPeer(w, p, w.peers[p].Joining(t, at))
    case JoinFriends(p, _, t, at) => WithPeer(w, p, w.peers[p].Joining(t, at))
    case PeakTopic(t, asked) => w.(peers := AskPicks(w.peers, t, asked))
    case StoreMsg(p, m) => WithPeer(w, p, w.peers[p].Storing(m, cfg.maxMsgs))
    case VerifyMsgs(author, t, msgs, sent) => Verified(w, author, t, msgs, sent)
    case CountChange(t, amount) => w.(topics := w.topics[t := w.topics[t] + amount])
  }

  /** One transition: a rejected guard cancels it. */
  function Step(cfg: Config, w: World, a: Action): World {
    if Enabled(cfg, w, a) then Effect(cfg, w, a) else w
  }

  /** The world after a run of transitions from the empty simulator. */
  function Exec(cfg: Config, run: seq<Action>): World {
    if run == [] then INIT else Step(cfg, Exec(cfg, run[..|run| - 1]), run[|run| - 1])
  }
}
