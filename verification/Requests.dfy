/**
 What the peers' machines are asked. Every handler that lists a topic for a peer, or drops it from
 the list, asks the peer's machine for exactly that; only peaking asks without listing.
 */
module Requests {
  import opened Names
  import opened World
  import opened WorldRuns
  import Seqs

  /** The peer's list gains or loses at most one topic, and its machine is asked for just that. */
  ghost predicate InStep(a: PeerView, b: PeerView) {
    || (b.topics == a.topics && b.requests == a.requests)
    || (exists t :: t !in a.topics && b.topics == a.topics + [t] && b.requests == a.requests + [Join(t)])
    || (exists t :: Unlisted(a, b, t))
  }

  ghost predicate Unlisted(a: PeerView, b: PeerView, t: TopicId) {
    && t in a.topics && (forall u :: u in b.topics <==> u in a.topics && u != t)
    && b.requests == a.requests + [Leave(t)]
  }

  lemma StaysInStep(a: PeerView, b: PeerView)
    requires b.topics == a.topics && b.requests == a.requests
    ensures InStep(a, b)
  {
  }

  lemma ListsInStep(a: PeerView, t: TopicId, b: PeerView)
    requires t !in a.topics && b.topics == a.topics + [t] && b.requests == a.requests + [Join(t)]
    ensures InStep(a, b)
  {
  }

  lemma UnlistsInStep(a: PeerView, t: TopicId, b: PeerView)
    requires Unlisted(a, b, t)
    ensures InStep(a, b)
  {
  }

  // ---- what the single handlers ask ----

  /** A removed topic is left by exactly the peers that listed it: each is asked once more, to leave. */
  lemma RemovalAsksToLeave(w: World, t: TopicId, p: PeerId)
    requires p in w.peers
    ensures TopicRemoved(w, t).peers[p].requests ==
      w.peers[p].requests + if t in w.peers[p].topics then [Leave(t)] else []
  {
  }

  /** Peaking asks each peer as often as it was drawn, always to join, and lists nothing. */
  lemma {:induction false} PeakingAsks(ps: Peers, t: TopicId, asked: seq<PeerId>, p: PeerId)
    requires p in ps
    ensures p in AskPicks(ps, t, asked) && AskPicks(ps, t, asked)[p].topics == ps[p].topics
    ensures AskPicks(ps, t, asked)[p].requests == ps[p].requests + seq(multiset(asked)[p], i => Join(t))
  {
    if asked == [] {
      assert ps[p].requests + seq(0, i => Join(t)) == ps[p].requests;
    } else {
      var front, last := asked[..|asked| - 1], asked[|asked| - 1];
      PeakingAsks(ps, t, front, p);
      assert asked == front + [last];
      var n := multiset(front)[p];
      assert seq(n + 1, i => Join(t)) == seq(n, i => Join(t)) + [Join(t)];
    }
  }

  /** Every other handler asks for exactly what it lists. */
  lemma HandlersAskInStep(cfg: Config, w: World, a: Action, p: PeerId)
    requires Enabled(cfg, w, a) && !a.PeakTopic? && PeerName(w.nextPeerNum) !in w.peers
    requires p in w.peers && p in Effect(cfg, w, a).peers && NoDupTopics(w.peers[p])
    ensures InStep(w.peers[p], Effect(cfg, w, a).peers[p])
  {
    hide InStep, Unlisted, NoDupTopics;
    var v, v' := w.peers[p], Effect(cfg, w, a).peers[p];
    match a
    case AddTopic(t, picks) =>
      JoinPicksOnce(cfg, w.peers, t, picks);
      assert JoinedAtMostOnce(v, v', t);
      if v' == v { StaysInStep(v, v'); } else { ListsInStep(v, t, v'); }
    case RemoveTopic(t) =>
      if t in v.topics {
        LeavingUnlists(v, t);
        UnlistsInStep(v, t, v');
      } else {
        StaysInStep(v, v');
      }
    case AddFriend(_, _, _, _) => JoinersInStep(cfg, w, a, p);
    case JoinRandom(_, _, _) => JoinersInStep(cfg, w, a, p);
    case JoinFriends(_, _, _, _) => JoinersInStep(cfg, w, a, p);
    case _ => StaysInStep(v, v');
  }

  lemma JoinersInStep(cfg: Config, w: World, a: Action, p: PeerId)
    requires Enabled(cfg, w, a) && p in w.peers && (a.AddFriend? || a.JoinRandom? || a.JoinFriends?)
    ensures p in Effect(cfg, w, a).peers && InStep(w.peers[p], Effect(cfg, w, a).peers[p])
  {
    hide InStep;
    var v, v' := w.peers[p], Effect(cfg, w, a).peers[p];
    if v'.topics == v.topics { StaysInStep(v, v'); } else { ListsInStep(v, a.t, v'); }
  }

  ghost predicate NoDupTopics(v: PeerView) {
    forall i, j :: 0 <= i < j < |v.topics| ==> v.topics[i] != v.topics[j]
  }

  lemma LeavingUnlists(v: PeerView, t: TopicId)
    requires t in v.topics
    ensures Unlisted(v, v.Leaving(t), t)
  {
    Seqs.WithoutMembers(v.topics, t);
  }

  // ---- runs ----

  function RequestsOf(w: World, p: PeerId): seq<Request> {
    if p in w.peers then w.peers[p].requests else []
  }

  /** What was asked of p by the handlers that list topics, that is, by all but peaking. */
  function Listings(cfg: Config, run: seq<Action>, p: PeerId): seq<Request> {
    if run == [] then []
    else
      var front := run[..|run| - 1];
      var was, now := RequestsOf(Exec(cfg, front), p), RequestsOf(Exec(cfg, run), p);
      Listings(cfg, front, p) + if run[|run| - 1].PeakTopic? || |now| < |was| then [] else now[|was|..]
  }

  function About(rs: seq<Request>, t: TopicId): seq<Request> {
    if rs == [] then []
    else
      var front, last := About(rs[..|rs| - 1], t), rs[|rs| - 1];
      if last.topic == t then front + [last] else front
  }

  /** Join, leave, join, and so on. */
  predicate Alternates(rs: seq<Request>) {
    forall i :: 0 <= i < |rs| ==> (rs[i].Join? <==> i % 2 == 0)
  }

  /** Joins and leaves of t take turns, and t is listed exactly if the last one is a join. */
  ghost predicate Told(rs: seq<Request>, t: TopicId, listed: bool) {
    Alternates(About(rs, t)) && (listed <==> |About(rs, t)| % 2 == 1)
  }

  lemma AboutSnoc(rs: seq<Request>, r: Request, t: TopicId)
    ensures About(rs + [r], t) == About(rs, t) + if r.topic == t then [r] else []
  {
    assert (rs + [r])[..|rs|] == rs;
  }

  lemma StepKeepsTold(rs: seq<Request>, a: PeerView, b: PeerView, t: TopicId)
    requires Told(rs, t, t in a.topics) && InStep(a, b)
    ensures a.requests <= b.requests
    ensures Told(rs + b.requests[|a.requests|..], t, t in b.topics)
  {
    var news := b.requests[|a.requests|..];
    if b.topics == a.topics && b.requests == a.requests {
      assert rs + news == rs;
    } else if u :| u !in a.topics && b.topics == a.topics + [u] && b.requests == a.requests + [Join(u)] {
      assert news == [Join(u)];
      AboutSnoc(rs, Join(u), t);
    } else {
      var u :| Unlisted(a, b, u);
      assert news == [Leave(u)];
      AboutSnoc(rs, Leave(u), t);
    }
  }

  lemma NeverThere(cfg: Config, run: seq<Action>, p: PeerId)
    requires !UsedName(p, Exec(cfg, run).nextPeerNum)
    ensures p !in Exec(cfg, run).peers
  {
    RunsKeepInv(cfg, run);
  }

  lemma {:induction false} NothingAskedYet(cfg: Config, run: seq<Action>, p: PeerId)
    requires !UsedName(p, Exec(cfg, run).nextPeerNum)
    ensures Listings(cfg, run, p) == []
  {
    hide Step, UsedName;
    if run == [] {
    } else {
      var front, last := run[..|run| - 1], run[|run| - 1];
      if UsedName(p, Exec(cfg, front).nextPeerNum) { UsedStaysUsed(cfg, Exec(cfg, front), last, p); }
      NeverThere(cfg, run, p);
      NeverThere(cfg, front, p);
      NothingAskedYet(cfg, front, p);
    }
  }

  /**
   In every run what the listing handlers asked of a present peer about a topic is join, leave, join,
   and so on, one for each time it was listed or dropped; the last is a leave, or there is none,
   exactly if the topic is not listed.
   */
  lemma {:induction false} ListingsInRuns(cfg: Config, run: seq<Action>, p: PeerId, t: TopicId)
    requires p in Exec(cfg, run).peers
    ensures Told(Listings(cfg, run, p), t, t in Exec(cfg, run).peers[p].topics)
  {
    hide Effect, Enabled, InStep, Told, FriendGraph, Population, Buffers, Numbered;
    var front, last := run[..|run| - 1], run[|run| - 1];
    var w := Exec(cfg, front);
    RunsKeepInv(cfg, front);
    FreshName(w);
    if p !in w.peers {
      NewcomerListings(cfg, front, last, p, t);
    } else {
      ListingsInRuns(cfg, front, p, t);
      var rs := Listings(cfg, front, p);
      assert rs + [] == rs;
      if !Enabled(cfg, w, last) {
        assert w.peers[p].requests[|w.peers[p].requests|..] == [];
      } else if last.PeakTopic? {
        PeakingLists(cfg, w, last, p);
      } else {
        TopicsDiffer(w, p);
        HandlersAskInStep(cfg, w, last, p);
        StepKeepsTold(rs, w.peers[p], Effect(cfg, w, last).peers[p], t);
      }
    }
  }

  lemma TopicsDiffer(w: World, p: PeerId)
    requires TopicsAgree(w.peers, w.topics.Keys) && p in w.peers
    ensures NoDupTopics(w.peers[p])
  {
    assert TopicsOk(w.peers[p], w.topics.Keys);
  }

  lemma PeakingLists(cfg: Config, w: World, a: Action, p: PeerId)
    requires Enabled(cfg, w, a) && a.PeakTopic? && p in w.peers
    ensures p in Effect(cfg, w, a).peers && Effect(cfg, w, a).peers[p].topics == w.peers[p].topics
  {
    PeakingAsks(w.peers, a.t, a.asked, p);
  }

  lemma NewcomerListings(cfg: Config, front: seq<Action>, a: Action, p: PeerId, t: TopicId)
    requires p !in Exec(cfg, front).peers && p in Step(cfg, Exec(cfg, front), a).peers
    ensures Told(Listings(cfg, front + [a], p), t, t in Step(cfg, Exec(cfg, front), a).peers[p].topics)
  {
    hide Exec, PeerName, UsedName;
    var w := Exec(cfg, front);
    ExecSnoc(cfg, front, a);
    KeysAfter(cfg, w, a);
    assert a.AddPeer? && p == PeerName(w.nextPeerNum);
    RunsKeepInv(cfg, front);
    NextNameIsUnused(w.nextPeerNum);
    NothingAskedYet(cfg, front, p);
    assert (front + [a])[..|front|] == front;
  }
}
