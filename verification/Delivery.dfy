/** Message buffers and the delivery counters over every run. */
module Delivery {
  import opened Seqs
  import opened Names
  import opened World
  import opened WorldRuns

  // ---- buffers ----

  /** All messages the run stored for p, oldest first. */
  function StoredIn(cfg: Config, run: seq<Action>, p: PeerId): seq<Message> {
    if run == [] then []
    else
      var front, last := run[..|run| - 1], run[|run| - 1];
      var before := StoredIn(cfg, front, p);
      if last.StoreMsg? && last.p == p && Enabled(cfg, Exec(cfg, front), last) then before + [last.m] else before
  }

  lemma LastNStep<T>(s: seq<T>, x: T, n: nat)
    ensures LastN(LastN(s, n) + [x], n) == LastN(s + [x], n)
    ensures LastN(LastN(s, n), n) == LastN(s, n)
  {
  }

  ghost predicate Holds(cfg: Config, w: World, p: PeerId, stored: seq<Message>) {
    if p in w.peers then w.peers[p].msgs == LastN(stored, cfg.maxMsgs)
    else UsedName(p, w.nextPeerNum) || stored == []
  }

  /** Which peers are new or gone after a transition, as far as the buffers care. */
  lemma PresenceAfter(cfg: Config, w: World, a: Action, p: PeerId)
    requires Enabled(cfg, w, a)
    ensures p in Effect(cfg, w, a).peers ==> p in w.peers || (a.AddPeer? && p == PeerName(w.nextPeerNum))
    ensures Effect(cfg, w, a).nextPeerNum >= w.nextPeerNum
    ensures a.AddPeer? && PeerName(w.nextPeerNum) !in w.peers ==>
      Effect(cfg, w, a).peers[PeerName(w.nextPeerNum)].msgs == []
    ensures a.StoreMsg? ==> a.p in w.peers
  {
    KeysAfter(cfg, w, a);
  }

  lemma StepKeepsHolds(cfg: Config, w: World, a: Action, p: PeerId, stored: seq<Message>)
    requires Numbered(w) && Holds(cfg, w, p, stored) && Enabled(cfg, w, a)
    ensures Holds(cfg, Effect(cfg, w, a), p,
                  if a.StoreMsg? && a.p == p then stored + [a.m] else stored)
  {
    var w' := Effect(cfg, w, a);
    FreshName(w);
    PresenceAfter(cfg, w, a, p);
    if p in w.peers && p in w'.peers {
      BufferAfter(cfg, w, a, p);
      LastNStep(stored, if a.StoreMsg? then a.m else Message(""), cfg.maxMsgs);
    } else if p in w'.peers {
      UnusedName(w.nextPeerNum);
    }
  }

  lemma UnusedName(n: nat)
    ensures !UsedName(PeerName(n), n)
  {
    if UsedName(PeerName(n), n) {
      var m: nat :| m < n && PeerName(n) == PeerName(m);
      PeerNameInjective(n, m);
      assert false;
    }
  }

  /** A transition leaves a buffer alone unless it stores into it or trims it. */
  lemma BufferAfter(cfg: Config, w: World, a: Action, p: PeerId)
    requires Enabled(cfg, w, a) && p in w.peers && p in Effect(cfg, w, a).peers
    requires PeerName(w.nextPeerNum) !in w.peers
    ensures Effect(cfg, w, a).peers[p].msgs ==
      if a.StoreMsg? && a.p == p then LastN(w.peers[p].msgs + [a.m], cfg.maxMsgs)
      else if a.GC? then LastN(w.peers[p].msgs, cfg.maxMsgs)
      else w.peers[p].msgs
  {
    match a
    case AddTopic(t, picks) =>
      JoinPicksOnce(cfg, w.peers, t, picks);
      assert JoinedAtMostOnce(w.peers[p], JoinPicks(w.peers, t, picks)[p], t);
    case PeakTopic(t, asked) =>
      AskPicksOnlyAsks(w.peers, t, asked);
      assert AskPicks(w.peers, t, asked)[p].(requests := w.peers[p].requests) == w.peers[p];
    case _ =>
  }

  /** A peer's buffer is exactly the last maxMsgs of everything stored for it. */
  lemma {:induction false} BuffersInRuns(cfg: Config, run: seq<Action>, p: PeerId)
    ensures Holds(cfg, Exec(cfg, run), p, StoredIn(cfg, run, p))
  {
    hide Effect;
    if run == [] {
    } else {
      var front, last := run[..|run| - 1], run[|run| - 1];
      BuffersInRuns(cfg, front, p);
      RunsKeepInv(cfg, front);
      FreshName(Exec(cfg, front));
      if Enabled(cfg, Exec(cfg, front), last) {
        StepKeepsHolds(cfg, Exec(cfg, front), last, p, StoredIn(cfg, front, p));
      }
    }
  }

  /** The trimming in GCState never finds anything to trim. */
  lemma TrimmingIsIdleInRuns(cfg: Config, run: seq<Action>, p: PeerId)
    requires p in Exec(cfg, run).peers
    ensures |Exec(cfg, run).peers[p].msgs| <= cfg.maxMsgs
    ensures LastN(Exec(cfg, run).peers[p].msgs, cfg.maxMsgs) == Exec(cfg, run).peers[p].msgs
  {
    BuffersInRuns(cfg, run, p);
    LastNStep(StoredIn(cfg, run, p), Message(""), cfg.maxMsgs);
  }

  // ---- delivery counters ----

  /** Every (audience peer, message) pair is either received or missed, and never both. */
  lemma ReceivedAndMissed(ps: Peers, who: set<PeerId>, msgs: seq<Message>)
    requires who <= ps.Keys
    ensures |Received(ps, who, msgs)| + |Missed(ps, who, msgs)| == |who| * |msgs|
  {
    var all := set p, i | p in who && 0 <= i < |msgs| :: (p, i);
    assert Received(ps, who, msgs) + Missed(ps, who, msgs) == all;
    assert Received(ps, who, msgs) !! Missed(ps, who, msgs);
    Pairs(who, |msgs|);
  }

  lemma {:induction false} Pairs(who: set<PeerId>, n: nat)
    ensures |set p, i | p in who && 0 <= i < n :: (p, i)| == |who| * n
    decreases |who|
  {
    var all := set p, i | p in who && 0 <= i < n :: (p, i);
    if who == {} {
      assert all == {};
    } else {
      var p :| p in who;
      var others := who - {p};
      var rest := set q, i | q in others && 0 <= i < n :: (q, i);
      Pairs(others, n);
      Column(p, n);
      var column := set i | 0 <= i < n :: (p, i);
      assert all == rest + column && rest !! column;
      assert |who| == |others| + 1;
      OneRowMore(|others|, n);
    }
  }

  lemma OneRowMore(k: nat, n: nat)
    ensures (k + 1) * n == k * n + n
  {
  }

  lemma {:induction false} Column(p: PeerId, n: nat)
    ensures |set i | 0 <= i < n :: (p, i)| == n
  {
    if n == 0 {
    } else {
      Column(p, n - 1);
      assert (set i | 0 <= i < n :: (p, i)) == (set i | 0 <= i < n - 1 :: (p, i)) + {(p, n - 1)};
    }
  }

  /** What one transition adds to the counters together. */
  function DueNow(w: World, a: Action): nat {
    if a.VerifyMsgs? then |Audience(w.peers, a.author, a.t, a.sent)| * |a.msgs| else 0
  }

  function Due(cfg: Config, run: seq<Action>): nat {
    if run == [] then 0
    else Due(cfg, run[..|run| - 1]) + DueNow(Exec(cfg, run[..|run| - 1]), run[|run| - 1])
  }

  ghost predicate Counted(w: World, w': World, due: nat) {
    && w'.msgsRecv >= w.msgsRecv && w'.msgsMiss >= w.msgsMiss
    && w'.msgsRecv + w'.msgsMiss == w.msgsRecv + w.msgsMiss + due
  }

  lemma CountersAfter(cfg: Config, run: seq<Action>, a: Action)
    ensures Counted(Exec(cfg, run), Exec(cfg, run + [a]), DueNow(Exec(cfg, run), a))
  {
    var w := Exec(cfg, run);
    ExecSnoc(cfg, run, a);
    if a.VerifyMsgs? { ReceivedAndMissed(w.peers, Audience(w.peers, a.author, a.t, a.sent), a.msgs); }
  }

  /** Over a run the counters account for every message once per audience peer, verified so far. */
  lemma {:induction false} CountersInRuns(cfg: Config, run: seq<Action>)
    ensures Exec(cfg, run).msgsRecv + Exec(cfg, run).msgsMiss == Due(cfg, run)
  {
    hide Step;
    if run == [] {
    } else {
      CountersInRuns(cfg, run[..|run| - 1]);
      CountersAfter(cfg, run[..|run| - 1], run[|run| - 1]);
      assert run == run[..|run| - 1] + [run[|run| - 1]];
    }
  }

  /** Neither counter ever goes down. */
  lemma {:induction false} CountersGrow(cfg: Config, run: seq<Action>, more: seq<Action>)
    ensures Exec(cfg, run).msgsRecv <= Exec(cfg, run + more).msgsRecv
    ensures Exec(cfg, run).msgsMiss <= Exec(cfg, run + more).msgsMiss
    decreases |more|
  {
    hide Exec, DueNow;
    if more == [] {
      assert run + more == run;
    } else {
      var before, a := run + more[..|more| - 1], more[|more| - 1];
      CountersGrow(cfg, run, more[..|more| - 1]);
      CountersAfter(cfg, before, a);
      assert run + more == before + [a];
    }
  }

  // ---- each counter on its own ----

  /**
   The (peer, message) pairs of one verification: the peers that are ready, in the topic, not the
   author, and joined by the time of sending, with the messages that their buffers have, or lack.
   */
  ghost function VerifiedPairs(
    ps: Peers, author: PeerId, t: TopicId, msgs: seq<Message>, sent: int, present: bool): set<(PeerId, int)>
  {
    set p, i |
      && p in ps && 0 <= i < |msgs|
      && ps[p].ready && t in ps[p].topics && p != author
      && (t in ps[p].joined ==> ps[p].joined[t] <= sent)
      && (msgs[i] in ps[p].msgs <==> present) :: (p, i)
  }

  ghost function PairsNow(w: World, a: Action, present: bool): nat {
    if a.VerifyMsgs? then |VerifiedPairs(w.peers, a.author, a.t, a.msgs, a.sent, present)| else 0
  }

  /** All pairs present, or absent, over the verifications of a run. */
  ghost function PairsIn(cfg: Config, run: seq<Action>, present: bool): nat {
    if run == [] then 0
    else
      var front := run[..|run| - 1];
      PairsIn(cfg, front, present) + PairsNow(Exec(cfg, front), run[|run| - 1], present)
  }

  lemma VerifiedCounts(w: World, author: PeerId, t: TopicId, msgs: seq<Message>, sent: int)
    ensures var w' := Verified(w, author, t, msgs, sent);
      && w'.msgsRecv == w.msgsRecv + |VerifiedPairs(w.peers, author, t, msgs, sent, true)|
      && w'.msgsMiss == w.msgsMiss + |VerifiedPairs(w.peers, author, t, msgs, sent, false)|
  {
    var who := Audience(w.peers, author, t, sent);
    assert Received(w.peers, who, msgs) == VerifiedPairs(w.peers, author, t, msgs, sent, true);
    assert Missed(w.peers, who, msgs) == VerifiedPairs(w.peers, author, t, msgs, sent, false);
  }

  lemma EachCounterAfter(cfg: Config, run: seq<Action>, a: Action)
    ensures Exec(cfg, run + [a]).msgsRecv == Exec(cfg, run).msgsRecv + PairsNow(Exec(cfg, run), a, true)
    ensures Exec(cfg, run + [a]).msgsMiss == Exec(cfg, run).msgsMiss + PairsNow(Exec(cfg, run), a, false)
  {
    hide Exec, VerifiedPairs;
    if a.VerifyMsgs? {
      hide Verified;
      ExecSnoc(cfg, run, a);
      VerifiedCounts(Exec(cfg, run), a.author, a.t, a.msgs, a.sent);
    } else {
      CountersAfter(cfg, run, a);
    }
  }

  /** MsgsRecv counts exactly the pairs found, and MsgsMiss exactly those not found. */
  lemma {:induction false} EachCounterInRuns(cfg: Config, run: seq<Action>)
    ensures Exec(cfg, run).msgsRecv == PairsIn(cfg, run, true)
    ensures Exec(cfg, run).msgsMiss == PairsIn(cfg, run, false)
  {
    hide Step, PairsNow;
    if run == [] {
    } else {
      var front, last := run[..|run| - 1], run[|run| - 1];
      EachCounterInRuns(cfg, front);
      EachCounterAfter(cfg, front, last);
      assert run == front + [last];
    }
  }

  // ---- the buffers, spelled out ----

  lemma LastNIsLatest<T>(s: seq<T>, n: nat)
    ensures |LastN(s, n)| == if |s| <= n then |s| else n
    ensures forall i :: 0 <= i < |LastN(s, n)| ==> LastN(s, n)[i] == s[|s| - |LastN(s, n)| + i]
  {
  }

  /** Message by message a buffer holds the latest of what was stored for the peer. */
  lemma BuffersHoldTheLatest(cfg: Config, run: seq<Action>, p: PeerId)
    requires p in Exec(cfg, run).peers
    ensures var msgs, stored := Exec(cfg, run).peers[p].msgs, StoredIn(cfg, run, p);
      && |msgs| == (if |stored| <= cfg.maxMsgs then |stored| else cfg.maxMsgs)
      && forall i :: 0 <= i < |msgs| ==> msgs[i] == stored[|stored| - |msgs| + i]
  {
    hide LastN, StoredIn;
    BuffersInRuns(cfg, run, p);
    LastNIsLatest(StoredIn(cfg, run, p), cfg.maxMsgs);
  }
}
