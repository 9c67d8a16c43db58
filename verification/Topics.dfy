/**
 A simulated topic: its sliding window of message logs, and the state machine that turns its
 indexes into semantic states.
 */
module Topics {
  import opened World

  // ---- the sliding window ----

  datatype LogEntry = LogEntry(time: int, amount: int)

  /** The entries younger than window at the time now. */
  function Recent(log: seq<LogEntry>, now: int, window: int): seq<LogEntry> {
    if log == [] then []
    else
      var front, last := Recent(log[..|log| - 1], now, window), log[|log| - 1];
      if now - last.time < window then front + [last] else front
  }

  /** What reaches a topic; every event re-indexes it, a message event logs an entry first. */
  datatype Event = PeerChange(at: int, delta: int) | Msgs(at: int, amount: int)

  /** All the entries ever logged, never pruned. */
  function History(events: seq<Event>): seq<LogEntry> {
    if events == [] then []
    else
      var front, last := History(events[..|events| - 1]), events[|events| - 1];
      if last.Msgs? then front + [LogEntry(last.at, last.amount)] else front
  }

  /** The pruned log the topic really holds. */
  function Log(events: seq<Event>, window: int): seq<LogEntry> {
    if events == [] then []
    else
      var front, last := Log(events[..|events| - 1], window), events[|events| - 1];
      Recent(if last.Msgs? then front + [LogEntry(last.at, last.amount)] else front, last.at, window)
  }

  /** The sum of all changes to the number of peers. */
  function Deltas(events: seq<Event>): int {
    if events == [] then 0
    else Deltas(events[..|events| - 1]) + if events[|events| - 1].PeerChange? then events[|events| - 1].delta else 0
  }

  predicate Monotone(events: seq<Event>) {
    forall i, j :: 0 <= i < j < |events| ==> events[i].at <= events[j].at
  }

  /** The history has an entry for each message event, with its time and amount, and no other. */
  lemma {:induction false} HistoryEntries(events: seq<Event>, x: LogEntry)
    ensures x in History(events) <==> Msgs(x.time, x.amount) in events
  {
    if events == [] {
    } else {
      var front, last := events[..|events| - 1], events[|events| - 1];
      HistoryEntries(front, x);
      assert events == front + [last];
    }
  }

  /** Nothing sent is lost from the history: the amounts add up. */
  lemma {:induction false} HistoryAmounts(events: seq<Event>)
    ensures Amounts(History(events)) == SentIn(events)
  {
    if events == [] {
    } else {
      var front, last := events[..|events| - 1], events[|events| - 1];
      HistoryAmounts(front);
      assert last.Msgs? ==> History(events)[..|History(events)| - 1] == History(front);
    }
  }

  function Amounts(log: seq<LogEntry>): int {
    if log == [] then 0 else Amounts(log[..|log| - 1]) + log[|log| - 1].amount
  }

  function SentIn(events: seq<Event>): int {
    if events == [] then 0
    else SentIn(events[..|events| - 1]) + if events[|events| - 1].Msgs? then events[|events| - 1].amount else 0
  }

  lemma RecentSnoc(log: seq<LogEntry>, e: LogEntry, now: int, window: int)
    ensures Recent(log + [e], now, window) ==
      Recent(log, now, window) + if now - e.time < window then [e] else []
  {
    assert (log + [e])[..|log|] == log;
  }

  /** Pruning twice is pruning once, at the later time. */
  lemma {:induction false} PruneTwice(log: seq<LogEntry>, t1: int, t2: int, window: int)
    ensures Recent(Recent(log, t1, window), t2, window) == Recent(log, if t1 <= t2 then t2 else t1, window)
  {
    if log == [] {
    } else {
      var front, last := log[..|log| - 1], log[|log| - 1];
      PruneTwice(front, t1, t2, window);
      RecentSnoc(Recent(front, t1, window), last, t2, window);
    }
  }

  /** Pruning a log in time order only drops a prefix. */
  lemma {:induction false} PruneDropsPrefix(log: seq<LogEntry>, now: int, window: int) returns (k: nat)
    requires forall i, j :: 0 <= i < j < |log| ==> log[i].time <= log[j].time
    ensures k <= |log| && Recent(log, now, window) == log[k..]
    ensures forall i :: 0 <= i < |log| ==> (k <= i <==> now - log[i].time < window)
  {
    if log == [] {
      k := 0;
    } else {
      var front, last := log[..|log| - 1], log[|log| - 1];
      k := PruneDropsPrefix(front, now, window);
      if now - last.time < window {
        assert log[k..] == front[k..] + [last];
      } else {
        forall i | 0 <= i < |front| ensures now - front[i].time >= window {
          assert log[i].time <= log[|log| - 1].time;
        }
        k := |log|;
      }
    }
  }

  /** The pruned log is the full history seen through the window at the last re-index. */
  lemma {:induction false} WindowRefinesHistory(events: seq<Event>, window: int)
    requires Monotone(events) && events != []
    ensures Log(events, window) == Recent(History(events), events[|events| - 1].at, window)
  {
    var front, last := events[..|events| - 1], events[|events| - 1];
    var kept, all := Log(front, window), History(front);
    if front == [] {
    } else {
      WindowRefinesHistory(front, window);
      PruneTwice(all, front[|front| - 1].at, last.at, window);
    }
    assert Recent(kept, last.at, window) == Recent(all, last.at, window);
    if last.Msgs? {
      RecentSnoc(kept, LogEntry(last.at, last.amount), last.at, window);
      RecentSnoc(all, LogEntry(last.at, last.amount), last.at, window);
    }
  }

  // ---- the state machine ----

  datatype TopicState = Stale | HasPeers | Active | Peaking

  function RemoveRelation(s: TopicState): set<TopicState> {
    if s == Active || s == Peaking then {Stale} else {}
  }

  function RequireRelation(s: TopicState): set<TopicState> {
    if s == Peaking then {HasPeers} else {}
  }

  predicate AutoState(s: TopicState) {
    s == Stale
  }

  /** States whose requirements are not active are dropped; no requirement has one of its own. */
  function Supported(active: set<TopicState>): set<TopicState> {
    set s | s in active && RequireRelation(s) <= active
  }

  /** Auto states join unless an active state removes them. */
  function WithAuto(active: set<TopicState>): set<TopicState> {
    active + set s: TopicState |
      AutoState(s) && RequireRelation(s) <= active && forall x :: x in active ==> s !in RemoveRelation(x)
  }

  datatype Mutation = Add(s: TopicState) | Remove(s: TopicState)

  /** The assumed resolver. A mutation that changes nothing may be skipped or run in full. */
  function Mutate(active: set<TopicState>, m: Mutation, skip: bool): set<TopicState> {
    match m
    case Add(s) =>
      var target := Supported(active - RemoveRelation(s) + {s});
      if (skip && s in active) || s !in target then active else WithAuto(target)
    case Remove(s) =>
      if skip && s !in active then active else WithAuto(Supported(active - {s}))
  }

  /** The mutations of one re-index, in the order of the code. */
  function IndexMutations(count: int, busy: bool, peakMin: int): seq<Mutation> {
    [if count == 0 then Remove(HasPeers) else Add(HasPeers),
     if count >= peakMin then Add(Peaking) else Remove(Peaking),
     if busy then Add(Active) else Remove(Active)]
  }

  function Indexed(active: set<TopicState>, ms: seq<Mutation>, skip: seq<bool>): set<TopicState>
    requires |ms| == 3 && |skip| == 3
  {
    Mutate(Mutate(Mutate(active, ms[0], skip[0]), ms[1], skip[1]), ms[2], skip[2])
  }

  /** The active states are a function of the indexes. */
  ghost predicate Determined(active: set<TopicState>, count: int, busy: bool, peakMin: int) {
    && (HasPeers in active <==> count != 0)
    && (Peaking in active <==> count >= peakMin && count != 0)
    && (Active in active <==> busy)
    && (Stale in active <==> Active !in active && Peaking !in active)
  }

  /** Before its first event a topic has no active states at all; later Stale is always decided. */
  ghost predicate Settled(active: set<TopicState>) {
    && (Stale in active <==> Active !in active && Peaking !in active)
    && (Peaking in active ==> HasPeers in active)
  }

  /**
   A re-index leaves exactly the states its indexes call for, whatever an earlier one left, or from no
   states at all if an index is not zero.
   */
  lemma IndexDetermines(active: set<TopicState>, count: int, busy: bool, peakMin: int, skip: seq<bool>)
    requires |skip| == 3
    requires Settled(active) || (active == {} && (count != 0 || busy))
    ensures Determined(Indexed(active, IndexMutations(count, busy, peakMin), skip), count, busy, peakMin)
    ensures Settled(Indexed(active, IndexMutations(count, busy, peakMin), skip))
  {
  }

  // ---- the topic object ----

  class Topic {
    /** The simulator that made it. */
    const sim: object
    const id: TopicId
    const window: int
    const peakMin: int
    var peersCount: int
    var msgsLog: seq<LogEntry>
    var active: set<TopicState>
    ghost var events: seq<Event>

    /** The log is the pruned history of the events, the counter their sum, and the states fit both. */
    ghost predicate Valid()
      reads this
    {
      && msgsLog == Log(events, window) && peersCount == Deltas(events)
      && (if events == [] then active == {}
          else Settled(active) && Determined(active, peersCount, msgsLog != [], peakMin))
    }

    constructor (sim: object, id: TopicId, window: int, peakMin: int)
      ensures Valid() && this.sim == sim && this.id == id && this.window == window && this.peakMin == peakMin
      ensures peersCount == 0 && events == []
    {
      this.sim, this.id, this.window, this.peakMin := sim, id, window, peakMin;
      peersCount, msgsLog, active, events := 0, [], {}, [];
    }

    /** One state mutation; whether a mutation without effect is skipped is left open. */
    method Mutation(m: Mutation) returns (skip: bool)
      modifies this`active
      ensures active == Mutate(old(active), m, skip)
    {
      skip := *;
      active := Mutate(active, m, skip);
    }

    method DisposeOldMsgs(now: int)
      modifies this`msgsLog
      ensures msgsLog == Recent(old(msgsLog), now, window)
    {
      var msgs: seq<LogEntry> := [];
      for i := 0 to |msgsLog|
        invariant msgsLog == old(msgsLog) && msgs == Recent(msgsLog[..i], now, window)
      {
        assert msgsLog[..i + 1] == msgsLog[..i] + [msgsLog[i]];
        RecentSnoc(msgsLog[..i], msgsLog[i], now, window);
        if now - msgsLog[i].time < window {
          msgs := msgs + [msgsLog[i]];
        }
      }
      assert msgsLog[..|msgsLog|] == msgsLog;
      msgsLog := msgs;
    }

    method IndexesToStates(now: int)
      requires Settled(active) || (active == {} && (peersCount != 0 || Recent(msgsLog, now, window) != []))
      modifies this`msgsLog, this`active
      ensures msgsLog == Recent(old(msgsLog), now, window)
      ensures Settled(active) && Determined(active, peersCount, msgsLog != [], peakMin)
      ensures (HasPeers in active <==> peersCount != 0) && (Active in active <==> |msgsLog| > 0)
      ensures Peaking in active <==> peersCount >= peakMin && peersCount != 0
    {
      ghost var before := active;
      var skip0, skip1, skip2: bool;
      if peersCount == 0 {
        skip0 := Mutation(Remove(HasPeers));
      } else {
        skip0 := Mutation(Add(HasPeers));
      }
      if peersCount >= peakMin {
        skip1 := Mutation(Add(Peaking));
      } else {
        skip1 := Mutation(Remove(Peaking));
      }
      DisposeOldMsgs(now);
      if |msgsLog| == 0 {
        skip2 := Mutation(Remove(Active));
      } else {
        skip2 := Mutation(Add(Active));
      }
      assert active == Indexed(before, IndexMutations(peersCount, msgsLog != [], peakMin), [skip0, skip1, skip2]);
      IndexDetermines(before, peersCount, msgsLog != [], peakMin, [skip0, skip1, skip2]);
    }

    /** The topic's part of topicPeerChange: deltas are never zero. */
    method ChangePeers(delta: int, now: int)
      requires Valid() && delta != 0
      modifies this
      ensures Valid() && events == old(events) + [PeerChange(now, delta)]
      ensures peersCount == old(peersCount) + delta
    {
      assert (events + [PeerChange(now, delta)])[..|events|] == events;
      peersCount := peersCount + delta;
      events := events + [PeerChange(now, delta)];
      IndexesToStates(now);
    }

    /** The topic's part of topicMsgs. */
    method LogMsgs(amount: int, now: int)
      requires Valid() && window > 0
      modifies this
      ensures Valid() && events == old(events) + [Msgs(now, amount)]
      ensures peersCount == old(peersCount)
    {
      assert (events + [Msgs(now, amount)])[..|events|] == events;
      RecentSnoc(msgsLog, LogEntry(now, amount), now, window);
      msgsLog := msgsLog + [LogEntry(now, amount)];
      events := events + [Msgs(now, amount)];
      IndexesToStates(now);
    }
  }
}
