/** What a history of turns brings to each topic while it lives. */
module TopicLogs {
  import opened World
  import opened Additions
  import opened Histories
  import Topics

  type Logs = map<TopicId, seq<Topics.Event>>

  /** New topics begin without events. */
  function WithNew(logs: Logs, names: seq<TopicId>): Logs {
    if names == [] then logs else WithNew(logs, names[..|names| - 1])[names[|names| - 1] := []]
  }

  lemma WithNewSnoc(logs: Logs, names: seq<TopicId>, t: TopicId)
    ensures WithNew(logs, []) == logs
    ensures WithNew(logs, names + [t]) == WithNew(logs, names)[t := []]
  {
    assert (names + [t])[..|names|] == names;
  }

  lemma {:induction false} WithNewHolds(logs: Logs, names: seq<TopicId>, t: TopicId)
    ensures t in WithNew(logs, names) <==> t in logs || t in names
    ensures t in WithNew(logs, names) ==> WithNew(logs, names)[t] == if t in names then [] else logs[t]
  {
    if names == [] {
    } else {
      var front, last := names[..|names| - 1], names[|names| - 1];
      WithNewHolds(logs, front, t);
      assert names == front + [last];
    }
  }

  function Noting(logs: Logs, t: TopicId, e: Topics.Event): Logs {
    if t in logs then logs[t := logs[t] + [e]] else logs
  }

  function LogsAfter(cfg: Config, w: World, turn: Turn, logs: Logs): Logs {
    match turn
    case AddTopicsTurn(names, built) =>
      if CanAddTopics(cfg, w) then WithNew(logs, NewTopics(w.topics.Keys, names, cfg.maxTopics, built)) else logs
    case DropTopicTurn(t) => logs - {t}
    case CountTurn(t, delta, now) => Noting(logs, t, Topics.PeerChange(now, delta))
    case LogTurn(t, sentMsgs, now) => Noting(logs, t, Topics.Msgs(now, sentMsgs))
    case _ => logs
  }

  function LogsNext(cfg: Config, w: World, turn: Turn, logs: Logs): Logs {
    if CanTake(w, turn) then LogsAfter(cfg, w, turn, logs) else logs
  }

  /** The events of each live topic since it was created. */
  function LogsBy(cfg: Config, turns: seq<Turn>, runs: seq<seq<Action>>): Logs
    requires |runs| == |turns| + 1
  {
    if turns == [] then map[]
    else
      var n := |turns| - 1;
      LogsNext(cfg, Exec(cfg, runs[n]), turns[n], LogsBy(cfg, turns[..n], runs[..n + 1]))
  }

  /** What a turn brings to a topic that stays: a delta or a message with its reading of the clock, or nothing. */
  lemma LogsOfSurvivors(cfg: Config, w: World, turn: Turn, logs: Logs, t: TopicId)
    requires t in logs && t in LogsNext(cfg, w, turn, logs) && logs.Keys == w.topics.Keys && CanTake(w, turn)
    ensures LogsNext(cfg, w, turn, logs)[t] == logs[t] +
      if turn.CountTurn? && turn.t == t then [Topics.PeerChange(turn.now, turn.delta)]
      else if turn.LogTurn? && turn.t == t then [Topics.Msgs(turn.now, turn.sentMsgs)]
      else []
  {
    if turn.AddTopicsTurn? {
      var names := NewTopics(w.topics.Keys, turn.names, cfg.maxTopics, turn.built);
      WithNewHolds(logs, names, t);
      OneMoreName(w.topics.Keys, turn.names, t, cfg.maxTopics, turn.built);
    }
  }

  predicate Timed(turn: Turn) {
    turn.CountTurn? || turn.LogTurn?
  }

  /** The clock that the topics read never goes back. */
  predicate MonotoneClock(turns: seq<Turn>) {
    forall i, j :: 0 <= i < j < |turns| && Timed(turns[i]) && Timed(turns[j]) ==> turns[i].now <= turns[j].now
  }

  ghost predicate TimedBy(e: Topics.Event, turns: seq<Turn>) {
    exists i :: 0 <= i < |turns| && Timed(turns[i]) && turns[i].now == e.at
  }

  lemma StillTimed(e: Topics.Event, turns: seq<Turn>)
    requires turns != [] && TimedBy(e, turns[..|turns| - 1])
    ensures TimedBy(e, turns)
    ensures MonotoneClock(turns) && Timed(turns[|turns| - 1]) ==> e.at <= turns[|turns| - 1].now
  {
    var front := turns[..|turns| - 1];
    var i :| 0 <= i < |front| && Timed(front[i]) && front[i].now == e.at;
    assert turns[i] == front[i];
  }

  lemma NotedInTime(events: seq<Topics.Event>, e: Topics.Event)
    requires Topics.Monotone(events) && forall x :: x in events ==> x.at <= e.at
    ensures Topics.Monotone(events + [e])
  {
  }

  /** With a monotone clock every topic sees its events in time order. */
  lemma {:induction false} LogsAreMonotone(cfg: Config, turns: seq<Turn>, runs: seq<seq<Action>>, t: TopicId)
    requires |runs| == |turns| + 1 && MonotoneClock(turns) && t in LogsBy(cfg, turns, runs)
    ensures Topics.Monotone(LogsBy(cfg, turns, runs)[t])
    ensures forall e :: e in LogsBy(cfg, turns, runs)[t] ==> TimedBy(e, turns)
  {
    hide Exec, NewTopics, CanAddTopics, CanTake, TimedBy, MonotoneClock, WithNew, Topics.Monotone;
    if turns == [] {
    } else {
      var n := |turns| - 1;
      var turn, w, front := turns[n], Exec(cfg, runs[n]), LogsBy(cfg, turns[..n], runs[..n + 1]);
      FrontClock(turns);
      if turn.AddTopicsTurn? {
        WithNewHolds(front, NewTopics(w.topics.Keys, turn.names, cfg.maxTopics, turn.built), t);
      }
      if t in front {
        LogsAreMonotone(cfg, turns[..n], runs[..n + 1], t);
        forall e | e in front[t] ensures TimedBy(e, turns) && (Timed(turn) ==> e.at <= turn.now) {
          StillTimed(e, turns);
        }
        if Timed(turn) {
          var e :=
            if turn.CountTurn? then Topics.PeerChange(turn.now, turn.delta)
            else Topics.Msgs(turn.now, turn.sentMsgs);
          NotedInTime(front[t], e);
          NowIsTimed(e, turns);
        }
      }
      NothingIsMonotone();
    }
  }

  lemma FrontClock(turns: seq<Turn>)
    requires turns != [] && MonotoneClock(turns)
    ensures MonotoneClock(turns[..|turns| - 1])
  {
  }

  lemma NowIsTimed(e: Topics.Event, turns: seq<Turn>)
    requires turns != [] && Timed(turns[|turns| - 1]) && turns[|turns| - 1].now == e.at
    ensures TimedBy(e, turns)
  {
  }

  lemma NothingIsMonotone()
    ensures Topics.Monotone([])
  {
  }
}
