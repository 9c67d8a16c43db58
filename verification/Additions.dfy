/** What the loops of AddPeer and AddTopic add to the world in one transition. */
module Additions {
  import opened World

  /** How many of amount peers are created below the limit when built creations succeed. */
  function NewPeers(cfg: Config, size: nat, amount: nat, built: nat): nat {
    var room := if size < cfg.maxPeers then cfg.maxPeers - size else 0;
    if amount <= built && amount <= room then amount else if built <= room then built else room
  }

  lemma NewPeersCount(cfg: Config, size: nat, amount: nat, built: nat, added: nat)
    ensures added < NewPeers(cfg, size, amount, built) <==>
      added < amount && added < built && size + added < cfg.maxPeers
    ensures NewPeers(cfg, size, amount, built) <= built
  {
  }

  lemma NoPeersAdded(w: World)
    ensures PeersAdded(w, 0) == w
  {
  }

  lemma OnePeerMore(w: World, n: nat)
    requires n > 0
    ensures PeersAdded(w, n) == PeerAdded(PeersAdded(w, n - 1))
  {
  }

  /** Each round of AddTopic's loop was allowed when its turn came. */
  ghost predicate AdditionsOk(cfg: Config, w: World, added: seq<Addition>) {
    added != [] ==>
      var front, last := added[..|added| - 1], added[|added| - 1];
      AdditionsOk(cfg, w, front) && CanAddTopic(cfg, TopicsAdded(w, front), last.t, last.picks)
  }

  /** Which of the drawn names become topics. */
  function NewTopics(live: set<TopicId>, names: seq<TopicId>, limit: nat, built: nat): seq<TopicId>
    decreases |names|
  {
    if names == [] || |live| >= limit then []
    else if names[0] in live then NewTopics(live, names[1..], limit, built)
    else if built == 0 then []
    else [names[0]] + NewTopics(live + {names[0]}, names[1..], limit, built - 1)
  }

  function NamesOf(added: seq<Addition>): seq<TopicId> {
    seq(|added|, i requires 0 <= i < |added| => added[i].t)
  }

  lemma NothingAdded(cfg: Config, w: World)
    ensures TopicsAdded(w, []) == w && AdditionsOk(cfg, w, [])
  {
  }

  /** With these added, those still to come from the rest of the names make up all. */
  ghost predicate Naming(
    all: seq<TopicId>, added: seq<Addition>, live: set<TopicId>, rest: seq<TopicId>, limit: nat, built: nat)
  {
    NamesOf(added) + NewTopics(live, rest, limit, built) == all
  }

  lemma NamingStarts(live: set<TopicId>, names: seq<TopicId>, limit: nat, built: nat)
    ensures Naming(NewTopics(live, names, limit, built), [], live, names[0..], limit, built)
  {
    assert names[0..] == names;
  }

  /** How a round of AddTopic's loop ends. */
  datatype Round = Stopped | Taken | Made

  function RoundOf(live: set<TopicId>, name: TopicId, limit: nat, fails: bool): Round {
    if |live| >= limit then Stopped
    else if name in live then Taken
    else if fails then Stopped else Made
  }

  lemma RoundIs(topics: map<TopicId, int>, name: TopicId, limit: nat, fails: bool)
    ensures RoundOf(topics.Keys, name, limit, fails) ==
      if |topics| >= limit then Stopped
      else if name in topics then Taken
      else if fails then Stopped else Made
  {
    assert |topics| == |topics.Keys|;
  }

  lemma NamingGoesOn(
    all: seq<TopicId>, added: seq<Addition>, live: set<TopicId>, names: seq<TopicId>, i: nat, limit: nat, built: nat,
    picks: seq<Pick>)
    requires i < |names| && Naming(all, added, live, names[i..], limit, built)
    ensures var name := names[i];
      match RoundOf(live, name, limit, built == 0)
      case Stopped => NamesOf(added) == all
      case Taken => Naming(all, added, live + {}, names[i + 1..], limit, built)
      case Made =>
        built > 0 && Naming(all, added + [Addition(name, picks)], live + {name}, names[i + 1..], limit, built - 1)
  {
    var name, rest := names[i], names[i + 1..];
    assert names[i..][1..] == rest && live + {} == live;
    assert NamesOf(added + [Addition(name, picks)]) == NamesOf(added) + [name];
    if RoundOf(live, name, limit, built == 0) == Made {
      var others := NewTopics(live + {name}, rest, limit, built - 1);
      assert NamesOf(added) + ([name] + others) == (NamesOf(added) + [name]) + others;
    }
  }

  lemma NamingEnds(
    all: seq<TopicId>, added: seq<Addition>, live: set<TopicId>, names: seq<TopicId>, limit: nat, built: nat)
    requires Naming(all, added, live, names[|names|..], limit, built)
    ensures NamesOf(added) == all
  {
    assert names[|names|..] == [];
  }

  lemma AddedSnoc(cfg: Config, w: World, added: seq<Addition>, a: Addition)
    ensures TopicsAdded(w, added + [a]) == TopicAdded(TopicsAdded(w, added), a.t, a.picks)
    ensures AdditionsOk(cfg, w, added + [a]) <==>
      AdditionsOk(cfg, w, added) && CanAddTopic(cfg, TopicsAdded(w, added), a.t, a.picks)
  {
    assert (added + [a])[..|added|] == added;
  }

  lemma OneTopicMore(w: World, t: TopicId, picks: seq<Pick>)
    ensures TopicAdded(w, t, picks).topics.Keys == w.topics.Keys + {t}
  {
  }

  lemma TopicIsAdded(cfg: Config, w: World, t: TopicId, picks: seq<Pick>)
    requires |w.topics| < cfg.maxTopics && t !in w.topics
    requires |picks| <= cfg.initialPeersPerTopic && |picks| <= |w.peers|
    requires PicksRoomy(cfg, w.peers, t, picks) && PicksComplete(cfg, w.peers, t, picks)
    ensures CanAddTopic(cfg, w, t, picks)
    ensures TopicAdded(w, t, picks) == w.(topics := w.topics[t := 0], peers := JoinPicks(w.peers, t, picks))
  {
  }

  lemma NamesSnoc(added: seq<Addition>, a: Addition)
    ensures NamesOf([]) == []
    ensures NamesOf(added + [a]) == NamesOf(added) + [a.t]
  {
  }

  /**
   Drawing one more name adds it as a last topic exactly if it is new, there is room, and no creation
   has failed.
   */
  lemma {:induction false} OneMoreName(live: set<TopicId>, names: seq<TopicId>, x: TopicId, limit: nat, built: nat)
    ensures var made := NewTopics(live, names, limit, built);
      && |made| <= built && (forall t :: t in made ==> t in names && t !in live)
      && NewTopics(live, names + [x], limit, built) ==
           made + if x !in live && x !in made && |live| + |made| < limit && |made| < built then [x] else []
    decreases |names|
  {
    if names == [] {
      assert ([] + [x])[1..] == [];
    } else {
      assert (names + [x])[1..] == names[1..] + [x];
      if names[0] in live {
        OneMoreName(live, names[1..], x, limit, built);
      } else if |live| < limit && built > 0 {
        OneMoreName(live + {names[0]}, names[1..], x, limit, built - 1);
      }
    }
  }
}
