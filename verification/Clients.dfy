/**
 The pub/sub half of a peer and the simulator's side of the counters, as objects. Every method
 makes exactly one step of the membership protocol on the state of all objects together, so every
 history of calls is a run of the protocol.
 */
module Clients {
  import opened Names
  import opened World
  import opened Membership

  class Client {
    const id: PeerId
    var subs: set<TopicId>
    var handles: set<TopicId>
    var joining: set<TopicId>

    constructor (id: PeerId)
      ensures this.id == id && View() == FRESH_CLIENT
    {
      this.id := id;
      subs, handles, joining := {}, {}, {};
    }

    ghost function View(): ClientView
      reads this
    {
      ClientView(subs, handles, joining)
    }

    /** JoiningTopicState's goroutine up to ps.Join, which fails while the topic is open. */
    method OpenTopic(x: Exchange, topic: TopicId) returns (ok: bool)
      requires x.Valid() && x.Knows(this)
      modifies this
      ensures x.View() == Next(old(x.View()), Act.OpenTopic(id, topic))
      ensures ok <==> topic !in old(handles)
    {
      ghost var n := x.View();
      ok := topic !in handles;
      if ok {
        handles, joining := handles + {topic}, joining + {topic};
        x.SameClients(n.clients[id := Opened(n.clients[id], topic)]);
      }
    }

    /** The rest of the goroutine: subscribing or storing the subscription may fail. */
    method FinishJoining(x: Exchange, topic: TopicId, stored: bool)
      requires x.Valid() && x.Knows(this) && topic in joining
      modifies this, x`inflight
      ensures x.View() == Next(old(x.View()), if stored then Subscribe(id, topic) else Abandon(id, topic))
    {
      ghost var n := x.View();
      joining := joining - {topic};
      if stored {
        // TopicJoinedState then reports the join from a goroutine of its own
        subs := subs + {topic};
        x.inflight := x.inflight + multiset{Delta(topic, 1)};
        x.SameClients(n.clients[id := Subscribed(n.clients[id], topic)]);
      } else {
        x.SameClients(n.clients[id := n.clients[id].(joining := n.clients[id].joining - {topic})]);
      }
    }

    /** The library may refuse to close the topic. */
    method LeavingTopicState(x: Exchange, topic: TopicId, closed: bool) returns (left: bool)
      requires x.Valid() && x.Knows(this)
      modifies this, x`inflight
      ensures left <==> topic in old(subs)
      ensures x.View() == Next(old(x.View()), Unsubscribe(id, topic, closed))
    {
      ghost var n := x.View();
      left := topic in subs;
      if !left {
        return;
      }
      subs := subs - {topic};
      if closed {
        handles := handles - {topic};
      }
      // TopicLeftState then reports the leave from a goroutine of its own
      x.inflight := x.inflight + multiset{Delta(topic, -1)};
      x.SameClients(n.clients[id := Unsubscribed(n.clients[id], topic, closed)]);
    }
  }

  /** Everybody's clients, the live topics' counters and the deltas on their way. */
  class Exchange {
    var clients: map<PeerId, Client>
    var removed: set<PeerId>
    var counts: map<TopicId, int>
    var inflight: multiset<Delta>
    ghost var lost: map<TopicId, int>

    constructor ()
      ensures Valid() && View() == EMPTY_NET && clients == map[]
    {
      clients, removed, counts, inflight := map[], {}, map[], multiset{};
      lost := map[];
    }

    ghost function View(): Net
      reads this, clients.Values
    {
      Net(map p | p in clients :: clients[p].View(), removed, counts, inflight, lost)
    }

    ghost predicate Valid()
      reads this
    {
      forall p :: p in clients ==> clients[p].id == p
    }

    /** The client is one of ours and its machine still takes steps. */
    ghost predicate Knows(c: Client)
      reads this
    {
      c.id in clients && clients[c.id] == c && c.id !in removed
    }

    /** Given the clients' states, the rest of the state is the object's own fields. */
    lemma SameClients(cs: map<PeerId, ClientView>)
      requires cs.Keys == clients.Keys && forall p :: p in cs ==> cs[p] == clients[p].View()
      ensures View() == Net(cs, removed, counts, inflight, lost)
    {
    }

    method AddClient(p: PeerId)
      requires Valid() && p !in clients
      modifies this
      ensures Valid() && View() == Next(old(View()), Start(p))
      ensures fresh(clients.Values - old(clients.Values))
    {
      ghost var n := View();
      var c := new Client(p);
      clients := clients[p := c];
      SameClients(n.clients[p := FRESH_CLIENT]);
    }

    /** The peer's machine is disposed of before it can leave its topics. */
    method RemoveClient(p: PeerId)
      requires Valid() && p in clients && p !in removed
      modifies this`removed
      ensures View() == Next(old(View()), Remove(p))
    {
      ghost var n := View();
      removed := removed + {p};
      SameClients(n.clients);
    }

    method CreateTopic(t: TopicId)
      requires Valid() && t !in counts
      modifies this`counts
      ensures View() == Next(old(View()), Create(t))
    {
      ghost var n := View();
      counts := counts[t := 0];
      SameClients(n.clients);
    }

    method DisposeTopic(t: TopicId)
      requires Valid() && t in counts
      modifies this`counts, this`lost
      ensures View() == Next(old(View()), Dispose(t))
    {
      ghost var n := View();
      lost := lost[t := Get(lost, t) + counts[t]];
      counts := counts - {t};
      SameClients(n.clients);
    }

    /** topicPeerChange: some delta in flight arrives; without its topic it is only logged. */
    method TopicPeerChange(d: Delta) returns (found: bool)
      requires Valid() && d in inflight
      modifies this`counts, this`inflight, this`lost
      ensures View() == Next(old(View()), Deliver(d))
      ensures found <==> d.topic in old(counts)
    {
      ghost var n := View();
      found := d.topic in counts;
      inflight := inflight - multiset{d};
      if found {
        counts := counts[d.topic := counts[d.topic] + d.amount];
      } else {
        lost := lost[d.topic := Get(lost, d.topic) + d.amount];
      }
      SameClients(n.clients);
    }

    /** A step of one of the peers; a peer that is unknown or removed takes none. */
    method PeerStep(a: Act)
      requires Valid() && (a.OpenTopic? || a.Abandon? || a.Subscribe? || a.Unsubscribe?)
      modifies this`inflight, clients.Values
      ensures View() == Next(old(View()), a)
    {
      if a.p !in clients || a.p in removed {
        return;
      }
      var c := clients[a.p];
      match a
      case OpenTopic(_, t) =>
        var ok := c.OpenTopic(this, t);
      case Abandon(_, t) =>
        if t in c.joining {
          c.FinishJoining(this, t, false);
        }
      case Subscribe(_, t) =>
        if t in c.joining {
          c.FinishJoining(this, t, true);
        }
      case Unsubscribe(_, t, closed) =>
        var left := c.LeavingTopicState(this, t, closed);
    }

    /** Any call; one that does not apply changes nothing. */
    method Take(a: Act)
      requires Valid()
      modifies this, clients.Values
      ensures Valid() && View() == Next(old(View()), a)
      ensures fresh(clients.Values - old(clients.Values))
    {
      hide Next;
      if !CanTake(a) {
        Idle(a);
        return;
      }
      match a
      case Start(p) => AddClient(p);
      case Remove(p) => RemoveClient(p);
      case Create(t) => CreateTopic(t);
      case Dispose(t) => DisposeTopic(t);
      case Deliver(d) => var found := TopicPeerChange(d);
      case _ => PeerStep(a);
    }

    predicate CanTake(a: Act)
      reads this
    {
      match a
      case Start(p) => p !in clients
      case Remove(p) => p in clients && p !in removed
      case Create(t) => t !in counts
      case Dispose(t) => t in counts
      case Deliver(d) => d in inflight
      case _ => true
    }

    lemma Idle(a: Act)
      requires !CanTake(a)
      ensures Next(View(), a) == View()
    {
    }
  }

  /**
   For every sequence of calls the objects are in the state that the protocol's run leads to, so the
   counters of the objects obey the protocol's laws.
   */
  method Serve(acts: seq<Act>) returns (x: Exchange)
    ensures x.Valid() && x.View() == Play(acts)
    ensures forall t :: Conserved(x.View(), t)
    ensures forall t :: FirstLife(acts, t) && Create(t) in acts ==>
      t in x.counts && x.counts[t] + Pending(x.View(), t) == |Subscribers(x.View(), t)|
  {
    hide Play, Next, FirstLife, Conserved;
    x := new Exchange();
    NothingPlayed();
    for i := 0 to |acts|
      invariant fresh(x) && fresh(x.clients.Values)
      invariant x.Valid() && x.View() == Play(acts[..i])
    {
      assert acts[..i + 1] == acts[..i] + [acts[i]];
      PlaySnoc(acts[..i], acts[i]);
      x.Take(acts[i]);
    }
    assert acts[..|acts|] == acts;
    forall t ensures Conserved(x.View(), t) {
      ConservationInRuns(acts, t);
    }
    forall t | FirstLife(acts, t) && Create(t) in acts
      ensures t in x.counts && x.counts[t] + Pending(x.View(), t) == |Subscribers(x.View(), t)|
    {
      CounterInFirstLife(acts, t);
    }
  }
}
