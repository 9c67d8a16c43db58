/** How many peers there are, over every run. */
module PopulationRuns {
  import opened Names
  import opened World
  import opened WorldRuns

  /** How many transitions of the run really removed a peer. */
  function Removals(cfg: Config, run: seq<Action>): nat {
    if run == [] then 0
    else
      var front, last := run[..|run| - 1], run[|run| - 1];
      Removals(cfg, front) + if last.RemovePeer? && Enabled(cfg, Exec(cfg, front), last) then 1 else 0
  }

  lemma SizeAfter(cfg: Config, w: World, a: Action)
    requires Numbered(w)
    ensures |Step(cfg, w, a).peers| ==
      |w.peers| + (if Enabled(cfg, w, a) && a.AddPeer? then 1 else 0)
                - (if Enabled(cfg, w, a) && a.RemovePeer? then 1 else 0)
    ensures Step(cfg, w, a).nextPeerNum ==
      w.nextPeerNum + if Enabled(cfg, w, a) && a.AddPeer? then 1 else 0
  {
    FreshName(w);
    if Enabled(cfg, w, a) {
      KeysAfter(cfg, w, a);
      assert |w.peers| == |w.peers.Keys|;
      assert |Effect(cfg, w, a).peers| == |Effect(cfg, w, a).peers.Keys|;
    }
  }

  /** Peers present plus peers removed are exactly the peers numbered so far. */
  lemma {:induction false} PeersAreCounted(cfg: Config, run: seq<Action>)
    ensures |Exec(cfg, run).peers| + Removals(cfg, run) == Exec(cfg, run).nextPeerNum
  {
    hide Step, Effect;
    if run == [] {
    } else {
      var front, last := run[..|run| - 1], run[|run| - 1];
      PeersAreCounted(cfg, front);
      RunsKeepInv(cfg, front);
      SizeAfter(cfg, Exec(cfg, front), last);
    }
  }

  /** AddPeer stores under a name that no present peer has. */
  lemma AddPeerNeverOverwrites(cfg: Config, run: seq<Action>)
    ensures PeerName(Exec(cfg, run).nextPeerNum) !in Exec(cfg, run).peers
  {
    RunsKeepInv(cfg, run);
    FreshName(Exec(cfg, run));
  }

  /** No present peer has a name that is still to be handed out. */
  ghost predicate NoNameAhead(w: World) {
    forall n: nat :: n >= w.nextPeerNum ==> PeerName(n) !in w.peers
  }

  lemma NumberedMeansNoNameAhead(w: World)
    requires Numbered(w)
    ensures NoNameAhead(w)
  {
    forall n: nat | n >= w.nextPeerNum ensures PeerName(n) !in w.peers {
      if PeerName(n) in w.peers {
        var m: nat :| m < w.nextPeerNum && PeerName(n) == PeerName(m);
        PeerNameInjective(n, m);
        assert false;
      }
    }
  }

  lemma AddingKeepsNoNameAhead(w: World)
    requires NoNameAhead(w)
    ensures NoNameAhead(PeerAdded(w))
  {
    forall n: nat | n >= w.nextPeerNum + 1 ensures PeerName(n) !in PeerAdded(w).peers {
      if PeerName(n) == PeerName(w.nextPeerNum) { PeerNameInjective(n, w.nextPeerNum); }
    }
  }

  /** The name was handed out to a peer that is no longer there. */
  ghost predicate Retired(w: World, p: PeerId) {
    UsedName(p, w.nextPeerNum) && p !in w.peers
  }

  lemma RetiredStays(cfg: Config, w: World, a: Action, p: PeerId)
    requires Numbered(w) && Retired(w, p)
    ensures Retired(Step(cfg, w, a), p)
  {
    SizeAfter(cfg, w, a);
    if Enabled(cfg, w, a) {
      KeysAfter(cfg, w, a);
      if p == PeerName(w.nextPeerNum) {
        var n: nat :| n < w.nextPeerNum && p == PeerName(n);
        PeerNameInjective(n, w.nextPeerNum);
        assert false;
      }
    }
  }

  /** A name that was handed out and is gone never comes back. */
  lemma {:induction false} NamesAreNeverReused(cfg: Config, run: seq<Action>, more: seq<Action>, p: PeerId)
    requires Retired(Exec(cfg, run), p)
    ensures Retired(Exec(cfg, run + more), p)
    decreases |more|
  {
    hide *;
    if more == [] {
      assert run + more == run;
    } else {
      var before, a := run + more[..|more| - 1], more[|more| - 1];
      NamesAreNeverReused(cfg, run, more[..|more| - 1], p);
      RunsKeepInv(cfg, before);
      RetiredStays(cfg, Exec(cfg, before), a, p);
      ExecSnoc(cfg, before, a);
      assert run + more == before + [a];
    }
  }

  lemma StepKeepsFloor(cfg: Config, w: World, a: Action)
    requires Numbered(w) && |w.peers| >= cfg.initialPeers
    ensures |Step(cfg, w, a).peers| >= cfg.initialPeers
  {
    SizeAfter(cfg, w, a);
  }

  /** Once the population has reached initialPeers it never drops below. */
  lemma {:induction false} PopulationFloor(cfg: Config, run: seq<Action>, more: seq<Action>)
    requires |Exec(cfg, run).peers| >= cfg.initialPeers
    ensures |Exec(cfg, run + more).peers| >= cfg.initialPeers
    decreases |more|
  {
    hide *;
    if more == [] {
      assert run + more == run;
    } else {
      var before, a := run + more[..|more| - 1], more[|more| - 1];
      PopulationFloor(cfg, run, more[..|more| - 1]);
      RunsKeepInv(cfg, before);
      StepKeepsFloor(cfg, Exec(cfg, before), a);
      ExecSnoc(cfg, before, a);
      assert run + more == before + [a];
    }
  }

  lemma {:induction false} GrowTo(cfg: Config, n: nat) returns (run: seq<Action>)
    requires n <= cfg.maxPeers
    ensures |Exec(cfg, run).peers| == n
  {
    if n == 0 {
      run := [];
    } else {
      var front := GrowTo(cfg, n - 1);
      run := front + [AddPeer];
      assert run[..|run| - 1] == front;
      RunsKeepInv(cfg, front);
      SizeAfter(cfg, Exec(cfg, front), AddPeer);
    }
  }

  ghost predicate RemovalFires(cfg: Config, run: seq<Action>, p: PeerId) {
    Enabled(cfg, Exec(cfg, run), RemovePeer(p))
  }

  /** RemovePeer fires in some run exactly when the peer limit exceeds the initial population. */
  lemma RemovalFiresIff(cfg: Config)
    ensures (exists run, p :: RemovalFires(cfg, run, p)) <==> cfg.initialPeers < cfg.maxPeers
  {
    forall run, p | RemovalFires(cfg, run, p) ensures cfg.initialPeers < cfg.maxPeers {
      RunsKeepInv(cfg, run);
    }
    if cfg.initialPeers < cfg.maxPeers {
      var run := GrowTo(cfg, cfg.initialPeers + 1);
      var p :| p in Exec(cfg, run).peers;
      assert RemovalFires(cfg, run, p);
    }
  }

  /** The limits as shipped. */
  const SHIPPED: Config := Config(30, 20, 50, 5, 15, 10, 10, 100, 5)

  /** So with the shipped limits no run ever removes a peer. */
  lemma ShippedNeverRemoves(run: seq<Action>, p: PeerId)
    ensures !RemovalFires(SHIPPED, run, p)
  {
    RemovalFiresIff(SHIPPED);
  }
}
