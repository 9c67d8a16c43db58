/**
 The heartbeat scheduler. Each heartbeat tries every random state; one is activated unless it was
 activated within a delay drawn at random around its configured frequency.
 */
module Scheduler {
  import opened Seqs

  datatype State =
    | AddPeer | RemovePeer | AddTopic | RemoveTopic | PeakRandTopic | AddRandomFriend | GC
    | JoinRandomTopic | JoinFriendsTopic | MsgRandomTopic
    | Start | Heartbeat | VerifyMsgsRecv | RefreshMetrics

  /** The states the heartbeat drives, in the order it tries them. */
  const RANDOM_STATES: seq<State> := [
    AddPeer, RemovePeer, AddTopic, RemoveTopic, PeakRandTopic, AddRandomFriend, GC,
    JoinRandomTopic, JoinFriendsTopic, MsgRandomTopic]

  /** d is the relative delay, unit its length in nanoseconds, up and down the drift factors. */
  datatype Freq = Freq(d: nat, up: real, down: real, unit: nat)

  /** The configured frequency of each driven state; a zero field falls back to standard. */
  datatype Rates = Rates(of: map<State, Freq>, standard: Freq)

  predicate Covers(rates: Rates) {
    forall s :: s in RANDOM_STATES ==> s in rates.of
  }

  /** The drift up is no larger than the drift down: the delay cannot be inverted. */
  predicate Drifting(rates: Rates) {
    forall s :: s in rates.of ==>
      Effective(rates.of[s], rates.standard).up <= Effective(rates.of[s], rates.standard).down
  }

  function Effective(f: Freq, standard: Freq): Freq {
    Freq(if f.d != 0 then f.d else standard.d,
         if f.up != 0.0 then f.up else standard.up,
         if f.down != 0.0 then f.down else standard.down,
         if f.unit != 0 then f.unit else standard.unit)
  }

  method GetStateFreq(rates: Rates, s: State) returns (ret: Freq, ok: bool)
    requires Covers(rates)
    ensures ok <==> s in RANDOM_STATES
    ensures ret == if ok then Effective(rates.of[s], rates.standard) else rates.standard
  {
    ret, ok := rates.standard, s in RANDOM_STATES;
    if !ok {
      return;
    }
    var freq := rates.of[s];
    if freq.d != 0 {
      ret := ret.(d := freq.d);
    }
    if freq.unit != 0 {
      ret := ret.(unit := freq.unit);
    }
    if freq.up != 0.0 {
      ret := ret.(up := freq.up);
    }
    if freq.down != 0.0 {
      ret := ret.(down := freq.down);
    }
  }

  /** randFloatRange; the scheduler passes the larger bound first. */
  function RandFloatRange(min: real, max: real, r: real): real {
    min + r * (max - min)
  }

  /** The drawn delay in whole nanoseconds. */
  function Delay(f: Freq, r: real): int {
    (f.d as real * f.unit as real * RandFloatRange(f.down, f.up, r)).Floor
  }

  function MinDelay(f: Freq): int {
    (f.d as real * f.unit as real * f.up).Floor
  }

  function MaxDelay(f: Freq): int {
    (f.d as real * f.unit as real * f.down).Floor
  }

  lemma ScaleMonotone(base: real, a: real, b: real)
    requires base >= 0.0 && a <= b
    ensures (base * a).Floor <= (base * b).Floor
  {
  }

  /** Every factor above the drift up, up to the drift down, is drawn, each by one random number. */
  lemma EveryFactorIsDrawn(up: real, down: real, factor: real)
    requires up < factor <= down
    ensures exists r :: 0.0 <= r < 1.0 && RandFloatRange(down, up, r) == factor
    ensures forall r, q :: RandFloatRange(down, up, r) == factor == RandFloatRange(down, up, q) ==> r == q
  {
    var r := (down - factor) / (down - up);
    assert r * (down - up) == down - factor;
    UnitShare(r, down - up, down - factor);
    assert RandFloatRange(down, up, r) == factor;
    forall p, q | RandFloatRange(down, up, p) == factor == RandFloatRange(down, up, q) ensures p == q {
      assert (p - q) * (up - down) == 0.0;
    }
  }

  /** The delay is the drawn factor's share of d units, in whole nanoseconds. */
  lemma DelayIsShare(f: Freq, r: real, num: nat, den: nat)
    requires den > 0 && RandFloatRange(f.down, f.up, r) == num as real / den as real
    ensures Delay(f, r) == f.d * f.unit * num / den
  {
    var whole := f.d * f.unit * num;
    var x := f.d as real * f.unit as real * RandFloatRange(f.down, f.up, r);
    assert f.d as real * f.unit as real == (f.d * f.unit) as real;
    ShareOf(f.d * f.unit, num, den, x);
  }

  lemma ShareOf(base: nat, num: nat, den: nat, x: real)
    requires den > 0 && x == base as real * (num as real / den as real)
    ensures x.Floor == base * num / den
  {
    assert x * den as real == (base * num) as real by {
      assert (num as real / den as real) * den as real == num as real;
      assert x * den as real == base as real * ((num as real / den as real) * den as real);
      assert base as real * num as real == (base * num) as real;
    }
    FloorOf(x, base * num, den);
  }

  lemma FloorOf(x: real, whole: nat, den: nat)
    requires den > 0 && x * den as real == whole as real
    ensures x.Floor == whole / den
  {
    var q, m := whole / den, whole % den;
    WholeProduct(q, den);
    assert (x - q as real) * den as real == x * den as real - q as real * den as real == m as real;
    UnitShare(x - q as real, den as real, m as real);
  }

  lemma WholeProduct(q: int, den: int)
    ensures q as real * den as real == (q * den) as real
  {
  }

  /** A share of less than the whole is less than one. */
  lemma UnitShare(y: real, whole: real, part: real)
    requires whole > 0.0 && y * whole == part && 0.0 <= part < whole
    ensures 0.0 <= y < 1.0
  {
    if y >= 1.0 { NonNegative(y - 1.0, whole); }
  }

  /** A field of its own wins, a zero field falls back. */
  lemma OwnFieldsWin(f: Freq, standard: Freq)
    ensures f.d != 0 && f.up != 0.0 && f.down != 0.0 && f.unit != 0 ==> Effective(f, standard) == f
    ensures Effective(Freq(0, 0.0, 0.0, 0), standard) == standard
    ensures Effective(f, standard).d == Effective(f, standard.(up := f.up, down := f.down, unit := f.unit)).d
    ensures Effective(f, standard).up == Effective(f, standard.(d := f.d, down := f.down, unit := f.unit)).up
    ensures Effective(f, standard).down == Effective(f, standard.(d := f.d, up := f.up, unit := f.unit)).down
    ensures Effective(f, standard).unit == Effective(f, standard.(d := f.d, up := f.up, down := f.down)).unit
  {
  }

  /** The heartbeat drives exactly the states that have a frequency. */
  lemma DrivenStatesHaveRates(s: State)
    ensures s in RANDOM_STATES <==> RelativeDelay(s) != 0
    ensures |RANDOM_STATES| == 10 && NoDup(RANDOM_STATES)
  {
  }

  lemma NoDelayWithoutD(f: Freq)
    ensures f.d == 0 ==> MinDelay(f) == 0
  {
  }

  lemma InDrift(rates: Rates, s: State)
    requires Drifting(rates) && s in rates.of
    ensures Effective(rates.of[s], rates.standard).up <= Effective(rates.of[s], rates.standard).down
  {
  }

  lemma NonNegative(a: real, b: real)
    requires a >= 0.0 && b >= 0.0
    ensures a * b >= 0.0
  {
  }

  /** Swapped bounds or not, every draw stays between the two drift factors. */
  lemma DelayBounds(f: Freq, r: real)
    requires 0.0 <= r < 1.0 && f.up <= f.down
    ensures MinDelay(f) <= Delay(f, r) <= MaxDelay(f)
  {
    var factor := RandFloatRange(f.down, f.up, r);
    assert factor - f.up == (1.0 - r) * (f.down - f.up);
    assert f.down - factor == r * (f.down - f.up);
    NonNegative(1.0 - r, f.down - f.up);
    NonNegative(r, f.down - f.up);
    ScaleMonotone(f.d as real * f.unit as real, f.up, factor);
    ScaleMonotone(f.d as real * f.unit as real, factor, f.down);
  }

  /** Activation times, oldest first, at least gap apart. */
  ghost predicate Spaced(times: seq<int>, gap: int) {
    forall i :: 0 <= i < |times| - 1 ==> times[i + 1] - times[i] >= gap
  }

  /** Between the i-th and the j-th activation lie at least j - i gaps. */
  lemma {:induction false} GapsAddUp(times: seq<int>, gap: int, i: nat, j: nat)
    requires Spaced(times, gap) && i <= j < |times|
    ensures times[j] - times[i] >= (j - i) * gap
    decreases j - i
  {
    if i == j {
    } else {
      GapsAddUp(times, gap, i, j - 1);
      assert (j - i) * gap == (j - 1 - i) * gap + gap;
    }
  }

  /** A window of the given length holds at most one activation more than whole gaps fit in it. */
  lemma WindowRate(times: seq<int>, gap: int, i: nat, j: nat, window: nat)
    requires Spaced(times, gap) && gap > 0 && i <= j < |times|
    requires times[j] - times[i] <= window
    ensures j - i + 1 <= 1 + window / gap
  {
    GapsAddUp(times, gap, i, j);
    assert window < (window / gap + 1) * gap;
    Cancel(j - i, window / gap + 1, gap);
  }

  lemma Cancel(a: int, b: int, g: int)
    requires g > 0 && a * g < b * g
    ensures a < b
  {
  }

  /** The configuration of config.go. */
  const SECOND: nat := 1_000_000_000

  function ShippedRates(): Rates {
    Rates(map s: State | RelativeDelay(s) != 0 :: Freq(RelativeDelay(s), 0.0, 0.0, 0), Freq(0, 0.75, 1.25, SECOND))
  }

  function RelativeDelay(s: State): nat {
    match s
    case AddPeer => 3
    case RemovePeer => 50
    case AddTopic => 3
    case RemoveTopic => 80
    case PeakRandTopic => 10
    case AddRandomFriend => 2
    case GC => 100
    case JoinRandomTopic => 2
    case JoinFriendsTopic => 4
    case MsgRandomTopic => 3
    case _ => 0
  }

  /** With the shipped configuration a state of relative delay d rests 0.75 d to 1.25 d seconds. */
  lemma ShippedDelays(s: State)
    requires s in RANDOM_STATES
    ensures s in ShippedRates().of
    ensures var f := Effective(ShippedRates().of[s], ShippedRates().standard);
      && f.d == RelativeDelay(s) > 0 && f.unit > 0 && f.up <= f.down
      && MinDelay(f) == f.d * 750_000_000 && MaxDelay(f) == f.d * 1_250_000_000
  {
  }

  /** The shortest delay of each driven state as shipped, in milliseconds and the heartbeat's order. */
  lemma ShippedShortestDelays(i: nat)
    requires i < |RANDOM_STATES|
    ensures RANDOM_STATES[i] in ShippedRates().of
    ensures Gap(ShippedRates(), RANDOM_STATES[i]) ==
      1_000_000 * [2250, 37500, 2250, 60000, 7500, 1500, 75000, 1500, 3000, 2250][i]
  {
    hide Effective, MinDelay, MaxDelay, ShippedRates;
    ShippedDelays(RANDOM_STATES[i]);
    var d := [3, 50, 3, 80, 10, 2, 100, 2, 4, 3];
    assert RelativeDelay(RANDOM_STATES[i]) == d[i];
  }

  lemma ShippedRatesCover()
    ensures Covers(ShippedRates()) && Drifting(ShippedRates())
  {
  }

  /** Activation times of one state so far: at least gap apart, none after now. */
  ghost predicate Orderly(times: seq<int>, gap: int, now: int) {
    Spaced(times, gap) && (times != [] ==> times[|times| - 1] <= now)
  }

  /** The state may be activated now. */
  predicate Rested(times: seq<int>, gap: int, now: int) {
    times != [] ==> now - times[|times| - 1] >= gap
  }

  lemma RestedActivation(times: seq<int>, gap: int, now: int)
    requires Orderly(times, gap, now) && Rested(times, gap, now)
    ensures Orderly(times + [now], gap, now)
  {
  }

  function TimesIn(history: map<State, seq<int>>, s: State): seq<int> {
    if s in history then history[s] else []
  }

  function Gap(rates: Rates, s: State): int
    requires s in rates.of
  {
    MinDelay(Effective(rates.of[s], rates.standard))
  }

  function LongGap(rates: Rates, s: State): int
    requires s in rates.of
  {
    MaxDelay(Effective(rates.of[s], rates.standard))
  }

  /** Even the longest delay has passed. */
  predicate Overdue(rates: Rates, s: State, times: seq<int>, now: int)
    requires s in rates.of
  {
    Gap(rates, s) > 0 && Rested(times, LongGap(rates, s), now)
  }

  ghost predicate AllOrderly(history: map<State, seq<int>>, rates: Rates, now: int) {
    forall s :: s in rates.of ==> Orderly(TimesIn(history, s), Gap(rates, s), now)
  }

  lemma LaterIsOrderly(history: map<State, seq<int>>, rates: Rates, before: int, now: int)
    requires AllOrderly(history, rates, before) && before <= now
    ensures AllOrderly(history, rates, now)
  {
  }

  /**
   What a heartbeat may do to a state: activate it if it is accepted and has rested its shortest
   delay, and leave it alone unless it is accepted and has rested its longest.
   */
  ghost predicate Beaten(
    rates: Rates, s: State, before: seq<int>, after: seq<int>, now: int, accepted: set<State>)
    requires s in rates.of
  {
    if after == before
    then !(s in accepted && Overdue(rates, s, before, now))
    else after == before + [now] && s in accepted && Rested(before, Gap(rates, s), now)
  }

  lemma BeatenIs(
    rates: Rates, s: State, before: seq<int>, after: seq<int>, now: int, accepted: set<State>, tried: bool)
    requires s in rates.of
    requires tried ==> Rested(before, Gap(rates, s), now)
    requires Overdue(rates, s, before, now) ==> tried
    requires after == before + if tried && s in accepted then [now] else []
    ensures Beaten(rates, s, before, after, now, accepted)
  {
    hide Gap, LongGap, Rested;
    if tried && s in accepted { assert |after| == |before| + 1; }
  }

  // ---- runs of heartbeats ----

  /** A heartbeat and the states whose Enter handlers accept at it. */
  datatype Beat = Beat(now: int, accepted: set<State>)

  /** From the start on, no beat before the one before it, and none more than every later. */
  predicate Ticking(beats: seq<Beat>, every: nat) {
    && (beats != [] ==> beats[0].now >= 0)
    && forall i :: 0 <= i < |beats| - 1 ==> 0 <= beats[i + 1].now - beats[i].now <= every
  }

  predicate AlwaysAccepted(beats: seq<Beat>, s: State) {
    forall beat :: beat in beats ==> s in beat.accepted
  }

  /** Activation times less than gap apart. */
  ghost predicate Dense(times: seq<int>, gap: int) {
    forall i :: 0 <= i < |times| - 1 ==> times[i + 1] - times[i] < gap
  }

  /** Each activation was at a beat that accepted the state. */
  ghost predicate AtBeats(times: seq<int>, s: State, beats: seq<Beat>) {
    forall x :: x in times ==> exists beat :: beat in beats && beat.now == x && s in beat.accepted
  }

  /**
   A state that is always accepted is activated at the first beat, then again and again less than
   its longest delay and one beat apart, and last less than its longest delay ago.
   */
  ghost predicate Lively(rates: Rates, s: State, times: seq<int>, beats: seq<Beat>, every: nat)
    requires s in rates.of
  {
    AlwaysAccepted(beats, s) && Gap(rates, s) > 0 && beats != [] ==>
      && times != [] && times[0] == beats[0].now
      && Dense(times, LongGap(rates, s) + every)
      && beats[|beats| - 1].now - times[|times| - 1] < LongGap(rates, s)
  }

  lemma BeatKeepsLively(
    rates: Rates, s: State, before: seq<int>, after: seq<int>, beats: seq<Beat>, beat: Beat, every: nat)
    requires s in rates.of && Drifting(rates) && Ticking(beats + [beat], every)
    requires beats == [] ==> before == []
    requires Lively(rates, s, before, beats, every) && Beaten(rates, s, before, after, beat.now, beat.accepted)
    ensures Lively(rates, s, after, beats + [beat], every)
  {
    hide Gap, LongGap, Drifting;
    var all := beats + [beat];
    assert beat in all && forall b :: b in beats ==> b in all;
    LongIsLonger(rates, s);
    if beats != [] {
      assert all[|beats|].now - all[|beats| - 1].now <= every;
    }
  }

  lemma LongIsLonger(rates: Rates, s: State)
    requires s in rates.of && Drifting(rates)
    ensures Gap(rates, s) <= LongGap(rates, s)
  {
    InDrift(rates, s);
    DelayBounds(Effective(rates.of[s], rates.standard), 0.0);
  }

  lemma BeatKeepsAtBeats(
    rates: Rates, s: State, before: seq<int>, after: seq<int>, beats: seq<Beat>, beat: Beat)
    requires s in rates.of && AtBeats(before, s, beats)
    requires Beaten(rates, s, before, after, beat.now, beat.accepted)
    ensures AtBeats(after, s, beats + [beat])
  {
    hide Gap, LongGap, Rested;
    var all := beats + [beat];
    forall x | x in after ensures exists b :: b in all && b.now == x && s in b.accepted {
      if x in before {
        var b :| b in beats && b.now == x && s in b.accepted;
        assert b in all;
      } else {
        assert beat in all;
      }
    }
  }

  class Heart {
    const rates: Rates
    var history: map<State, seq<int>>
    var clock: int

    /** No driven state was ever activated too soon after its previous activation. */
    ghost predicate Valid()
      reads this
    {
      Covers(rates) && Drifting(rates) && AllOrderly(history, rates, clock)
    }

    constructor (rates: Rates)
      requires Covers(rates) && Drifting(rates)
      ensures Valid() && this.rates == rates && history == map[] && clock == 0
    {
      this.rates, history, clock := rates, map[], 0;
    }

    /**
     Which states a heartbeat at the time now tries to activate: none before its shortest delay has
     passed, every one whose longest delay has.
     */
    method GetRandStatesToActive(states: seq<State>, now: int) returns (ret: seq<State>)
      requires Valid() && NoDup(states)
      requires forall s :: s in states ==> s in RANDOM_STATES
      ensures forall s :: s in ret ==> s in states && Rested(TimesIn(history, s), Gap(rates, s), now)
      ensures forall s :: s in states && Overdue(rates, s, TimesIn(history, s), now) ==> s in ret
      ensures NoDup(ret)
    {
      hide MinDelay, MaxDelay, Delay, Spaced, Drifting;
      ret := [];
      for i := 0 to |states|
        invariant forall s :: s in ret ==> s in states[..i] && Rested(TimesIn(history, s), Gap(rates, s), now)
        invariant forall s :: s in states[..i] && Overdue(rates, s, TimesIn(history, s), now) ==> s in ret
        invariant NoDup(ret)
      {
        var s := states[i];
        assert s in states && s !in states[..i];
        var freq, ok := GetStateFreq(rates, s);
        assert states[..i + 1] == states[..i] + [s];
        InDrift(rates, s);
        NoDelayWithoutD(Effective(rates.of[s], rates.standard));
        if !ok || freq.d == 0 {
          continue;
        }
        var r: real :| 0.0 <= r < 1.0;
        var delay := Delay(freq, r);
        DelayBounds(freq, r);
        if delay == 0 {
          continue;
        }
        var times := TimesIn(history, s);
        var recently := times != [] && now - times[|times| - 1] < delay;
        if !recently {
          ret := ret + [s];
        }
      }
    }

    /** The machine accepts the state s: its history gains the present time. */
    method Activate(s: State)
      requires Valid() && s in rates.of && Rested(TimesIn(history, s), Gap(rates, s), clock)
      modifies this`history
      ensures Valid() && history == old(history)[s := TimesIn(old(history), s) + [clock]]
    {
      hide Spaced, Rested, Gap, Effective, Covers, Drifting;
      RestedActivation(TimesIn(history, s), Gap(rates, s), clock);
      history := history[s := TimesIn(history, s) + [clock]];
    }

    /**
     A heartbeat; the Enter handlers of the accepted states say yes. Only an accepted state that has
     rested its shortest delay is activated, and every one that has rested its longest.
     */
    method HeartbeatState(now: int, accepted: set<State>)
      requires Valid() && now >= clock
      modifies this
      ensures Valid() && clock == now
      ensures forall s :: s !in RANDOM_STATES ==> TimesIn(history, s) == TimesIn(old(history), s)
      ensures forall s :: s in RANDOM_STATES ==>
        Beaten(rates, s, TimesIn(old(history), s), TimesIn(history, s), now, accepted)
    {
      hide Spaced, Rested, Overdue, Gap, LongGap, Effective, Drifting, Beaten;
      ghost var was := history;
      var toActivate := GetRandStatesToActive(RANDOM_STATES, now);
      clock := now;
      ActivateAll(toActivate, accepted);
      forall s | s in RANDOM_STATES
        ensures Beaten(rates, s, TimesIn(was, s), TimesIn(history, s), now, accepted)
      {
        BeatenIs(rates, s, TimesIn(was, s), TimesIn(history, s), now, accepted, s in toActivate);
      }
    }

    method ActivateAll(states: seq<State>, accepted: set<State>)
      requires Valid() && NoDup(states)
      requires forall s :: s in states ==> s in RANDOM_STATES && Rested(TimesIn(history, s), Gap(rates, s), clock)
      modifies this`history
      ensures Valid()
      ensures forall s :: s in states && s in accepted ==> TimesIn(history, s) == TimesIn(old(history), s) + [clock]
      ensures forall s :: s !in states || s !in accepted ==> TimesIn(history, s) == TimesIn(old(history), s)
    {
      hide Rested, Gap, Effective, Drifting, AllOrderly;
      for i := 0 to |states|
        invariant Valid()
        invariant forall s ::
          s in states[..i] && s in accepted ==> TimesIn(history, s) == TimesIn(old(history), s) + [clock]
        invariant forall s :: s !in states[..i] || s !in accepted ==> TimesIn(history, s) == TimesIn(old(history), s)
      {
        var s := states[i];
        assert s in states && s !in states[..i];
        if s in accepted {
          Activate(s);
        }
      }
      assert states[..|states|] == states;
    }

    /** The same for the shipped configuration, in nanoseconds. */
    lemma ShippedRateIsBounded(s: State, i: nat, j: nat, window: nat)
      requires Valid() && rates == ShippedRates() && s in RANDOM_STATES
      requires i <= j < |TimesIn(history, s)|
      requires TimesIn(history, s)[j] - TimesIn(history, s)[i] <= window
      ensures RelativeDelay(s) > 0 && j - i + 1 <= 1 + window / (RelativeDelay(s) * 750_000_000)
    {
      ShippedDelays(s);
      RateIsBounded(s, i, j, window);
    }

    /** Safety of the whole run so far: any window holds at most one more than the gaps it fits. */
    lemma RateIsBounded(s: State, i: nat, j: nat, window: nat)
      requires Valid() && s in rates.of && Gap(rates, s) > 0
      requires i <= j < |TimesIn(history, s)|
      requires TimesIn(history, s)[j] - TimesIn(history, s)[i] <= window
      ensures j - i + 1 <= 1 + window / Gap(rates, s)
    {
      WindowRate(TimesIn(history, s), Gap(rates, s), i, j, window);
    }
  }

  /** The heartbeat with the configuration as shipped. */
  method ShippedHeart() returns (heart: Heart)
    ensures heart.Valid() && heart.rates == ShippedRates() && heart.history == map[]
  {
    ShippedRatesCover();
    heart := new Heart(ShippedRates());
  }

  /**
   Any run of heartbeats: no state is activated too soon or unaccepted, and one that is always
   accepted is activated again and again, never much later than its longest delay.
   */
  method Beats(rates: Rates, beats: seq<Beat>, every: nat) returns (heart: Heart)
    requires Covers(rates) && Drifting(rates) && Ticking(beats, every)
    ensures heart.Valid() && heart.rates == rates
    ensures forall s :: s in RANDOM_STATES ==>
      && Lively(rates, s, TimesIn(heart.history, s), beats, every)
      && AtBeats(TimesIn(heart.history, s), s, beats)
  {
    hide Drifting, Beaten, Lively, AtBeats, Effective, Gap, LongGap;
    heart := new Heart(rates);
    NothingBeaten(rates, every);
    for i := 0 to |beats|
      invariant fresh(heart) && heart.Valid() && heart.rates == rates
      invariant heart.clock == if i == 0 then 0 else beats[i - 1].now
      invariant forall s :: s in RANDOM_STATES ==>
        && (i == 0 ==> TimesIn(heart.history, s) == [])
        && Lively(rates, s, TimesIn(heart.history, s), beats[..i], every)
        && AtBeats(TimesIn(heart.history, s), s, beats[..i])
    {
      var beat := beats[i];
      ghost var was := heart.history;
      assert i > 0 ==> beats[i].now - beats[i - 1].now >= 0;
      heart.HeartbeatState(beat.now, beat.accepted);
      TickingFront(beats, i + 1, every);
      assert beats[..i + 1] == beats[..i] + [beat];
      forall s | s in RANDOM_STATES
        ensures Lively(rates, s, TimesIn(heart.history, s), beats[..i + 1], every)
        ensures AtBeats(TimesIn(heart.history, s), s, beats[..i + 1])
      {
        BeatKeepsLively(rates, s, TimesIn(was, s), TimesIn(heart.history, s), beats[..i], beat, every);
        BeatKeepsAtBeats(rates, s, TimesIn(was, s), TimesIn(heart.history, s), beats[..i], beat);
      }
    }
    assert beats[..|beats|] == beats;
  }

  lemma NothingBeaten(rates: Rates, every: nat)
    ensures forall s :: s in rates.of ==> Lively(rates, s, [], [], every) && AtBeats([], s, [])
  {
  }

  lemma TickingFront(beats: seq<Beat>, n: nat, every: nat)
    requires Ticking(beats, every) && n <= |beats|
    ensures Ticking(beats[..n], every)
  {
  }
}
