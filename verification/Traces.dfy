/** Folding an execution trace into benchmark results. Counters of bytes are unsigned 64-bit and wrap. */
module Traces {

  const TWO64: int := 0x1_0000_0000_0000_0000

  type u64 = v: int | 0 <= v < TWO64

  function Wrap(v: int): u64 {
    v % TWO64
  }

  datatype GoState = GoUndetermined | GoNotExist | GoRunnable | GoRunning | GoWaiting | GoSyscall

  datatype Resource = Goroutine(id: int, from: GoState, to: GoState) | OtherResource

  datatype Attr = Attr(name: string, value: u64)

  datatype Kind =
    | StateTransition(resource: Resource)
    | Metric(name: string, value: u64)
    | RangeEnd(attrs: seq<Attr>)
    | OtherKind

  datatype Event = Event(time: int, kind: Kind)

  /** What the trace reader delivers: no header, or events up to the end or up to a broken one. */
  datatype Trace = BadHeader | Trace(events: seq<Event>, intact: bool)

  datatype Results = Results(
    time: int, createdGoroutines: int, activeGoroutines: int,
    allocatedHeap: u64, maxHeap: u64, lastHeap: u64, gced: u64)

  datatype Reading = Read(results: Results) | Failed

  const HEAP: string := "/memory/classes/heap/objects:bytes"

  /* What the events say. */

  function Init<T>(s: seq<T>): seq<T>
    requires s != []
  {
    s[..|s| - 1]
  }

  function Last<T>(s: seq<T>): T
    requires s != []
  {
    s[|s| - 1]
  }

  /** The heap size an event reports, if any. */
  function HeapIn(e: Event): seq<u64> {
    if e.kind.Metric? && e.kind.name == HEAP then [e.kind.value] else []
  }

  /** The heap sizes reported, in order. */
  function Heaps(events: seq<Event>): seq<u64> {
    if events == [] then [] else Heaps(Init(events)) + HeapIn(Last(events))
  }

  function LastHeap(heaps: seq<u64>): u64 {
    if heaps == [] then 0 else Last(heaps)
  }

  function MaxHeap(heaps: seq<u64>): u64 {
    if heaps == [] then 0
    else if Last(heaps) > MaxHeap(Init(heaps)) then Last(heaps) else MaxHeap(Init(heaps))
  }

  /** All growth and all shrinkage of the heap between consecutive reports, from an empty heap on. */
  function Grown(heaps: seq<u64>): nat {
    if heaps == [] then 0 else
      var before, now := LastHeap(Init(heaps)), Last(heaps);
      Grown(Init(heaps)) + if before < now then now - before else 0
  }

  function Shrunk(heaps: seq<u64>): nat {
    if heaps == [] then 0 else
      var before, now := LastHeap(Init(heaps)), Last(heaps);
      Shrunk(Init(heaps)) + if now < before then before - now else 0
  }

  function Reclaimed(attrs: seq<Attr>): nat {
    if attrs == [] then 0 else
      Reclaimed(Init(attrs)) +
      if Last(attrs).name == "bytes reclaimed" || Last(attrs).name == "bytes swept" then Last(attrs).value else 0
  }

  function Collected(events: seq<Event>): nat {
    if events == [] then 0 else
      Collected(Init(events)) + if Last(events).kind.RangeEnd? then Reclaimed(Last(events).kind.attrs) else 0
  }

  predicate IsShift(e: Event) {
    e.kind.StateTransition? && e.kind.resource.Goroutine?
  }

  predicate IsBirth(e: Event) {
    IsShift(e) && e.kind.resource.from == GoNotExist && e.kind.resource.to != GoUndetermined
  }

  predicate IsDeath(e: Event) {
    IsShift(e) && e.kind.resource.from != GoNotExist && e.kind.resource.to == GoNotExist
  }

  function Births(events: seq<Event>): nat {
    if events == [] then 0 else Births(Init(events)) + if IsBirth(Last(events)) then 1 else 0
  }

  function Deaths(events: seq<Event>): nat {
    if events == [] then 0 else Deaths(Init(events)) + if IsDeath(Last(events)) then 1 else 0
  }

  /** The first time that is not zero: zero stands for a start not seen yet. */
  function Started(events: seq<Event>): int {
    if events == [] then 0
    else if Started(Init(events)) != 0 then Started(Init(events)) else Last(events).time
  }

  function Taken(events: seq<Event>): int {
    (if events == [] then 0 else Last(events).time) - Started(events)
  }

  lemma OneMore(past: seq<Event>, e: Event)
    ensures var all := past + [e];
      && Heaps(all) == Heaps(past) + HeapIn(e)
      && Births(all) == Births(past) + (if IsBirth(e) then 1 else 0)
      && Deaths(all) == Deaths(past) + (if IsDeath(e) then 1 else 0)
      && Collected(all) == Collected(past) + (if e.kind.RangeEnd? then Reclaimed(e.kind.attrs) else 0)
      && Started(all) == (if Started(past) != 0 then Started(past) else e.time)
      && Taken(all) == e.time - Started(all)
  {
    assert Init(past + [e]) == past;
  }

  lemma OneMoreHeap(heaps: seq<u64>, h: u64)
    ensures LastHeap(heaps + [h]) == h
    ensures MaxHeap(heaps + [h]) == if h > MaxHeap(heaps) then h else MaxHeap(heaps)
    ensures Grown(heaps + [h]) == Grown(heaps) + if LastHeap(heaps) < h then h - LastHeap(heaps) else 0
  {
    assert Init(heaps + [h]) == heaps;
  }

  /* The program. */

  method AddReclaimed(gced: u64, attrs: seq<Attr>, ghost before: nat) returns (r: u64)
    requires gced == Wrap(before)
    ensures r == Wrap(before + Reclaimed(attrs))
  {
    r := gced;
    for k := 0 to |attrs|
      invariant r == Wrap(before + Reclaimed(attrs[..k]))
    {
      assert Init(attrs[..k + 1]) == attrs[..k];
      if attrs[k].name == "bytes reclaimed" || attrs[k].name == "bytes swept" {
        WrapSum(before + Reclaimed(attrs[..k]), attrs[k].value);
        r := Wrap(r + attrs[k].value);
      }
    }
    assert attrs[..|attrs|] == attrs;
  }

  method TracesToResults(trace: Trace) returns (r: Reading)
    ensures r == Failed <==> trace == BadHeader || !trace.intact
    ensures r.Read? ==>
      var events, heaps := trace.events, Heaps(trace.events);
      && r.results.time == Taken(events)
      && r.results.createdGoroutines == Births(events)
      && r.results.activeGoroutines == Births(events) - Deaths(events)
      && r.results.lastHeap == LastHeap(heaps) && r.results.maxHeap == MaxHeap(heaps)
      && r.results.allocatedHeap == Wrap(LastHeap(heaps) + Shrunk(heaps))
      && r.results.gced == Wrap(Collected(events))
      && r.results.gced == Wrap(ValueOf(AttrsOf(events), "bytes reclaimed") + ValueOf(AttrsOf(events), "bytes swept"))
  {
    hide Heaps, Births, Deaths, Collected, Started, Wrap, LastHeap, MaxHeap, Grown, Shrunk, Reclaimed;
    hide AttrsOf, ValueOf;
    if trace == BadHeader {
      return Failed;
    }
    var createdGoroutines, activeGoroutines := 0, 0;
    var maxHeap: u64, allocatedHeap: u64, lastHeap: u64, gced: u64 := 0, 0, 0, 0;
    var startedAt, lastEventAt := 0, 0;
    NoEvents();
    for i := 0 to |trace.events|
      invariant createdGoroutines == Births(trace.events[..i])
      invariant activeGoroutines == Births(trace.events[..i]) - Deaths(trace.events[..i])
      invariant lastHeap == LastHeap(Heaps(trace.events[..i])) && maxHeap == MaxHeap(Heaps(trace.events[..i]))
      invariant allocatedHeap == Wrap(Grown(Heaps(trace.events[..i])))
      invariant gced == Wrap(Collected(trace.events[..i]))
      invariant startedAt == Started(trace.events[..i]) && lastEventAt - startedAt == Taken(trace.events[..i])
    {
      var ev := trace.events[i];
      ghost var past := trace.events[..i];
      assert trace.events[..i + 1] == past + [ev];
      OneMore(past, ev);
      assert Heaps(past) + [] == Heaps(past);
      lastEventAt := ev.time;
      if startedAt == 0 {
        startedAt := ev.time;
      }
      if ev.kind.StateTransition? {
        if ev.kind.resource.Goroutine? {
          var from, to := ev.kind.resource.from, ev.kind.resource.to;
          if from == GoNotExist && to != GoUndetermined {
            createdGoroutines := createdGoroutines + 1;
            activeGoroutines := activeGoroutines + 1;
          }
          if from != GoNotExist && to == GoNotExist {
            activeGoroutines := activeGoroutines - 1;
          }
        }
      }
      if ev.kind.Metric? {
        if ev.kind.name == HEAP {
          var heap := ev.kind.value;
          OneMoreHeap(Heaps(past), heap);
          if lastHeap < heap {
            WrapSum(Grown(Heaps(past)), heap - lastHeap);
            allocatedHeap := Wrap(allocatedHeap + (heap - lastHeap));
          }
          if heap > maxHeap {
            maxHeap := heap;
          }
          lastHeap := heap;
        }
      }
      if ev.kind.RangeEnd? {
        gced := AddReclaimed(gced, ev.kind.attrs, Collected(past));
      }
    }
    assert trace.events[..|trace.events|] == trace.events;
    if !trace.intact {
      return Failed;
    }
    Telescopes(Heaps(trace.events));
    CollectedByName(trace.events);
    return Read(Results(
      lastEventAt - startedAt, createdGoroutines, activeGoroutines, allocatedHeap, maxHeap, lastHeap, gced));
  }

  lemma NoEvents()
    ensures Births([]) == 0 && Deaths([]) == 0 && Heaps([]) == [] && LastHeap([]) == MaxHeap([]) == Wrap(Grown([])) == 0
    ensures Wrap(Collected([])) == 0 && Started([]) == Taken([]) == 0
  {
  }

  lemma WrapSum(a: nat, b: nat)
    ensures Wrap(Wrap(a) + b) == Wrap(a + b)
  {
    var q, r := a / TWO64, a % TWO64;
    assert a + b == q * TWO64 + (r + b);
    SameRemainder(q, r + b);
  }

  lemma SameRemainder(q: int, v: int)
    ensures (q * TWO64 + v) % TWO64 == v % TWO64
  {
  }

  // ---- the collected bytes, the heap reports and the goroutines, event by event ----

  /** All attributes of the ends of ranges, in order. */
  function AttrsOf(events: seq<Event>): seq<Attr> {
    if events == [] then []
    else AttrsOf(Init(events)) + if Last(events).kind.RangeEnd? then Last(events).kind.attrs else []
  }

  /** The values of the attributes of one name, added up. */
  function ValueOf(attrs: seq<Attr>, name: string): nat {
    if attrs == [] then 0
    else ValueOf(Init(attrs), name) + if Last(attrs).name == name then Last(attrs).value else 0
  }

  lemma {:induction false} ReclaimedByName(attrs: seq<Attr>)
    ensures Reclaimed(attrs) == ValueOf(attrs, "bytes reclaimed") + ValueOf(attrs, "bytes swept")
  {
    if attrs == [] {
    } else {
      ReclaimedByName(Init(attrs));
    }
  }

  lemma {:induction false} ValueOfConcat(a: seq<Attr>, b: seq<Attr>, name: string)
    ensures ValueOf(a + b, name) == ValueOf(a, name) + ValueOf(b, name)
  {
    if b == [] {
      assert a + b == a;
    } else {
      ValueOfConcat(a, Init(b), name);
      assert Init(a + b) == a + Init(b) && Last(a + b) == Last(b);
    }
  }

  /** What was collected is all that was reclaimed and all that was swept, and nothing else. */
  lemma {:induction false} CollectedByName(events: seq<Event>)
    ensures Collected(events) ==
      ValueOf(AttrsOf(events), "bytes reclaimed") + ValueOf(AttrsOf(events), "bytes swept")
  {
    if events == [] {
    } else {
      CollectedByName(Init(events));
      var attrs := if Last(events).kind.RangeEnd? then Last(events).kind.attrs else [];
      ReclaimedByName(attrs);
      ValueOfConcat(AttrsOf(Init(events)), attrs, "bytes reclaimed");
      ValueOfConcat(AttrsOf(Init(events)), attrs, "bytes swept");
    }
  }

  lemma ValueWithout(b: seq<Attr>, i: nat, name: string)
    requires i < |b|
    ensures ValueOf(b, name) == ValueOf(b[..i] + b[i + 1..], name) + if b[i].name == name then b[i].value else 0
  {
    var x := [b[i]];
    assert b == (b[..i] + x) + b[i + 1..];
    ValueOfConcat(b[..i] + x, b[i + 1..], name);
    ValueOfConcat(b[..i], x, name);
    ValueOfConcat(b[..i], b[i + 1..], name);
    assert Init(x) == [];
  }

  lemma RestOfSame(a: seq<Attr>, b: seq<Attr>) returns (i: nat)
    requires a != [] && multiset(a) == multiset(b)
    ensures i < |b| && b[i] == Last(a) && multiset(b[..i] + b[i + 1..]) == multiset(Init(a))
  {
    var x := Last(a);
    assert a == Init(a) + [x] && x in multiset(b);
    i :| 0 <= i < |b| && b[i] == x;
    CutOut(b, i);
    CutOut(a, |a| - 1);
    assert a[..|a| - 1] + a[|a|..] == Init(a);
  }

  lemma CutOut(b: seq<Attr>, i: nat)
    requires i < |b|
    ensures multiset(b[..i] + b[i + 1..]) == multiset(b) - multiset{b[i]}
  {
    assert b == b[..i] + [b[i]] + b[i + 1..];
  }

  lemma {:induction false} ValueForgetsOrder(a: seq<Attr>, b: seq<Attr>, name: string)
    requires multiset(a) == multiset(b)
    ensures ValueOf(a, name) == ValueOf(b, name)
    decreases |a|
  {
    if a == [] {
      assert |b| == |multiset(b)| == 0;
    } else {
      var i := RestOfSame(a, b);
      ValueForgetsOrder(Init(a), b[..i] + b[i + 1..], name);
      ValueWithout(b, i, name);
    }
  }

  /** Nor does the order of the events or of their attributes matter. */
  lemma CollectedForgetsOrder(a: seq<Event>, b: seq<Event>)
    requires multiset(AttrsOf(a)) == multiset(AttrsOf(b))
    ensures Collected(a) == Collected(b)
  {
    CollectedByName(a);
    CollectedByName(b);
    ValueForgetsOrder(AttrsOf(a), AttrsOf(b), "bytes reclaimed");
    ValueForgetsOrder(AttrsOf(a), AttrsOf(b), "bytes swept");
  }

  /** A heap report is a metric of that one name; nothing else is. */
  lemma {:induction false} HeapReports(events: seq<Event>, h: u64)
    ensures h in Heaps(events) <==>
      exists e :: e in events && e.kind == Metric("/memory/classes/heap/objects:bytes", h)
    ensures |Heaps(events)| == |HeapEvents(events)|
  {
    if events == [] {
    } else {
      HeapReports(Init(events), h);
      assert events == Init(events) + [Last(events)];
      assert Last(events) in events;
    }
  }

  function HeapEvents(events: seq<Event>): seq<Event> {
    if events == [] then []
    else
      var front, e := HeapEvents(Init(events)), Last(events);
      if e.kind.Metric? && e.kind.name == "/memory/classes/heap/objects:bytes" then front + [e] else front
  }

  /** The i-th report is the value of the i-th event of that kind. */
  lemma {:induction false} HeapReportsInOrder(events: seq<Event>)
    ensures |Heaps(events)| == |HeapEvents(events)|
    ensures forall i :: 0 <= i < |Heaps(events)| ==>
      HeapEvents(events)[i].kind.Metric? && Heaps(events)[i] == HeapEvents(events)[i].kind.value
  {
    if events == [] {
    } else {
      HeapReportsInOrder(Init(events));
    }
  }

  /** A goroutine is born when it comes to exist in a known state, and dies when it ceases to. */
  lemma ShiftsCount(past: seq<Event>, time: int, id: int, from: GoState, to: GoState)
    ensures var all := past + [Event(time, StateTransition(Goroutine(id, from, to)))];
      && (Births(all) == Births(past) + if from == GoNotExist && to != GoUndetermined then 1 else 0)
      && (Deaths(all) == Deaths(past) + if from != GoNotExist && to == GoNotExist then 1 else 0)
  {
    assert Init(past + [Event(time, StateTransition(Goroutine(id, from, to)))]) == past;
  }

  lemma OthersDoNotCount(past: seq<Event>, e: Event)
    requires !(e.kind.StateTransition? && e.kind.resource.Goroutine?)
    ensures Births(past + [e]) == Births(past) && Deaths(past + [e]) == Deaths(past)
  {
    assert Init(past + [e]) == past;
  }

  /* The heap. */

  /** Growth is what is left plus what went away. */
  lemma {:induction false} Telescopes(heaps: seq<u64>)
    ensures Grown(heaps) == LastHeap(heaps) + Shrunk(heaps)
  {
    if heaps == [] {
    } else {
      Telescopes(Init(heaps));
    }
  }

  lemma {:induction false} HeapOrder(heaps: seq<u64>)
    ensures LastHeap(heaps) <= MaxHeap(heaps) <= Grown(heaps)
    ensures forall h :: h in heaps ==> h <= MaxHeap(heaps)
    ensures heaps != [] ==> MaxHeap(heaps) in heaps
  {
    if heaps == [] {
    } else {
      HeapOrder(Init(heaps));
      Telescopes(Init(heaps));
      assert heaps == Init(heaps) + [Last(heaps)];
    }
  }

  /** The reported allocation is the true one exactly if that fits 64 bits, and then it is at least the maximum. */
  lemma AllocationIsExactIff(heaps: seq<u64>)
    ensures Wrap(LastHeap(heaps) + Shrunk(heaps)) == Grown(heaps) <==> LastHeap(heaps) + Shrunk(heaps) < TWO64
    ensures LastHeap(heaps) + Shrunk(heaps) < TWO64 ==>
      LastHeap(heaps) <= MaxHeap(heaps) <= Wrap(LastHeap(heaps) + Shrunk(heaps))
  {
    hide *;
    Telescopes(heaps);
    HeapOrder(heaps);
    WrapIsExactIff(LastHeap(heaps) + Shrunk(heaps));
  }

  /** A heap that fills the address space, empties and grows by one byte: the report is zero. */
  lemma AllocationCanWrap()
    ensures var heaps: seq<u64> := [TWO64 - 1, 0, 1];
      Grown(heaps) == TWO64 && Wrap(LastHeap(heaps) + Shrunk(heaps)) == 0
  {
    var heaps: seq<u64> := [TWO64 - 1, 0, 1];
    var one: seq<u64>, two: seq<u64> := [TWO64 - 1], [TWO64 - 1, 0];
    assert Init(heaps) == two && Init(two) == one && Init(one) == [];
    assert Grown(one) == TWO64 - 1 && Grown(two) == TWO64 - 1;
    Telescopes(heaps);
  }

  lemma WrapIsExactIff(v: nat)
    ensures Wrap(v) == v <==> v < TWO64
  {
  }

  /* The goroutines. */

  /** The last known state of each goroutine. */
  function States(events: seq<Event>): map<int, GoState> {
    if events == [] then map[]
    else if !IsShift(Last(events)) then States(Init(events))
    else States(Init(events))[Last(events).kind.resource.id := Last(events).kind.resource.to]
  }

  function LiveIn(states: map<int, GoState>): set<int> {
    set id | id in states && states[id] != GoNotExist
  }

  function Live(events: seq<Event>): set<int> {
    LiveIn(States(events))
  }

  /** Goroutines whose first transition comes from an unknown state: they are older than the trace. */
  function Older(events: seq<Event>): set<int> {
    if events == [] then {}
    else if !IsShift(Last(events)) then Older(Init(events))
    else
      var shift := Last(events).kind.resource;
      Older(Init(events)) + if shift.id !in States(Init(events)) && shift.from == GoUndetermined then {shift.id} else {}
  }

  /** A possible next transition: it starts where the goroutine's last one ended and ends in another known state. */
  ghost predicate Continues(past: seq<Event>, e: Event) {
    IsShift(e) ==>
      var shift := e.kind.resource;
      && shift.to != GoUndetermined && (shift.from == GoNotExist ==> shift.to != GoNotExist)
      && (shift.id in States(past) ==> shift.from == States(past)[shift.id])
      && (shift.id !in States(past) ==> shift.from in {GoNotExist, GoUndetermined})
  }

  ghost predicate Chained(events: seq<Event>) {
    events != [] ==> Chained(Init(events)) && Continues(Init(events), Last(events))
  }

  lemma OneState(states: map<int, GoState>, id: int, to: GoState)
    ensures |LiveIn(states[id := to])| ==
      |LiveIn(states)| + (if to != GoNotExist then 1 else 0) - if id in LiveIn(states) then 1 else 0
  {
    var others := LiveIn(states) - {id};
    assert LiveIn(states) == if id in LiveIn(states) then others + {id} else others;
    assert LiveIn(states[id := to]) == if to != GoNotExist then others + {id} else others;
  }

  /** Births less deaths are the live goroutines less those that were there before the trace. */
  lemma {:induction false} LiveGoroutines(events: seq<Event>)
    requires Chained(events)
    ensures Births(events) - Deaths(events) == |Live(events)| - |Older(events)|
    ensures Older(events) <= States(events).Keys
    ensures forall id :: id in States(events) ==> States(events)[id] != GoUndetermined
  {
    if events == [] {
    } else {
      var past := Init(events);
      LiveGoroutines(past);
      if IsShift(Last(events)) {
        var shift := Last(events).kind.resource;
        OneState(States(past), shift.id, shift.to);
        assert Older(past) + {} == Older(past);
      }
    }
  }

  /** ActiveGoroutines counts the live ones exactly if no goroutine is older than the trace. */
  lemma ActiveIsExactIff(events: seq<Event>)
    requires Chained(events)
    ensures Births(events) - Deaths(events) == |Live(events)| <==> Older(events) == {}
    ensures Births(events) - Deaths(events) <= |Live(events)|
  {
    LiveGoroutines(events);
  }

  /** A trace that begins with a running goroutine: one is live, none is counted. */
  const OLDER_GOROUTINE: seq<Event> := [Event(1, StateTransition(Goroutine(7, GoUndetermined, GoRunning)))]

  lemma OlderGoroutineIsNotCounted()
    ensures Chained(OLDER_GOROUTINE)
    ensures Births(OLDER_GOROUTINE) - Deaths(OLDER_GOROUTINE) == 0 && Live(OLDER_GOROUTINE) == {7}
  {
    assert Init(OLDER_GOROUTINE) == [];
  }

  /* The time. */

  predicate Ordered(events: seq<Event>) {
    && (forall i :: 0 <= i < |events| ==> events[i].time >= 0)
    && forall i, j :: 0 <= i < j < |events| ==> events[i].time <= events[j].time
  }

  lemma {:induction false} StartedIsFirst(events: seq<Event>)
    requires events != [] && Ordered(events) && events[0].time != 0
    ensures Started(events) == events[0].time
  {
    if |events| <= 1 {
    } else {
      StartedIsFirst(Init(events));
    }
  }

  lemma {:induction false} StartedLate(events: seq<Event>)
    requires Ordered(events)
    ensures 0 <= Started(events) && (events != [] ==> Started(events) <= Last(events).time)
    ensures Started(events) == 0 <==> forall e :: e in events ==> e.time == 0
  {
    if events == [] {
    } else {
      StartedLate(Init(events));
      assert events == Init(events) + [Last(events)];
    }
  }

  /** The time is the span of the trace exactly if its first event is not at zero, or all are. */
  lemma TimeIsSpanIff(events: seq<Event>)
    requires events != [] && Ordered(events)
    ensures Taken(events) == Last(events).time - events[0].time <==>
      events[0].time != 0 || forall e :: e in events ==> e.time == 0
    ensures 0 <= Taken(events) <= Last(events).time - events[0].time
  {
    StartedLate(events);
    if events[0].time != 0 { StartedIsFirst(events); }
  }

  /** A trace whose first event is at time zero: its first stretch is not counted. */
  lemma StartAtZeroIsMissed()
    ensures var events := [Event(0, OtherKind), Event(5, OtherKind), Event(7, OtherKind)];
      Ordered(events) && Taken(events) == 2
  {
    var a, b, c := Event(0, OtherKind), Event(5, OtherKind), Event(7, OtherKind);
    assert Init([a, b, c]) == [a, b] && Init([a, b]) == [a] && Init([a]) == [];
  }
}
