/**
 Reading the benchmark results into chart points: one pass over all (hosts, msgs, iteration)
 combinations, a new point starting where the iteration number falls.
 */
module Charts {
  import opened Medians

  datatype Cell = Cell(hosts: int, msgs: int)

  /** One test run. */
  datatype Combo = Combo(cell: Cell, iter: int)

  datatype Outcome = Value(v: int) | NoValue

  datatype Point = Point(cell: Cell, y: int)

  datatype XY = XY(x: int, y: int)

  type Lines = map<int, seq<XY>>

  /** Failures adds the values up, Typical truncates their median. */
  datatype Reduction = Failures | Typical

  datatype Chart = Chart(result: Reduction, shouldParse: (string, Combo) -> bool)

  /** What a chart reads of one version: which runs it parses and what its getter makes of their results. */
  datatype Series = Series(result: Reduction, parses: Combo -> bool, getter: Combo -> Outcome)

  function SeriesOf(chart: Chart, ver: string, getter: (string, Combo) -> Outcome): Series {
    Series(chart.result, c => chart.shouldParse(ver, c), c => getter(ver, c))
  }

  /* The combinations. */

  datatype Bounds = Bounds(
    hostsStart: int, hostsEnd: int, hostsStep: int, msgsStart: int, msgsEnd: int, msgsStep: int, iters: nat)
  {
    predicate Steps() {
      hostsStep > 0 && msgsStep > 0
    }
  }

  function MsgsFrom(b: Bounds, hosts: int, msgs: int): seq<Cell>
    requires b.Steps()
    decreases b.msgsEnd - msgs
  {
    if msgs > b.msgsEnd then [] else [Cell(hosts, msgs)] + MsgsFrom(b, hosts, msgs + b.msgsStep)
  }

  function HostsFrom(b: Bounds, hosts: int): seq<Cell>
    requires b.Steps()
    decreases b.hostsEnd - hosts
  {
    if hosts > b.hostsEnd then [] else MsgsFrom(b, hosts, b.msgsStart) + HostsFrom(b, hosts + b.hostsStep)
  }

  /** All cells in the order the loops reach them. */
  function Cells(b: Bounds): seq<Cell>
    requires b.Steps()
  {
    HostsFrom(b, b.hostsStart)
  }

  /** The first n iterations of a cell. */
  function Block(c: Cell, n: nat): seq<Combo> {
    seq(n, i => Combo(c, i + 1))
  }

  function CombosOf(cells: seq<Cell>, iters: nat): seq<Combo> {
    if cells == [] then [] else CombosOf(cells[..|cells| - 1], iters) + Block(cells[|cells| - 1], iters)
  }

  lemma CombosSnoc(cells: seq<Cell>, c: Cell, iters: nat)
    ensures CombosOf(cells + [c], iters) == CombosOf(cells, iters) + Block(c, iters)
  {
    assert (cells + [c])[..|cells|] == cells;
  }

  lemma Regroup(done: seq<Cell>, c: Cell, row: seq<Cell>, rest: seq<Cell>)
    ensures done + ([c] + row) + rest == (done + [c]) + row + rest
  {
  }

  method GetAllTestCombos(b: Bounds) returns (ret: seq<Combo>)
    requires b.Steps()
    ensures ret == CombosOf(Cells(b), b.iters)
    ensures forall c :: c in ret <==> OnGrid(b, c.cell) && 1 <= c.iter <= b.iters
    ensures CombosInOrder(ret)
  {
    hide CombosOf, Block, OnGrid, CombosInOrder;
    ret := [];
    ghost var done := [];
    assert ret == CombosOf(done, b.iters) by { NoCells(b.iters); }
    var h := b.hostsStart;
    while h <= b.hostsEnd
      invariant done + HostsFrom(b, h) == Cells(b)
      invariant ret == CombosOf(done, b.iters)
    {
      ghost var rest := HostsFrom(b, h + b.hostsStep);
      var m := b.msgsStart;
      while m <= b.msgsEnd
        invariant done + MsgsFrom(b, h, m) + rest == Cells(b)
        invariant ret == CombosOf(done, b.iters)
      {
        var c := Cell(h, m);
        EmptyBlock(c);
        for i := 1 to b.iters + 1
          invariant ret == CombosOf(done, b.iters) + Block(c, i - 1)
        {
          BlockSnoc(c, i);
          ret := ret + [Combo(c, i)];
        }
        CombosSnoc(done, c, b.iters);
        Regroup(done, c, MsgsFrom(b, h, m + b.msgsStep), rest);
        done := done + [c];
        m := m + b.msgsStep;
      }
      h := h + b.hostsStep;
    }
    assert done == Cells(b);
    AllCombos(b);
  }

  lemma AllCombos(b: Bounds)
    requires b.Steps()
    ensures forall c :: c in CombosOf(Cells(b), b.iters) <==> OnGrid(b, c.cell) && 1 <= c.iter <= b.iters
    ensures CombosInOrder(CombosOf(Cells(b), b.iters))
  {
    forall c ensures c in CombosOf(Cells(b), b.iters) <==> OnGrid(b, c.cell) && 1 <= c.iter <= b.iters {
      ComboMembers(Cells(b), b.iters, c);
      CellMembers(b, c.cell);
    }
    CellsAscend(b);
    CombosAscend(Cells(b), b.iters);
  }

  /** The cell lies on the grid of the bounds: whole steps from the starts, up to the ends. */
  ghost predicate OnGrid(b: Bounds, c: Cell) {
    Reached(b.hostsStart, b.hostsStep, b.hostsEnd, c.hosts) && Reached(b.msgsStart, b.msgsStep, b.msgsEnd, c.msgs)
  }

  ghost predicate Reached(start: int, step: int, end: int, x: int) {
    exists k: nat :: GridStep(start, step, end, k, x)
  }

  ghost predicate GridStep(start: int, step: int, end: int, k: nat, x: int) {
    x == start + k * step && x <= end
  }

  predicate CellBefore(c: Cell, d: Cell) {
    c.hosts < d.hosts || (c.hosts == d.hosts && c.msgs < d.msgs)
  }

  predicate ComboBefore(c: Combo, d: Combo) {
    CellBefore(c.cell, d.cell) || (c.cell == d.cell && c.iter < d.iter)
  }

  lemma FromHere(start: int, step: int, end: int, x: int)
    requires step > 0
    ensures Reached(start, step, end, x) <==> x == start <= end || Reached(start + step, step, end, x)
    ensures Reached(start, step, end, x) ==> start <= x <= end
  {
    var next := start + step;
    if k: nat :| GridStep(start, step, end, k, x) {
      Steps(step, k);
      if k > 0 { assert GridStep(next, step, end, k - 1, x); }
    }
    if k: nat :| GridStep(next, step, end, k, x) {
      Steps(step, k + 1);
      assert GridStep(start, step, end, k + 1, x);
    }
    if x == start <= end { assert GridStep(start, step, end, 0, x); }
  }

  lemma Steps(step: int, k: nat)
    requires step > 0
    ensures k * step >= 0 && (k > 0 ==> k * step == (k - 1) * step + step)
  {
  }

  lemma {:induction false} MsgsMembers(b: Bounds, hosts: int, msgs: int, c: Cell)
    requires b.Steps()
    ensures c in MsgsFrom(b, hosts, msgs) <==>
      c.hosts == hosts && Reached(msgs, b.msgsStep, b.msgsEnd, c.msgs)
    decreases b.msgsEnd - msgs
  {
    hide Reached;
    FromHere(msgs, b.msgsStep, b.msgsEnd, c.msgs);
    if msgs > b.msgsEnd {
    } else {
      MsgsMembers(b, hosts, msgs + b.msgsStep, c);
    }
  }

  lemma {:induction false} HostsMembers(b: Bounds, hosts: int, c: Cell)
    requires b.Steps()
    ensures c in HostsFrom(b, hosts) <==>
      Reached(hosts, b.hostsStep, b.hostsEnd, c.hosts) && Reached(b.msgsStart, b.msgsStep, b.msgsEnd, c.msgs)
    decreases b.hostsEnd - hosts
  {
    hide Reached, MsgsFrom;
    FromHere(hosts, b.hostsStep, b.hostsEnd, c.hosts);
    if hosts > b.hostsEnd {
    } else {
      MsgsMembers(b, hosts, b.msgsStart, c);
      HostsMembers(b, hosts + b.hostsStep, c);
    }
  }

  /** The cells are exactly those on the grid. */
  lemma CellMembers(b: Bounds, c: Cell)
    requires b.Steps()
    ensures c in Cells(b) <==> OnGrid(b, c)
  {
    HostsMembers(b, b.hostsStart, c);
  }

  lemma {:induction false} MsgsAscend(b: Bounds, hosts: int, msgs: int)
    requires b.Steps()
    ensures forall i, j :: 0 <= i < j < |MsgsFrom(b, hosts, msgs)| ==>
      CellBefore(MsgsFrom(b, hosts, msgs)[i], MsgsFrom(b, hosts, msgs)[j])
    decreases b.msgsEnd - msgs
  {
    if msgs > b.msgsEnd {
    } else {
      MsgsAscend(b, hosts, msgs + b.msgsStep);
      var rest := MsgsFrom(b, hosts, msgs + b.msgsStep);
      forall j | 0 <= j < |rest| ensures CellBefore(Cell(hosts, msgs), rest[j]) {
        MsgsMembers(b, hosts, msgs + b.msgsStep, rest[j]);
        FromHere(msgs + b.msgsStep, b.msgsStep, b.msgsEnd, rest[j].msgs);
      }
    }
  }

  lemma {:induction false} HostsAscend(b: Bounds, hosts: int)
    requires b.Steps()
    ensures forall i, j :: 0 <= i < j < |HostsFrom(b, hosts)| ==>
      CellBefore(HostsFrom(b, hosts)[i], HostsFrom(b, hosts)[j])
    decreases b.hostsEnd - hosts
  {
    if hosts > b.hostsEnd {
    } else {
      var row, rest := MsgsFrom(b, hosts, b.msgsStart), HostsFrom(b, hosts + b.hostsStep);
      MsgsAscend(b, hosts, b.msgsStart);
      HostsAscend(b, hosts + b.hostsStep);
      forall i, j | 0 <= i < |row| && 0 <= j < |rest| ensures CellBefore(row[i], rest[j]) {
        assert row[i] in row && rest[j] in rest;
        MsgsMembers(b, hosts, b.msgsStart, row[i]);
        HostsMembers(b, hosts + b.hostsStep, rest[j]);
        FromHere(hosts + b.hostsStep, b.hostsStep, b.hostsEnd, rest[j].hosts);
      }
      AscendingConcat(row, rest);
    }
  }

  lemma AscendingConcat(row: seq<Cell>, rest: seq<Cell>)
    requires forall i, j :: 0 <= i < j < |row| ==> CellBefore(row[i], row[j])
    requires forall i, j :: 0 <= i < j < |rest| ==> CellBefore(rest[i], rest[j])
    requires forall i, j :: 0 <= i < |row| && 0 <= j < |rest| ==> CellBefore(row[i], rest[j])
    ensures forall i, j :: 0 <= i < j < |row + rest| ==> CellBefore((row + rest)[i], (row + rest)[j])
  {
    hide CellBefore;
  }

  /** Hosts by hosts, and message count by message count within. */
  lemma CellsAscend(b: Bounds)
    requires b.Steps()
    ensures forall i, j :: 0 <= i < j < |Cells(b)| ==> CellBefore(Cells(b)[i], Cells(b)[j])
  {
    HostsAscend(b, b.hostsStart);
  }

  lemma {:induction false} ComboMembers(cells: seq<Cell>, iters: nat, c: Combo)
    ensures c in CombosOf(cells, iters) <==> c.cell in cells && 1 <= c.iter <= iters
  {
    if cells == [] {
    } else {
      var front, last := cells[..|cells| - 1], cells[|cells| - 1];
      ComboMembers(front, iters, c);
      assert cells == front + [last];
      BlockMembers(last, iters, c);
    }
  }

  lemma BlockMembers(cell: Cell, n: nat, c: Combo)
    ensures c in Block(cell, n) <==> c.cell == cell && 1 <= c.iter <= n
  {
    if c.cell == cell && 1 <= c.iter <= n { assert Block(cell, n)[c.iter - 1] == c; }
  }

  ghost predicate CombosInOrder(combos: seq<Combo>) {
    forall i, j :: 0 <= i < j < |combos| ==> ComboBefore(combos[i], combos[j])
  }

  lemma {:induction false} CombosAscend(cells: seq<Cell>, iters: nat)
    requires forall i, j :: 0 <= i < j < |cells| ==> CellBefore(cells[i], cells[j])
    ensures CombosInOrder(CombosOf(cells, iters))
  {
    hide CellBefore, ComboBefore, CombosInOrder;
    if cells == [] {
      NoCombos();
    } else {
      var front, last := cells[..|cells| - 1], cells[|cells| - 1];
      CombosAscend(front, iters);
      var before, block := CombosOf(front, iters), Block(last, iters);
      forall i, j | 0 <= i < |before| && 0 <= j < |block| ensures ComboBefore(before[i], block[j]) {
        assert before[i] in before;
        ComboMembers(front, iters, before[i]);
        var k :| 0 <= k < |front| && front[k] == before[i].cell;
        assert cells[k] == front[k];
        LaterCell(before[i], block[j]);
      }
      BlockAscends(last, iters);
      AscendingCombos(before, block);
    }
  }

  lemma LaterCell(c: Combo, d: Combo)
    requires CellBefore(c.cell, d.cell)
    ensures ComboBefore(c, d)
  {
  }

  lemma NoCombos()
    ensures CombosInOrder([])
  {
  }

  lemma BlockAscends(cell: Cell, n: nat)
    ensures CombosInOrder(Block(cell, n))
  {
  }

  lemma AscendingCombos(a: seq<Combo>, b: seq<Combo>)
    requires CombosInOrder(a) && CombosInOrder(b)
    requires forall i, j :: 0 <= i < |a| && 0 <= j < |b| ==> ComboBefore(a[i], b[j])
    ensures CombosInOrder(a + b)
  {
    hide ComboBefore;
  }

  lemma NoCells(iters: nat)
    ensures CombosOf([], iters) == []
  {
  }

  lemma EmptyBlock(c: Cell)
    ensures Block(c, 0) == []
  {
  }

  lemma BlockSnoc(c: Cell, n: nat)
    requires n > 0
    ensures Block(c, n) == Block(c, n - 1) + [Combo(c, n)]
  {
  }

  /* Reducing the values of one point. */

  function Total(values: seq<int>): int {
    if values == [] then 0 else Total(values[..|values| - 1]) + values[|values| - 1]
  }

  function ResultOf(result: Reduction, values: seq<int>): int
    requires values != []
  {
    match result
    case Failures => Total(values)
    case Typical => Truncated(MedianOf(values))
  }

  lemma {:induction false} TotalCons(x: int, s: seq<int>)
    ensures Total([x] + s) == x + Total(s)
  {
    if s == [] {
    } else {
      assert ([x] + s)[..|s|] == [x] + s[..|s| - 1];
      TotalCons(x, s[..|s| - 1]);
    }
  }

  lemma {:induction false} InsertTotal(x: int, s: seq<int>)
    ensures Total(Insert(x, s)) == x + Total(s)
  {
    TotalCons(x, s);
    if s == [] || x <= s[0] {
    } else {
      assert s == [s[0]] + s[1..];
      InsertTotal(x, s[1..]);
      TotalCons(s[0], s[1..]);
      TotalCons(s[0], Insert(x, s[1..]));
    }
  }

  lemma {:induction false} SortedTotal(s: seq<int>)
    ensures Total(Sorted(s)) == Total(s)
  {
    if s == [] {
    } else {
      assert s == [s[0]] + s[1..];
      SortedTotal(s[1..]);
      InsertTotal(s[0], Sorted(s[1..]));
      TotalCons(s[0], s[1..]);
    }
  }

  /** No reduction sees the order of the values: sorting them in place between two calls is harmless. */
  lemma ResultForgetsOrder(result: Reduction, s: seq<int>, t: seq<int>)
    requires s != [] && t != [] && multiset(s) == multiset(t)
    ensures ResultOf(result, s) == ResultOf(result, t)
  {
    SortedForgetsOrder(s, t);
    SortedTotal(s);
    SortedTotal(t);
  }

  /** A time or a size: the middle value, or the whole part of the mean of the two middle ones. */
  lemma TypicalValue(s: seq<int>)
    requires s != [] && forall v :: v in s ==> v >= 0
    ensures |Sorted(s)| == |s|
    ensures ResultOf(Typical, s) ==
      if |s| % 2 == 1 then Sorted(s)[|s| / 2] else (Sorted(s)[|s| / 2 - 1] + Sorted(s)[|s| / 2]) / 2
  {
    hide Sorted, MedianOf;
    MedianIsMiddle(s);
    SortedSorts(s);
    SameMembers(s, Sorted(s));
    var m, t := |s| / 2, Sorted(s);
    assert t[m] in t && t[m] >= 0;
    TruncatedIsNearer(MedianOf(s));
    if |s| % 2 == 0 {
      assert t[m - 1] in t && t[m - 1] >= 0;
      WholePart(MedianOf(s), t[m - 1] + t[m]);
    }
  }

  lemma WholePart(r: real, twice: nat)
    requires 2.0 * r == twice as real
    ensures Truncated(r) == twice / 2
  {
    TruncatedIsNearer(r);
    var k := Truncated(r);
    assert 2 * k <= twice < 2 * k + 2 by {
      assert (2 * k) as real <= twice as real < (2 * k + 2) as real;
    }
  }

  /** A failure rate: the number of failed runs, each of which counts one. */
  lemma FailuresAreCounted(s: seq<int>)
    requires s != [] && forall v :: v in s ==> v == 0 || v == 1
    ensures ResultOf(Failures, s) == multiset(s)[1]
  {
    forall i | 0 <= i < |s| ensures s[i] == 0 || s[i] == 1 {
      var v: int := s[i];
      assert v in s;
    }
    TotalOfOnes(s);
  }

  lemma {:induction false} TotalOfOnes(s: seq<int>)
    requires forall i :: 0 <= i < |s| ==> s[i] == 0 || s[i] == 1
    ensures Total(s) == multiset(s)[1]
  {
    if s == [] {
    } else {
      var front, last := s[..|s| - 1], s[|s| - 1];
      TotalOfOnes(front);
      assert s == front + [last];
    }
  }

  method Result(result: Reduction, values: array<int>, n: nat) returns (r: int)
    requires 0 < n <= values.Length
    modifies values
    ensures r == ResultOf(result, old(values[..n]))
    ensures multiset(values[..n]) == multiset(old(values[..n])) && values[n..] == old(values[n..])
  {
    match result
    case Failures =>
      r := 0;
      for i := 0 to n
        invariant r == Total(values[..i]) && values[..] == old(values[..])
      {
        assert values[..i + 1][..i] == values[..i];
        if values[i] != 0 {
          r := r + values[i];
        }
      }
      assert values[..n] == values[..][..n] && values[n..] == values[..][n..];
    case Typical =>
      SortedSorts(values[..n]);
      var m := Median(values, n);
      r := Truncated(m);
  }

  /* The streaming pass as a fold. */

  /** The last run read, the values gathered for its point, and the points emitted so far. */
  datatype Acc = Acc(prev: Combo, vals: seq<int>, points: seq<Point>)

  const START: Acc := Acc(Combo(Cell(0, 0), 0), [], [])

  function Taken(s: Series, c: Combo): seq<int> {
    match s.getter(c)
    case Value(v) => [v]
    case NoValue => []
  }

  function Emitted(s: Series, acc: Acc): Point
    requires acc.vals != []
  {
    Point(acc.prev.cell, ResultOf(s.result, acc.vals))
  }

  function Flushed(s: Series, acc: Acc): Acc
    requires acc.vals != []
  {
    acc.(vals := [], points := acc.points + [Emitted(s, acc)])
  }

  function Took(s: Series, acc: Acc, c: Combo): Acc {
    Acc(c, acc.vals + Taken(s, c), acc.points)
  }

  function Step(s: Series, acc: Acc, c: Combo): Acc {
    if !s.parses(c) then acc
    else if acc.prev.iter <= c.iter then Took(s, acc, c)
    else if |acc.vals| < 2 then acc
    else Took(s, Flushed(s, acc), c)
  }

  function Run(s: Series, combos: seq<Combo>): Acc {
    if combos == [] then START else Step(s, Run(s, combos[..|combos| - 1]), combos[|combos| - 1])
  }

  /** The last point has no successor to trigger it. */
  function Finish(s: Series, acc: Acc): seq<Point> {
    if |acc.vals| > 1 then acc.points + [Emitted(s, acc)] else acc.points
  }

  function Points(s: Series, b: Bounds): seq<Point>
    requires b.Steps()
  {
    Finish(s, Run(s, CombosOf(Cells(b), b.iters)))
  }

  lemma RunSnoc(s: Series, combos: seq<Combo>, c: Combo)
    ensures Run(s, combos + [c]) == Step(s, Run(s, combos), c)
  {
    assert (combos + [c])[..|combos|] == combos;
  }

  /* What the pass does, cell by cell. */

  /** The values of the parsed iterations of a cell, from the iteration lo to the n-th. */
  function ValuesFrom(s: Series, c: Cell, lo: int, n: nat): seq<int> {
    if n == 0 then []
    else ValuesFrom(s, c, lo, n - 1) + if s.parses(Combo(c, n)) && lo <= n then Taken(s, Combo(c, n)) else []
  }

  function Values(s: Series, c: Cell, n: nat): seq<int> {
    ValuesFrom(s, c, 0, n)
  }

  /** The first and the last parsed iteration among the first n, 0 if there is none. */
  function FirstParsed(s: Series, c: Cell, n: nat): nat {
    if n == 0 then 0
    else if FirstParsed(s, c, n - 1) != 0 then FirstParsed(s, c, n - 1)
    else if s.parses(Combo(c, n)) then n else 0
  }

  function LastParsed(s: Series, c: Cell, n: nat): nat {
    if n == 0 then 0 else if s.parses(Combo(c, n)) then n else LastParsed(s, c, n - 1)
  }

  lemma {:induction false} ParsedRange(s: Series, c: Cell, n: nat)
    ensures FirstParsed(s, c, n) <= LastParsed(s, c, n) <= n
    ensures FirstParsed(s, c, n) == 0 <==> LastParsed(s, c, n) == 0
  {
    if n == 0 {
    } else {
      ParsedRange(s, c, n - 1);
    }
  }

  /** No values lie beyond the last parsed iteration, and none are skipped before the first. */
  lemma {:induction false} ValuesInRange(s: Series, c: Cell, lo: int, n: nat)
    ensures lo > LastParsed(s, c, n) ==> ValuesFrom(s, c, lo, n) == []
    ensures lo <= FirstParsed(s, c, n) ==> ValuesFrom(s, c, lo, n) == Values(s, c, n)
    ensures FirstParsed(s, c, n) == 0 ==> ValuesFrom(s, c, lo, n) == []
    decreases n
  {
    if n == 0 {
    } else {
      ValuesInRange(s, c, lo, n - 1);
      ValuesInRange(s, c, 0, n - 1);
      ParsedRange(s, c, n - 1);
    }
  }

  /**
   The pass over the first n iterations of a cell. Where the iteration number falls below that of the
   last run read, a point is emitted if there are values enough; if not, the cell's iterations are
   skipped until they reach that number again, and the rest joins the leftovers.
   */
  function AfterCell(s: Series, acc: Acc, c: Cell, n: nat): Acc {
    var first, last := FirstParsed(s, c, n), LastParsed(s, c, n);
    if first == 0 then acc
    else if acc.prev.iter > first && |acc.vals| >= 2 then
      Acc(Combo(c, last), Values(s, c, n), acc.points + [Emitted(s, acc)])
    else if acc.prev.iter > last then acc
    else Acc(Combo(c, last), acc.vals + ValuesFrom(s, c, acc.prev.iter, n), acc.points)
  }

  function ByCells(s: Series, cells: seq<Cell>, iters: nat): Acc {
    if cells == [] then START else AfterCell(s, ByCells(s, cells[..|cells| - 1], iters), cells[|cells| - 1], iters)
  }

  lemma OneIteration(s: Series, acc: Acc, c: Cell, n: nat)
    requires n > 0
    ensures Step(s, AfterCell(s, acc, c, n - 1), Combo(c, n)) == AfterCell(s, acc, c, n)
  {
    hide ResultOf;
    ParsedRange(s, c, n - 1);
    ValuesInRange(s, c, acc.prev.iter, n - 1);
    ValuesInRange(s, c, 0, n - 1);
    if s.parses(Combo(c, n)) {
      assert LastParsed(s, c, n) == n;
      assert Values(s, c, n) == Values(s, c, n - 1) + Taken(s, Combo(c, n));
    } else {
      assert LastParsed(s, c, n) == LastParsed(s, c, n - 1) && FirstParsed(s, c, n) == FirstParsed(s, c, n - 1);
      assert Values(s, c, n) == Values(s, c, n - 1) + [];
    }
  }

  lemma {:induction false} BlockRun(s: Series, before: seq<Combo>, c: Cell, n: nat)
    ensures Run(s, before + Block(c, n)) == AfterCell(s, Run(s, before), c, n)
  {
    hide Run, AfterCell, Step;
    if n == 0 {
      assert before + Block(c, 0) == before;
      NoIterations(s, Run(s, before), c);
    } else {
      BlockRun(s, before, c, n - 1);
      assert before + Block(c, n) == (before + Block(c, n - 1)) + [Combo(c, n)];
      RunSnoc(s, before + Block(c, n - 1), Combo(c, n));
      OneIteration(s, Run(s, before), c, n);
    }
  }

  lemma NoIterations(s: Series, acc: Acc, c: Cell)
    ensures AfterCell(s, acc, c, 0) == acc
  {
  }

  /** Whatever is parsed and however many iterations there are, the pass works cell by cell. */
  lemma {:induction false} StreamIsByCells(s: Series, cells: seq<Cell>, iters: nat)
    ensures Run(s, CombosOf(cells, iters)) == ByCells(s, cells, iters)
  {
    if cells == [] {
    } else {
      var front, c := cells[..|cells| - 1], cells[|cells| - 1];
      StreamIsByCells(s, front, iters);
      BlockRun(s, CombosOf(front, iters), c, iters);
    }
  }

  /* When the grouping is right. */

  /** The cells of which anything is parsed: those that should have a point. */
  function Shown(s: Series, cells: seq<Cell>, iters: nat): seq<Cell> {
    if cells == [] then []
    else
      var front, c := Shown(s, cells[..|cells| - 1], iters), cells[|cells| - 1];
      if FirstParsed(s, c, iters) != 0 then front + [c] else front
  }

  predicate Enough(s: Series, c: Cell, iters: nat) {
    |Values(s, c, iters)| >= 2
  }

  predicate AllEnough(s: Series, cells: seq<Cell>, iters: nat) {
    forall c :: c in cells ==> Enough(s, c, iters)
  }

  /** The iteration number falls between the two cells, so the pass can tell them apart. */
  predicate Apart(s: Series, c: Cell, d: Cell, iters: nat) {
    LastParsed(s, c, iters) > FirstParsed(s, d, iters)
  }

  predicate AllApart(s: Series, cells: seq<Cell>, iters: nat) {
    forall i :: 0 <= i < |cells| - 1 ==> Apart(s, cells[i], cells[i + 1], iters)
  }

  /** One point per cell, in order, each reduced from the values of that cell alone. */
  function OwnPoints(s: Series, cells: seq<Cell>, iters: nat): seq<Point>
    requires AllEnough(s, cells, iters)
  {
    seq(|cells|, i requires 0 <= i < |cells| =>
      assert Enough(s, cells[i], iters);
      Point(cells[i], ResultOf(s.result, Values(s, cells[i], iters))))
  }

  lemma OwnPointsSnoc(s: Series, cells: seq<Cell>, c: Cell, iters: nat)
    ensures AllEnough(s, cells + [c], iters) <==> AllEnough(s, cells, iters) && Enough(s, c, iters)
    ensures AllEnough(s, cells + [c], iters) ==>
      OwnPoints(s, cells + [c], iters) ==
        OwnPoints(s, cells, iters) + [Point(c, ResultOf(s.result, Values(s, c, iters)))]
  {
  }

  lemma ApartSnoc(s: Series, cells: seq<Cell>, c: Cell, iters: nat)
    requires cells != []
    ensures AllApart(s, cells + [c], iters) <==>
      AllApart(s, cells, iters) && Apart(s, cells[|cells| - 1], c, iters)
  {
    var all := cells + [c];
    assert all[|cells| - 1] == cells[|cells| - 1] && all[|cells|] == c;
    if AllApart(s, all, iters) {
      forall i | 0 <= i < |cells| - 1 ensures Apart(s, cells[i], cells[i + 1], iters) {
        assert all[i] == cells[i] && all[i + 1] == cells[i + 1];
      }
    }
  }

  /** The state of the pass when no point is missing: all shown cells but the last have theirs. */
  predicate Complete(s: Series, acc: Acc, shown: seq<Cell>, iters: nat)
    requires shown != []
  {
    var front, c := shown[..|shown| - 1], shown[|shown| - 1];
    && AllEnough(s, front, iters) && AllApart(s, shown, iters)
    && acc == Acc(Combo(c, LastParsed(s, c, iters)), Values(s, c, iters), OwnPoints(s, front, iters))
  }

  /** One more shown cell completes a point exactly if the one before is complete, ends late and has enough. */
  lemma CompleteSnoc(s: Series, acc: Acc, shown: seq<Cell>, c: Cell, iters: nat)
    requires shown != [] && FirstParsed(s, c, iters) != 0
    requires Complete(s, acc, shown, iters) || |acc.points| < |shown| - 1
    ensures var acc', d := AfterCell(s, acc, c, iters), shown[|shown| - 1];
      && (Complete(s, acc', shown + [c], iters) || |acc'.points| < |shown|)
      && (|acc'.points| == |shown| ==>
           Complete(s, acc, shown, iters) && Enough(s, d, iters) && Apart(s, d, c, iters))
  {
    hide ResultOf, Values, AllEnough, AllApart, OwnPoints;
    var front, d := shown[..|shown| - 1], shown[|shown| - 1];
    assert shown == front + [d] && (shown + [c])[..|shown|] == shown;
    ApartSnoc(s, shown, c, iters);
    OwnPointsSnoc(s, front, d, iters);
    if Complete(s, acc, shown, iters) {
      OwnPointsLength(s, front, iters);
    }
  }

  lemma OwnPointsLength(s: Series, cells: seq<Cell>, iters: nat)
    requires AllEnough(s, cells, iters)
    ensures |OwnPoints(s, cells, iters)| == |cells|
  {
  }

  lemma FirstShown(s: Series, c: Cell, iters: nat)
    requires FirstParsed(s, c, iters) != 0
    ensures Complete(s, AfterCell(s, START, c, iters), [c], iters)
  {
    ParsedRange(s, c, iters);
    assert [c][..0] == [];
  }

  /** A point is missing for good as soon as one shown cell has too few values or runs into the next. */
  lemma {:induction false} OneShortMissesOne(s: Series, cells: seq<Cell>, iters: nat)
    ensures var acc, shown := ByCells(s, cells, iters), Shown(s, cells, iters);
      && (shown == [] ==> acc == START)
      && (shown != [] ==> Complete(s, acc, shown, iters) || |acc.points| < |shown| - 1)
      && (shown != [] && AllEnough(s, shown[..|shown| - 1], iters) && AllApart(s, shown, iters) ==>
           Complete(s, acc, shown, iters))
  {
    hide AfterCell, Complete, AllEnough, AllApart;
    if cells == [] {
    } else {
      var front, c := cells[..|cells| - 1], cells[|cells| - 1];
      OneShortMissesOne(s, front, iters);
      var shown := Shown(s, front, iters);
      if FirstParsed(s, c, iters) == 0 {
        NotShown(s, ByCells(s, front, iters), c, iters);
      } else if shown == [] {
        FirstShown(s, c, iters);
        assert Shown(s, cells, iters) == [c];
      } else {
        CompleteSnoc(s, ByCells(s, front, iters), shown, c, iters);
        StaysComplete(s, ByCells(s, front, iters), shown, c, iters);
        assert Shown(s, cells, iters) == shown + [c];
      }
    }
  }

  lemma NotShown(s: Series, acc: Acc, c: Cell, iters: nat)
    requires FirstParsed(s, c, iters) == 0
    ensures AfterCell(s, acc, c, iters) == acc
  {
  }

  lemma StaysComplete(s: Series, acc: Acc, shown: seq<Cell>, c: Cell, iters: nat)
    requires shown != [] && FirstParsed(s, c, iters) != 0
    ensures AllEnough(s, shown, iters) && AllApart(s, shown + [c], iters) ==>
      AllEnough(s, shown[..|shown| - 1], iters) && AllApart(s, shown, iters)
    ensures AllEnough(s, shown, iters) && AllApart(s, shown + [c], iters) && Complete(s, acc, shown, iters) ==>
      Complete(s, AfterCell(s, acc, c, iters), shown + [c], iters)
    ensures (shown + [c])[..|shown|] == shown
  {
    var d := shown[|shown| - 1];
    assert (shown + [c])[..|shown|] == shown == shown[..|shown| - 1] + [d];
    OwnPointsSnoc(s, shown[..|shown| - 1], d, iters);
    ApartSnoc(s, shown, c, iters);
  }

  /**
   For any bounds and any choice of runs to parse the pass groups correctly if and only if every
   shown cell yields two values or more and ends on a later iteration than the next one begins: then
   each has its own point, in order; otherwise there are fewer points than shown cells.
   */
  lemma GroupsIff(s: Series, b: Bounds)
    requires b.Steps()
    ensures var shown := Shown(s, Cells(b), b.iters);
      && |Points(s, b)| <= |shown|
      && (|Points(s, b)| == |shown| <==> AllEnough(s, shown, b.iters) && AllApart(s, shown, b.iters))
      && (AllEnough(s, shown, b.iters) && AllApart(s, shown, b.iters) ==>
           Points(s, b) == OwnPoints(s, shown, b.iters))
  {
    hide Cells, CombosOf, Run, ByCells, AllApart, AllEnough, OwnPoints, ResultOf, Values, Shown;
    var cells, iters := Cells(b), b.iters;
    var shown := Shown(s, cells, iters);
    StreamIsByCells(s, cells, iters);
    OneShortMissesOne(s, cells, iters);
    if shown == [] {
      NothingShown(s, iters);
    } else {
      var front, d := shown[..|shown| - 1], shown[|shown| - 1];
      assert shown == front + [d];
      OwnPointsSnoc(s, front, d, iters);
      if AllEnough(s, front, iters) { OwnPointsLength(s, front, iters); }
    }
  }

  lemma NothingShown(s: Series, iters: nat)
    ensures AllEnough(s, [], iters) && AllApart(s, [], iters) && OwnPoints(s, [], iters) == []
  {
  }

  // ---- charts that parse everything ----

  ghost predicate ParsesAll(s: Series) {
    forall c :: s.parses(c)
  }

  lemma {:induction false} AllShown(s: Series, cells: seq<Cell>, iters: nat)
    requires ParsesAll(s) && iters > 0
    ensures Shown(s, cells, iters) == cells
  {
    if cells == [] {
    } else {
      AllShown(s, cells[..|cells| - 1], iters);
      ParsedEnds(s, cells[|cells| - 1], iters);
    }
  }

  lemma {:induction false} ParsedEnds(s: Series, c: Cell, n: nat)
    requires ParsesAll(s) && n > 0
    ensures FirstParsed(s, c, n) == 1 && LastParsed(s, c, n) == n
  {
    if n == 1 {
      assert FirstParsed(s, c, 0) == 0;
    } else {
      ParsedEnds(s, c, n - 1);
    }
  }

  lemma {:induction false} AtMostOneValueEach(s: Series, c: Cell, n: nat)
    ensures |Values(s, c, n)| <= n
  {
    if n == 0 {
    } else {
      AtMostOneValueEach(s, c, n - 1);
    }
  }

  /** Then having values enough is all it takes, for any bounds and any number of iterations. */
  lemma GroupsIffEnough(s: Series, b: Bounds)
    requires b.Steps() && ParsesAll(s)
    ensures |Points(s, b)| <= |Cells(b)|
    ensures |Points(s, b)| == |Cells(b)| <==> AllEnough(s, Cells(b), b.iters)
    ensures AllEnough(s, Cells(b), b.iters) ==> Points(s, b) == OwnPoints(s, Cells(b), b.iters)
  {
    hide Cells, Points, Shown, OwnPoints, Values, FirstParsed, LastParsed;
    var cells, iters := Cells(b), b.iters;
    GroupsIff(s, b);
    forall c | c in cells && Enough(s, c, iters) ensures iters >= 2 {
      AtMostOneValueEach(s, c, iters);
    }
    if iters == 0 {
      NoneShown(s, cells);
    } else {
      AllShown(s, cells, iters);
      forall i | 0 <= i < |cells| - 1 && iters >= 2 ensures Apart(s, cells[i], cells[i + 1], iters) {
        ParsedEnds(s, cells[i], iters);
        ParsedEnds(s, cells[i + 1], iters);
      }
      if AllEnough(s, cells, iters) && cells != [] {
        assert cells[0] in cells;
      }
    }
  }

  lemma {:induction false} NoneShown(s: Series, cells: seq<Cell>)
    ensures Shown(s, cells, 0) == []
    ensures cells != [] ==> !AllEnough(s, cells, 0)
  {
    if cells == [] {
    } else {
      NoneShown(s, cells[..|cells| - 1]);
      AtMostOneValueEach(s, cells[0], 0);
      assert cells[0] in cells && !Enough(s, cells[0], 0);
    }
  }

  lemma {:induction false} EveryRunValued(s: Series, c: Cell, n: nat)
    requires ParsesAll(s) && forall run :: s.getter(run).Value?
    ensures |Values(s, c, n)| == n
  {
    if n == 0 {
    } else {
      EveryRunValued(s, c, n - 1);
    }
  }

  /** A chart whose getter never fails, as the failure charts', groups correctly from two iterations on. */
  lemma GettersThatNeverFail(s: Series, b: Bounds)
    requires b.Steps() && ParsesAll(s) && b.iters >= 2
    requires forall run :: s.getter(run).Value?
    ensures AllEnough(s, Cells(b), b.iters)
    ensures Points(s, b) == OwnPoints(s, Cells(b), b.iters)
  {
    forall c | c in Cells(b) ensures Enough(s, c, b.iters) {
      EveryRunValued(s, c, b.iters);
    }
    GroupsIffEnough(s, b);
  }

  /**
   What a short cell does: c's only value is mixed with that of d's last run, the result is plotted
   as d's, and c has no point.
   */
  lemma ShortCellMixesIn(s: Series, c: Cell, d: Cell, e: Cell, iters: nat)
    requires ParsesAll(s) && iters >= 2
    requires |Values(s, c, iters)| == 1 && s.getter(Combo(d, iters)).Value?
    ensures Run(s, CombosOf([c, d, e], iters)) == Acc(
      Combo(e, iters), Values(s, e, iters),
      [Point(d, ResultOf(s.result, Values(s, c, iters) + Taken(s, Combo(d, iters))))])
  {
    hide CombosOf, Run, ByCells, ValuesFrom, FirstParsed, LastParsed, ResultOf;
    StreamIsByCells(s, [c, d, e], iters);
    ThreeCells(s, c, d, e, iters);
    ParsedEnds(s, c, iters);
    ParsedEnds(s, d, iters);
    ParsedEnds(s, e, iters);
    LastValue(s, d, iters);
    assert AfterCell(s, START, c, iters) == Acc(Combo(c, iters), Values(s, c, iters), []);
  }

  lemma ByCellsSnoc(s: Series, cells: seq<Cell>, c: Cell, iters: nat)
    ensures ByCells(s, cells + [c], iters) == AfterCell(s, ByCells(s, cells, iters), c, iters)
  {
    assert (cells + [c])[..|cells|] == cells;
  }

  lemma ThreeCells(s: Series, c: Cell, d: Cell, e: Cell, iters: nat)
    ensures ByCells(s, [c, d, e], iters) ==
      AfterCell(s, AfterCell(s, AfterCell(s, START, c, iters), d, iters), e, iters)
  {
    hide AfterCell;
    ByCellsSnoc(s, [], c, iters);
    ByCellsSnoc(s, [c], d, iters);
    ByCellsSnoc(s, [c, d], e, iters);
    assert [] + [c] == [c] && [c] + [d] == [c, d] && [c, d] + [e] == [c, d, e];
  }

  lemma LastValue(s: Series, d: Cell, iters: nat)
    requires ParsesAll(s) && iters >= 1
    ensures ValuesFrom(s, d, iters, iters) == Taken(s, Combo(d, iters))
  {
    ValuesInRange(s, d, iters, iters - 1);
    ParsedRange(s, d, iters - 1);
  }

  /** Three cells, two runs each, one value missing: one point is wrong and one is lost. */
  const ONE_MISSING: Series := Series(Failures, c => true, c =>
    if c == Combo(Cell(1, 1), 2) then NoValue else Value(if c.cell.hosts == 1 then 10 else 1))

  lemma OneMissingValue()
    ensures var b := Bounds(1, 3, 1, 1, 1, 1, 2);
      Points(ONE_MISSING, b) == [Point(Cell(2, 1), 11), Point(Cell(3, 1), 2)]
  {
    hide CombosOf, Run, Cells, Values, Total;
    OneMissingCells();
    OneMissingValues();
    ShortCellMixesIn(ONE_MISSING, Cell(1, 1), Cell(2, 1), Cell(3, 1), 2);
    assert Taken(ONE_MISSING, Combo(Cell(2, 1), 2)) == [1] && [10] + [1] == [10, 1];
    var acc := Run(ONE_MISSING, CombosOf([Cell(1, 1), Cell(2, 1), Cell(3, 1)], 2));
    assert acc == Acc(Combo(Cell(3, 1), 2), [1, 1], [Point(Cell(2, 1), 11)]);
    assert Emitted(ONE_MISSING, acc) == Point(Cell(3, 1), 2);
  }

  lemma OneMissingValues()
    ensures Values(ONE_MISSING, Cell(1, 1), 2) == [10]
    ensures Values(ONE_MISSING, Cell(3, 1), 2) == [1, 1]
    ensures Total([10, 1]) == 11 && Total([1, 1]) == 2
  {
    assert [10, 1][..1] == [10] && [10][..0] == [] && [1, 1][..1] == [1] && [1][..0] == [];
    assert Total([10]) == 10 && Total([1]) == 1;
  }

  lemma OneMissingCells()
    ensures Cells(Bounds(1, 3, 1, 1, 1, 1, 2)) == [Cell(1, 1), Cell(2, 1), Cell(3, 1)]
  {
  }

  /* Plotting. */

  function Plot(lines: Lines, p: Point): Lines {
    lines[p.cell.hosts := (if p.cell.hosts in lines then lines[p.cell.hosts] else []) + [XY(p.cell.msgs, p.y)]]
  }

  function PlotAll(points: seq<Point>): Lines {
    if points == [] then map[] else Plot(PlotAll(points[..|points| - 1]), points[|points| - 1])
  }

  lemma PlotSnoc(points: seq<Point>, p: Point)
    ensures PlotAll(points + [p]) == Plot(PlotAll(points), p)
  {
    assert (points + [p])[..|points|] == points;
  }

  /** The points of one number of hosts, in order. */
  function LineOf(points: seq<Point>, hosts: int): seq<XY> {
    if points == [] then []
    else
      var p := points[|points| - 1];
      LineOf(points[..|points| - 1], hosts) + if p.cell.hosts == hosts then [XY(p.cell.msgs, p.y)] else []
  }

  /** Plotting loses no point and mixes no two numbers of hosts. */
  lemma {:induction false} LinesAreSeparate(points: seq<Point>, hosts: int)
    ensures hosts in PlotAll(points) <==> LineOf(points, hosts) != []
    ensures hosts in PlotAll(points) ==> PlotAll(points)[hosts] == LineOf(points, hosts)
  {
    if points == [] {
    } else {
      LinesAreSeparate(points[..|points| - 1], hosts);
    }
  }

  /** A line has the points of its number of hosts: message counts across, results up. */
  lemma {:induction false} LineMembers(points: seq<Point>, hosts: int, x: int, y: int)
    ensures XY(x, y) in LineOf(points, hosts) <==> Point(Cell(hosts, x), y) in points
  {
    if points == [] {
    } else {
      var front, last := points[..|points| - 1], points[|points| - 1];
      LineMembers(front, hosts, x, y);
      assert points == front + [last];
    }
  }

  lemma {:induction false} LineAscends(points: seq<Point>, hosts: int)
    requires forall i, j :: 0 <= i < j < |points| ==> CellBefore(points[i].cell, points[j].cell)
    ensures var line := LineOf(points, hosts); forall i, j :: 0 <= i < j < |line| ==> line[i].x < line[j].x
  {
    if points == [] {
    } else {
      var front, last := points[..|points| - 1], points[|points| - 1];
      forall i, j | 0 <= i < j < |front| ensures CellBefore(front[i].cell, front[j].cell) {
        assert front[i] == points[i] && front[j] == points[j];
      }
      LineAscends(front, hosts);
      forall i | 0 <= i < |LineOf(front, hosts)| && last.cell.hosts == hosts
        ensures LineOf(front, hosts)[i].x < last.cell.msgs
      {
        var xy := LineOf(front, hosts)[i];
        LineMembers(front, hosts, xy.x, xy.y);
        var k :| 0 <= k < |front| && front[k] == Point(Cell(hosts, xy.x), xy.y);
        assert points[k] == front[k] && CellBefore(points[k].cell, points[|points| - 1].cell);
      }
    }
  }

  /**
   The lines of a chart with values enough: one for each number of hosts of the grid, from the
   smallest number of messages to the largest, each point the result of its own cell's values.
   */
  lemma CompleteLines(s: Series, b: Bounds, c: Cell, y: int)
    requires b.Steps() && ParsesAll(s) && AllEnough(s, Cells(b), b.iters)
    ensures var line := LineOf(Points(s, b), c.hosts);
      && (forall i, j :: 0 <= i < j < |line| ==> line[i].x < line[j].x)
      && (XY(c.msgs, y) in line <==>
           OnGrid(b, c) && Enough(s, c, b.iters) && y == ResultOf(s.result, Values(s, c, b.iters)))
  {
    hide OnGrid, Cells, CellBefore, Values, ResultOf, Points, LineOf;
    var cells, points := Cells(b), Points(s, b);
    GroupsIffEnough(s, b);
    CellsAscend(b);
    CellMembers(b, c);
    LineAscends(points, c.hosts);
    LineMembers(points, c.hosts, c.msgs, y);
    if c in cells {
      var k :| 0 <= k < |cells| && cells[k] == c;
      assert Enough(s, c, b.iters);
      assert points[k] == Point(c, ResultOf(s.result, Values(s, c, b.iters)));
      forall i | 0 <= i < |points| && points[i].cell == c ensures i == k {
        if i < k { assert CellBefore(cells[i], cells[k]); NotBeforeItself(c); }
        if k < i { assert CellBefore(cells[k], cells[i]); NotBeforeItself(c); }
      }
    }
  }

  lemma NotBeforeItself(c: Cell)
    ensures !CellBefore(c, c)
  {
  }

  method UpdateVerPoints(verPoints: map<string, Lines>, ver: string, c: Combo, y: int) returns (r: map<string, Lines>)
    requires ver in verPoints
    ensures r == verPoints[ver := Plot(verPoints[ver], Point(c.cell, y))]
  {
    var lines := verPoints[ver];
    if c.cell.hosts !in lines {
      lines := lines[c.cell.hosts := []];
    }
    assert [] + [XY(c.cell.msgs, y)] == [XY(c.cell.msgs, y)];
    lines := lines[c.cell.hosts := lines[c.cell.hosts] + [XY(c.cell.msgs, y)]];
    assert lines == Plot(verPoints[ver], Point(c.cell, y));
    r := verPoints[ver := lines];
  }

  /** max is the largest of 0 and the points of the versions. */
  ghost predicate IsMax(max: int, chart: Chart, versions: seq<string>, b: Bounds, getter: (string, Combo) -> Outcome)
    requires b.Steps()
  {
    && max >= 0
    && (forall ver, p | ver in versions && p in Points(SeriesOf(chart, ver, getter), b) :: p.y <= max)
    && (max > 0 ==> exists ver, p | ver in versions && p in Points(SeriesOf(chart, ver, getter), b) :: p.y == max)
  }

  /** The largest of top and the points. */
  function Highest(top: int, points: seq<Point>): int {
    if points == [] then top
    else
      var h := Highest(top, points[..|points| - 1]);
      if points[|points| - 1].y > h then points[|points| - 1].y else h
  }

  lemma HighestSnoc(top: int, points: seq<Point>, p: Point)
    ensures Highest(top, points + [p]) == if p.y > Highest(top, points) then p.y else Highest(top, points)
  {
    assert (points + [p])[..|points|] == points;
  }

  lemma {:induction false} HighestIsHighest(top: int, points: seq<Point>)
    ensures Highest(top, points) >= top && forall p :: p in points ==> p.y <= Highest(top, points)
    ensures Highest(top, points) > top ==> exists p :: p in points && p.y == Highest(top, points)
  {
    if points == [] {
    } else {
      var front, q := points[..|points| - 1], points[|points| - 1];
      HighestIsHighest(top, front);
      assert points == front + [q];
      if q.y <= Highest(top, front) && Highest(top, front) > top {
        var p :| p in front && p.y == Highest(top, front);
        assert p in points;
      }
    }
  }

  lemma MaxOfOneMore(top: int, max: int, chart: Chart, versions: seq<string>, ver: string, b: Bounds,
                     getter: (string, Combo) -> Outcome)
    requires b.Steps() && IsMax(top, chart, versions, b, getter)
    requires max == Highest(top, Points(SeriesOf(chart, ver, getter), b))
    ensures IsMax(max, chart, versions + [ver], b, getter)
  {
    hide Highest, Points, SeriesOf;
    var ps := Points(SeriesOf(chart, ver, getter), b);
    HighestIsHighest(top, ps);
    var all := versions + [ver];
    assert ver in all && forall o :: o in versions ==> o in all;
    if max > top {
      var p :| p in ps && p.y == max;
    } else if max > 0 {
      var o, p :| o in versions && p in Points(SeriesOf(chart, o, getter), b) && p.y == max;
    }
  }

  lemma NoVersions(chart: Chart, b: Bounds, getter: (string, Combo) -> Outcome)
    requires b.Steps()
    ensures IsMax(0, chart, [], b, getter)
  {
  }

  lemma NothingYet(s: Series, top: int)
    ensures Run(s, []) == START && PlotAll([]) == map[] && Highest(top, []) == top
  {
  }

  lemma PointsAre(s: Series, b: Bounds)
    requires b.Steps()
    ensures Points(s, b) == Finish(s, Run(s, CombosOf(Cells(b), b.iters)))
  {
  }

  /** The boundary: the reduction is called twice on the same slice, which the first call may reorder. */
  method NewPoint(
    result: Reduction, iterVals: array<int>, n: nat, verPoints: map<string, Lines>, ver: string, prevCombo: Combo,
    top: int)
    returns (r: map<string, Lines>, maxVal: int)
    requires 0 < n <= iterVals.Length && ver in verPoints
    modifies iterVals
    ensures var y := ResultOf(result, old(iterVals[..n]));
      && r == verPoints[ver := Plot(verPoints[ver], Point(prevCombo.cell, y))]
      && maxVal == if y > top then y else top
  {
    var y := Result(result, iterVals, n);
    r := UpdateVerPoints(verPoints, ver, prevCombo, y);
    ResultForgetsOrder(result, iterVals[..n], old(iterVals[..n]));
    y := Result(result, iterVals, n);
    maxVal := if y > top then y else top;
  }

  lemma Overwritten(m: map<string, Lines>, ver: string, before: Lines, after: Lines)
    ensures m[ver := before][ver := after] == m[ver := after]
  {
  }

  /** One version's pass; its lines replace any it had, and the maximum can only grow. */
  method ReadVersion(
    chart: Chart, ver: string, b: Bounds, getter: (string, Combo) -> Outcome, others: map<string, Lines>, top: int)
    returns (verPoints: map<string, Lines>, maxVal: int)
    requires b.Steps()
    ensures verPoints == others[ver := PlotAll(Points(SeriesOf(chart, ver, getter), b))]
    ensures maxVal == Highest(top, Points(SeriesOf(chart, ver, getter), b))
  {
    hide Run, PlotAll, Plot, Highest, ResultOf, CombosOf, Cells, Points, HostsFrom, MsgsFrom, Block;
    hide OnGrid, CombosInOrder;
    ghost var s, acc := SeriesOf(chart, ver, getter), START;
    verPoints, maxVal := others[ver := map[]], top;
    var prevCombo := Combo(Cell(0, 0), 0);
    var todo := GetAllTestCombos(b);
    var iterVals, n := new int[|todo|], 0;
    NothingYet(s, top);
    for k := 0 to |todo|
      invariant fresh(iterVals) && iterVals.Length == |todo| && n <= k
      invariant acc == Run(s, todo[..k]) && acc.prev == prevCombo && acc.vals == iterVals[..n]
      invariant verPoints == others[ver := PlotAll(acc.points)] && maxVal == Highest(top, acc.points)
    {
      var combo := todo[k];
      assert todo[..k + 1] == todo[..k] + [combo];
      RunSnoc(s, todo[..k], combo);
      if !chart.shouldParse(ver, combo) {
        continue;
      }
      if prevCombo.iter > combo.iter {
        if n < 2 {
          continue;
        }
        verPoints, maxVal := NewPoint(chart.result, iterVals, n, verPoints, ver, prevCombo, maxVal);
        PlotSnoc(acc.points, Emitted(s, acc));
        Overwritten(others, ver, PlotAll(acc.points), PlotAll(acc.points + [Emitted(s, acc)]));
        HighestSnoc(top, acc.points, Emitted(s, acc));
        iterVals, n := new int[|todo|], 0;
        acc := Flushed(s, acc);
      }
      assert Step(s, Run(s, todo[..k]), combo) == Took(s, acc, combo);
      match getter(ver, combo) {
        case Value(val) =>
          iterVals[n] := val;
          n := n + 1;
          assert iterVals[..n] == iterVals[..n - 1] + [val];
        case NoValue =>
      }
      prevCombo := combo;
      acc := Took(s, acc, combo);
    }
    assert todo[..|todo|] == todo;
    if n > 1 {
      var result := Result(chart.result, iterVals, n);
      if result > maxVal {
        maxVal := result;
      }
      verPoints := UpdateVerPoints(verPoints, ver, prevCombo, result);
      PlotSnoc(acc.points, Point(prevCombo.cell, result));
      HighestSnoc(top, acc.points, Point(prevCombo.cell, result));
    }
    PointsAre(s, b);
  }

  method RenderChart(chart: Chart, versions: seq<string>, b: Bounds, getter: (string, Combo) -> Outcome)
    returns (verPoints: map<string, Lines>, maxVal: int)
    requires b.Steps()
    ensures verPoints.Keys == set ver | ver in versions
    ensures forall ver :: ver in verPoints ==> verPoints[ver] == PlotAll(Points(SeriesOf(chart, ver, getter), b))
    ensures IsMax(maxVal, chart, versions, b, getter)
  {
    hide PlotAll, Highest, IsMax, Points, SeriesOf;
    verPoints, maxVal := map[], 0;
    NoVersions(chart, b, getter);
    for v := 0 to |versions|
      invariant verPoints.Keys == set ver | ver in versions[..v]
      invariant forall ver :: ver in verPoints ==> verPoints[ver] == PlotAll(Points(SeriesOf(chart, ver, getter), b))
      invariant IsMax(maxVal, chart, versions[..v], b, getter)
    {
      ghost var top := maxVal;
      verPoints, maxVal := ReadVersion(chart, versions[v], b, getter, verPoints, maxVal);
      MaxOfOneMore(top, maxVal, chart, versions[..v], versions[v], b, getter);
      assert versions[..v + 1] == versions[..v] + [versions[v]];
    }
    assert versions[..|versions|] == versions;
  }
}
