/** Request metrics of the control plane: one observation is counted in four accumulators, which form a cube. */
module ControlMetrics {
  import opened Sums
  import opened Text

  const UNKNOWN_PATH := "unknown"
  const HTTP_PATH := "http"
  const P2P_PATH := "p2p"

  // ----- labels -----

  function Lower(s: string): string {
    if s == "" then "" else [if 'A' <= s[0] <= 'Z' then s[0] - 'A' + 'a' else s[0]] + Lower(s[1..])
  }

  function NormalizePath(path: string): string {
    match Lower(TrimSpace(path))
    case "http" => HTTP_PATH
    case "p2p" => P2P_PATH
    case _ => UNKNOWN_PATH
  }

  function NormalizeType(messageType: string): string {
    var value := TrimSpace(messageType);
    if value == "" then "UNKNOWN" else value
  }

  // ----- one accumulator -----

  datatype Fault = NoFault | DeadlineExceeded | OtherFault

  datatype Stats = Stats(requests: nat, successes: nat, failures: nat, timeouts: nat,
                         totalLatency: nat, lastLatency: nat, maxLatency: nat)

  const ZERO := Stats(0, 0, 0, 0, 0, 0, 0)

  /** observeAccumulator */
  function Observed(a: Stats, d: nat, fault: Fault): Stats {
    var b := a.(requests := a.requests + 1, totalLatency := a.totalLatency + d, lastLatency := d,
                maxLatency := if d > a.maxLatency then d else a.maxLatency);
    match fault
    case NoFault => b.(successes := a.successes + 1)
    case DeadlineExceeded => b.(timeouts := a.timeouts + 1)
    case OtherFault => b.(failures := a.failures + 1)
  }

  // ----- the cube -----

  /** Where an accumulator hangs. */
  datatype Slot = All | Path(path: string) | Type(messageType: string) | Cell(messageType: string, path: string)

  type Cube = map<Slot, Stats>

  const NEW: Cube := map[All := ZERO, Path(UNKNOWN_PATH) := ZERO, Path(HTTP_PATH) := ZERO, Path(P2P_PATH) := ZERO]

  datatype Observation = Observation(messageType: string, path: string, duration: int, fault: Fault)
  {
    function Duration(): nat { if duration < 0 then 0 else duration }
    function TypeLabel(): string { NormalizeType(messageType) }
    function PathLabel(): string { NormalizePath(path) }
  }

  /** The accumulators an observation is counted in. */
  predicate Hits(o: Observation, s: Slot) {
    match s
    case All => true
    case Path(p) => p == o.PathLabel()
    case Type(t) => t == o.TypeLabel()
    case Cell(t, p) => t == o.TypeLabel() && p == o.PathLabel()
  }

  /** An accumulator that was never made counts as zero. */
  function Value(m: Cube, s: Slot): Stats {
    if s in m then m[s] else ZERO
  }

  function Bump(m: Cube, s: Slot, d: nat, fault: Fault): Cube {
    m[s := Observed(Value(m, s), d, fault)]
  }

  function Step(m: Cube, o: Observation): Cube {
    var t, p, d := o.TypeLabel(), o.PathLabel(), o.Duration();
    Bump(Bump(Bump(Bump(m, All, d, o.fault), Path(p), d, o.fault), Type(t), d, o.fault), Cell(t, p), d, o.fault)
  }

  function After(run: seq<Observation>): Cube {
    if run == [] then NEW else Step(After(run[..|run| - 1]), run[|run| - 1])
  }

  // ----- every accumulator is the fold of the observations it is about -----

  function Fold(run: seq<Observation>, s: Slot): Stats {
    if run == [] then ZERO
    else
      var before, o := Fold(run[..|run| - 1], s), run[|run| - 1];
      if Hits(o, s) then Observed(before, o.Duration(), o.fault) else before
  }

  lemma StepAt(m: Cube, o: Observation, s: Slot)
    ensures Value(Step(m, o), s) == if Hits(o, s) then Observed(Value(m, s), o.Duration(), o.fault) else Value(m, s)
    ensures s in Step(m, o) <==> s in m || Hits(o, s)
  {
    hide Observed, NormalizePath, NormalizeType;
  }

  lemma {:induction false} SlotIsFold(run: seq<Observation>, s: Slot)
    ensures Value(After(run), s) == Fold(run, s)
    ensures s in After(run) <==> s in NEW || exists i :: 0 <= i < |run| && Hits(run[i], s)
  {
    hide Step, Observed, Hits;
    if run != [] {
      var n := |run| - 1;
      SlotIsFold(run[..n], s);
      StepAt(After(run[..n]), run[n], s);
    }
  }

  /** How many observations of a slot ended this way. */
  function Seen(run: seq<Observation>, s: Slot, fault: Fault): nat {
    if run == [] then 0
    else
      var before, o := Seen(run[..|run| - 1], s, fault), run[|run| - 1];
      if Hits(o, s) && o.fault == fault then before + 1 else before
  }

  /** The time the observations of a slot took together; a clock that went back counts as zero. */
  function TimeSpent(run: seq<Observation>, s: Slot): nat {
    if run == [] then 0
    else
      var before, o := TimeSpent(run[..|run| - 1], s), run[|run| - 1];
      if Hits(o, s) then before + (if o.duration > 0 then o.duration else 0) else before
  }

  lemma {:induction false} FoldCounts(run: seq<Observation>, s: Slot)
    ensures
      var v := Fold(run, s);
      && v.successes == Seen(run, s, NoFault) && v.timeouts == Seen(run, s, DeadlineExceeded)
      && v.failures == Seen(run, s, OtherFault) && v.totalLatency == TimeSpent(run, s)
  {
    hide Hits;
    if run != [] { FoldCounts(run[..|run| - 1], s); }
  }

  lemma {:induction false} FoldLatency(run: seq<Observation>, s: Slot, i: nat)
    requires i < |run| && Hits(run[i], s)
    ensures Fold(run, s).maxLatency >= run[i].duration
    ensures (forall k :: i < k < |run| ==> !Hits(run[k], s)) ==>
              Fold(run, s).lastLatency == if run[i].duration > 0 then run[i].duration else 0
    decreases |run|
  {
    hide Hits;
    if i < |run| - 1 { FoldLatency(run[..|run| - 1], s, i); }
  }

  /**
   What an accumulator says, after any observations: successes, timeouts and failures are the numbers of its
   observations with each outcome, total latency is the time they took, no one took longer than the maximum, and the
   last latency is that of the last one.
   */
  lemma OutcomesCounted(run: seq<Observation>, s: Slot)
    ensures
      var v := Value(After(run), s);
      && v.successes == Seen(run, s, NoFault) && v.timeouts == Seen(run, s, DeadlineExceeded)
      && v.failures == Seen(run, s, OtherFault) && v.totalLatency == TimeSpent(run, s)
      && (forall i :: 0 <= i < |run| && Hits(run[i], s) ==> run[i].duration <= v.maxLatency)
      && (forall i :: 0 <= i < |run| && Hits(run[i], s) && (forall k :: i < k < |run| ==> !Hits(run[k], s)) ==>
            v.lastLatency == if run[i].duration > 0 then run[i].duration else 0)
  {
    hide After, Fold, Hits, Seen, TimeSpent;
    SlotIsFold(run, s);
    FoldCounts(run, s);
    forall i | 0 <= i < |run| && Hits(run[i], s)
      ensures run[i].duration <= Fold(run, s).maxLatency
      ensures (forall k :: i < k < |run| ==> !Hits(run[k], s)) ==>
                Fold(run, s).lastLatency == if run[i].duration > 0 then run[i].duration else 0
    {
      FoldLatency(run, s, i);
    }
  }

  // ----- what the labels mean -----

  predicate SameLetter(a: char, b: char) {
    a == b || ('A' <= a <= 'Z' && a - 'A' + 'a' == b)
  }

  /** Equal to a lower-case word but for the case of letters. */
  predicate SameWord(s: string, word: string) {
    |s| == |word| && forall i :: 0 <= i < |s| ==> SameLetter(s[i], word[i])
  }

  lemma {:induction false} LowerPointwise(s: string)
    ensures |Lower(s)| == |s|
    ensures forall i :: 0 <= i < |s| ==> Lower(s)[i] == if 'A' <= s[i] <= 'Z' then s[i] - 'A' + 'a' else s[i]
  {
    if s != "" { LowerPointwise(s[1..]); }
  }

  lemma LowerMeans(s: string, word: string)
    requires forall c :: c in word ==> !('A' <= c <= 'Z')
    ensures Lower(s) == word <==> SameWord(s, word)
  {
    hide Lower;
    LowerPointwise(s);
    assert forall i :: 0 <= i < |word| ==> word[i] in word;
    if SameWord(s, word) { assert Lower(s) == word; }
  }

  /** Two paths have names, whatever their case and the space around them; all else is one unknown path. */
  lemma PathLabels(path: string)
    ensures NormalizePath(path) == "http" <==> SameWord(TrimSpace(path), "http")
    ensures NormalizePath(path) == "p2p" <==> SameWord(TrimSpace(path), "p2p")
    ensures NormalizePath(path) != "http" && NormalizePath(path) != "p2p" ==> NormalizePath(path) == "unknown"
  {
    hide TrimSpace, Lower;
    LowerMeans(TrimSpace(path), "http");
    LowerMeans(TrimSpace(path), "p2p");
    assert "http"[0] != "unknown"[0] && "p2p"[0] != "unknown"[0] && "http"[0] != "p2p"[0];
  }

  /** A message type is its own label, without the space around it; a blank one is counted as unknown. */
  lemma TypeLabels(messageType: string)
    ensures TrimSpace(messageType) != "" ==> NormalizeType(messageType) == TrimSpace(messageType)
    ensures TrimSpace(messageType) == "" ==> NormalizeType(messageType) == "UNKNOWN"
  {
    hide TrimSpace;
  }

  // ----- marginals -----

  datatype Counter = Requests | Successes | Failures | Timeouts | Latency

  function Get(a: Stats, c: Counter): nat {
    match c
    case Requests => a.requests
    case Successes => a.successes
    case Failures => a.failures
    case Timeouts => a.timeouts
    case Latency => a.totalLatency
  }

  /** `cell` is one of the cells that the row, the column or the total `g` sums up. */
  predicate Covers(g: Slot, cell: Slot) {
    cell.Cell? &&
    match g
    case All => true
    case Path(p) => cell.path == p
    case Type(t) => cell.messageType == t
    case Cell(_, _) => cell == g
  }

  ghost function Cells(m: Cube, g: Slot, c: Counter): map<Slot, int> {
    map s | s in m && Covers(g, s) :: Get(m[s], c)
  }

  ghost predicate SumsUp(m: Cube, g: Slot) {
    forall c :: Total(Cells(m, g, c)) == Get(Value(m, g), c)
  }

  /** The largest cell maximum is the maximum of the group. */
  ghost predicate MaxAgrees(m: Cube, g: Slot) {
    && (forall s :: s in m && Covers(g, s) ==> m[s].maxLatency <= Value(m, g).maxLatency)
    && (Value(m, g).maxLatency == 0 || exists s :: s in m && Covers(g, s) && m[s].maxLatency == Value(m, g).maxLatency)
  }

  /** What one observation adds to a counter, in whichever accumulator. */
  function Delta(o: Observation, c: Counter): int {
    Get(Observed(ZERO, o.Duration(), o.fault), c)
  }

  lemma ObservedAdds(a: Stats, o: Observation, c: Counter)
    ensures Get(Observed(a, o.Duration(), o.fault), c) == Get(a, c) + Delta(o, c)
  {
  }

  /** The cell of an observation is covered by exactly the groups the observation is counted in. */
  lemma CellsAfter(m: Cube, o: Observation, g: Slot, c: Counter)
    ensures
      var cell := Cell(o.TypeLabel(), o.PathLabel());
      Cells(Step(m, o), g, c) ==
      if Hits(o, g) then Cells(m, g, c)[cell := Get(Value(m, cell), c) + Delta(o, c)] else Cells(m, g, c)
  {
    hide Step, Get, Delta, Observed, Value, NormalizeType, NormalizePath;
    var n, cell := Step(m, o), Cell(o.TypeLabel(), o.PathLabel());
    forall s | Covers(g, s)
      ensures s in n <==> s in m || s == cell
      ensures s in n ==> Get(n[s], c) == if s == cell then Get(Value(m, cell), c) + Delta(o, c) else Get(m[s], c)
    {
      CellAfter(m, o, c, s);
    }
    assert Hits(o, g) <==> Covers(g, cell);
  }

  /** A cell after an observation: grown if it is the observation's own, else as it was. */
  lemma CellAfter(m: Cube, o: Observation, c: Counter, s: Slot)
    requires s.Cell?
    ensures
      var n, cell := Step(m, o), Cell(o.TypeLabel(), o.PathLabel());
      && (s in n <==> s in m || s == cell)
      && (s in n ==> Get(n[s], c) == if s == cell then Get(Value(m, cell), c) + Delta(o, c) else Get(m[s], c))
  {
    hide Step, Get, Delta, Observed, NormalizeType, NormalizePath;
    StepAt(m, o, s);
    ObservedAdds(Value(m, s), o, c);
  }

  /** One counter of one group: the cells and the group grow by the same amount, or neither does. */
  lemma StepTotals(m: Cube, o: Observation, g: Slot, c: Counter)
    ensures
      Total(Cells(Step(m, o), g, c)) == Total(Cells(m, g, c)) + if Hits(o, g) then Delta(o, c) else 0
  {
    hide Step, Get, Delta, Hits, Cells;
    CellsAfter(m, o, g, c);
    CellValue(m, o, g, c);
    var cell := Cell(o.TypeLabel(), o.PathLabel());
    TotalPut(Cells(m, g, c), cell, Get(Value(m, cell), c) + Delta(o, c));
  }

  lemma StepSumsUp(m: Cube, o: Observation, g: Slot)
    requires SumsUp(m, g)
    ensures SumsUp(Step(m, o), g)
  {
    hide Step, Get, Delta, Observed, Hits, Cells, Value;
    StepAt(m, o, g);
    forall c ensures Total(Cells(Step(m, o), g, c)) == Get(Value(Step(m, o), g), c) {
      StepTotals(m, o, g, c);
      ObservedAdds(Value(m, g), o, c);
    }
  }

  lemma CellValue(m: Cube, o: Observation, g: Slot, c: Counter)
    ensures
      var cell, cells := Cell(o.TypeLabel(), o.PathLabel()), Cells(m, g, c);
      Hits(o, g) ==> (if cell in cells then cells[cell] else 0) == Get(Value(m, cell), c)
  {
    hide NormalizeType, NormalizePath;
  }

  lemma StepMaxAgrees(m: Cube, o: Observation, g: Slot)
    requires MaxAgrees(m, g)
    ensures MaxAgrees(Step(m, o), g)
  {
    hide Step, NormalizeType, NormalizePath;
    var n, cell := Step(m, o), Cell(o.TypeLabel(), o.PathLabel());
    StepAt(m, o, g);
    StepAt(m, o, cell);
    forall s | s in n && Covers(g, s) ensures n[s].maxLatency <= Value(n, g).maxLatency {
      StepAt(m, o, s);
    }
    if Value(m, g).maxLatency != 0 {
      var s :| s in m && Covers(g, s) && m[s].maxLatency == Value(m, g).maxLatency;
      StepAt(m, o, s);
      assert Covers(g, s) && s in n;
    }
    assert Hits(o, g) ==> Covers(g, cell) && cell in n;
  }

  // ----- each accumulator by itself -----

  /** Every request is counted once by outcome, the sum is at most what the maximum allows. */
  predicate Consistent(a: Stats) {
    && a.requests == a.successes + a.failures + a.timeouts
    && a.totalLatency <= a.requests * a.maxLatency
    && a.lastLatency <= a.maxLatency
  }

  lemma ObservedConsistent(a: Stats, d: nat, fault: Fault)
    requires Consistent(a)
    ensures Consistent(Observed(a, d, fault))
  {
    var b := Observed(a, d, fault);
    ProductAtLeast(a.requests, b.maxLatency, a.maxLatency);
    assert a.requests * b.maxLatency + b.maxLatency == b.requests * b.maxLatency;
  }

  lemma {:induction false} FoldConsistent(run: seq<Observation>, s: Slot)
    ensures Consistent(Fold(run, s))
  {
    hide Consistent, Observed, Hits;
    if run == [] {
      assert Consistent(ZERO) by { hide *; ZeroConsistent(); }
    } else {
      var n := |run| - 1;
      FoldConsistent(run[..n], s);
      ObservedConsistent(Fold(run[..n], s), run[n].Duration(), run[n].fault);
    }
  }

  lemma ZeroConsistent()
    ensures Consistent(ZERO)
  {
  }

  lemma {:induction false} RunMarginals(run: seq<Observation>, g: Slot)
    ensures SumsUp(After(run), g) && MaxAgrees(After(run), g)
  {
    hide SumsUp, MaxAgrees, Step;
    if run == [] {
      NewMarginals(g);
    } else {
      var n := |run| - 1;
      RunMarginals(run[..n], g);
      StepSumsUp(After(run[..n]), run[n], g);
      StepMaxAgrees(After(run[..n]), run[n], g);
    }
  }

  lemma NewMarginals(g: Slot)
    ensures SumsUp(NEW, g) && MaxAgrees(NEW, g)
  {
    assert forall s :: s in NEW ==> !s.Cell?;
    assert forall c :: Cells(NEW, g, c) == map[];
    assert Value(NEW, g) == ZERO;
  }

  // ----- what is reported -----

  datatype Report = Report(requests: nat, successes: nat, failures: nat, timeouts: nat,
                           lastLatencyMs: nat, avgLatencyMs: nat, maxLatencyMs: nat)

  const MILLISECOND := 1_000_000

  /** snapshotAccumulator, with latencies in nanoseconds. */
  function Reported(a: Stats): Report {
    Report(a.requests, a.successes, a.failures, a.timeouts, a.lastLatency / MILLISECOND,
           if a.requests > 0 then a.totalLatency / a.requests / MILLISECOND else 0, a.maxLatency / MILLISECOND)
  }

  /** Counts are reported as they are, the last and the largest latency rounded down to whole milliseconds. */
  lemma ReportedFigures(a: Stats)
    ensures
      var r := Reported(a);
      && r.requests == a.requests && r.successes == a.successes && r.failures == a.failures && r.timeouts == a.timeouts
      && r.lastLatencyMs * 1_000_000 <= a.lastLatency < (r.lastLatencyMs + 1) * 1_000_000
      && r.maxLatencyMs * 1_000_000 <= a.maxLatency < (r.maxLatencyMs + 1) * 1_000_000
      && (a.requests == 0 ==> r.avgLatencyMs == 0)
  {
  }

  /** The reported average is the true one rounded down to whole milliseconds. */
  lemma AverageIsFloor(a: Stats)
    requires a.requests > 0
    ensures
      var avg := Reported(a).avgLatencyMs;
      avg * 1_000_000 * a.requests <= a.totalLatency < (avg + 1) * 1_000_000 * a.requests
  {
    FloorOfFloor(a.totalLatency, a.requests, MILLISECOND);
  }

  /** Whole milliseconds keep the order. */
  lemma MillisMonotone(a: nat, b: nat)
    requires a <= b
    ensures a / MILLISECOND <= b / MILLISECOND
  {
  }

  lemma ReportedConsistent(a: Stats)
    requires Consistent(a)
    ensures
      var r := Reported(a);
      && r.requests == r.successes + r.failures + r.timeouts
      && r.avgLatencyMs <= r.maxLatencyMs && r.lastLatencyMs <= r.maxLatencyMs
  {
    MillisMonotone(a.lastLatency, a.maxLatency);
    if a.requests > 0 {
      QuotientAtMost(a.totalLatency, a.requests, a.maxLatency);
      MillisMonotone(a.totalLatency / a.requests, a.maxLatency);
    }
  }

  /**
   After any observations: cells add up to their row, their column and the totals in every counter and in total
   latency; maxima agree; and each accumulator accounts for every request once and reports an average and a last
   latency within its maximum.
   */
  lemma ConsistentCube(run: seq<Observation>, g: Slot)
    ensures
      var m := After(run);
      && (forall c :: Total(Cells(m, g, c)) == Get(Value(m, g), c))
      && MaxAgrees(m, g)
      && (g.Cell? && g in m ==> Type(g.messageType) in m && Path(g.path) in m)
      && (g.Type? && g in m ==> exists s :: s in m && Covers(g, s))
      && var r := Reported(Value(m, g));
         && r.requests == r.successes + r.failures + r.timeouts
         && r.avgLatencyMs <= r.maxLatencyMs && r.lastLatencyMs <= r.maxLatencyMs
  {
    hide After, Reported, Consistent, Fold, NormalizeType, NormalizePath, Get, MaxAgrees;
    RunMarginals(run, g);
    SlotIsFold(run, g);
    FoldConsistent(run, g);
    ReportedConsistent(Value(After(run), g));
    if g.Cell? {
      SlotIsFold(run, Type(g.messageType));
      SlotIsFold(run, Path(g.path));
    }
    if g.Type? && g in After(run) {
      var i :| 0 <= i < |run| && Hits(run[i], g);
      var cell := Cell(run[i].TypeLabel(), run[i].PathLabel());
      SlotIsFold(run, cell);
      assert Hits(run[i], cell) && Covers(g, cell);
    }
  }
}
