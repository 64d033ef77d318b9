/** The metrics as they are kept: shared accumulators that hang in nested maps and are updated in place. */
module ControlMetricsService {
  import opened ControlMetrics

  class Accumulator {
    var requests: nat
    var successes: nat
    var failures: nat
    var timeouts: nat
    var totalLatency: nat
    var lastLatency: nat
    var maxLatency: nat

    ghost function Model(): Stats
      reads this
    {
      Stats(requests, successes, failures, timeouts, totalLatency, lastLatency, maxLatency)
    }

    constructor ()
      ensures Model() == ZERO
    {
      requests, successes, failures, timeouts, totalLatency, lastLatency, maxLatency := 0, 0, 0, 0, 0, 0, 0;
    }

    method Observe(d: nat, fault: Fault)
      modifies this
      ensures Model() == Observed(old(Model()), d, fault)
    {
      requests := requests + 1;
      totalLatency := totalLatency + d;
      lastLatency := d;
      if d > maxLatency { maxLatency := d; }
      match fault {
        case NoFault => successes := successes + 1;
        case DeadlineExceeded => timeouts := timeouts + 1;
        case OtherFault => failures := failures + 1;
      }
    }

    method Report() returns (r: Report)
      ensures r == Reported(Model())
    {
      var avg := 0;
      if requests > 0 { avg := totalLatency / requests / MILLISECOND; }
      r := ControlMetrics.Report.Report(requests, successes, failures, timeouts,
                                        lastLatency / MILLISECOND, avg, maxLatency / MILLISECOND);
    }
  }

  datatype Snapshot = Snapshot(
    totals: Report, byPath: map<string, Report>, byType: map<string, Report>,
    byTypePath: map<string, map<string, Report>>)

  /** The report of a slot in a snapshot, if it has one. */
  predicate Lists(s: Snapshot, slot: Slot) {
    match slot
    case All => true
    case Path(p) => p in s.byPath
    case Type(t) => t in s.byType
    case Cell(t, p) => t in s.byTypePath && p in s.byTypePath[t]
  }

  function Listed(s: Snapshot, slot: Slot): Report
    requires Lists(s, slot)
  {
    match slot
    case All => s.totals
    case Path(p) => s.byPath[p]
    case Type(t) => s.byType[t]
    case Cell(t, p) => s.byTypePath[t][p]
  }

  /** The slot exists; a new one is zero. */
  function Touch(m: Cube, s: Slot): Cube { m[s := Value(m, s)] }

  lemma TouchThenBump(m: Cube, s: Slot, d: nat, fault: Fault)
    ensures Touch(m, s)[s := Observed(Touch(m, s)[s], d, fault)] == Bump(m, s, d, fault)
  {
    hide Observed;
  }

  // ----- where the accumulators hang -----

  type Index = map<Slot, Accumulator>

  type Column = map<string, Accumulator>

  type Rows = map<string, Column>

  function Row(rows: Rows, t: string): Column { if t in rows then rows[t] else map[] }

  ghost predicate PathsHung(index: Index, byPath: Column) {
    forall p :: if p in byPath then Path(p) in index && index[Path(p)] == byPath[p] else Path(p) !in index
  }

  ghost predicate TypesHung(index: Index, byType: Column) {
    forall t :: if t in byType then Type(t) in index && index[Type(t)] == byType[t] else Type(t) !in index
  }

  ghost predicate CellsHung(index: Index, rows: Rows) {
    forall t, p :: if p in Row(rows, t)
      then Cell(t, p) in index && index[Cell(t, p)] == Row(rows, t)[p] else Cell(t, p) !in index
  }

  /** No accumulator hangs in two places. */
  ghost predicate Distinct(index: Index) {
    forall a, b :: a in index && b in index && index[a] == index[b] ==> a == b
  }

  /** The maps hold what the index says, each accumulator in one place. */
  ghost predicate Hung(index: Index, byPath: Column, byType: Column, rows: Rows) {
    PathsHung(index, byPath) && TypesHung(index, byType) && CellsHung(index, rows) && Distinct(index)
  }

  lemma DistinctAdd(index: Index, s: Slot, a: Accumulator)
    requires Distinct(index) && s !in index && a !in index.Values
    ensures Distinct(index[s := a])
  {
    var more := index[s := a];
    forall x, y | x in more && y in more && more[x] == more[y] ensures x == y {
      assert x in index ==> index[x] in index.Values;
      assert y in index ==> index[y] in index.Values;
    }
  }

  lemma HangPath(index: Index, byPath: Column, byType: Column, rows: Rows, p: string, a: Accumulator)
    requires Hung(index, byPath, byType, rows) && p !in byPath && a !in index.Values
    ensures Path(p) !in index && Hung(index[Path(p) := a], byPath[p := a], byType, rows)
  {
    DistinctAdd(index, Path(p), a);
    hide Distinct;
  }

  lemma HangType(index: Index, byPath: Column, byType: Column, rows: Rows, t: string, a: Accumulator)
    requires Hung(index, byPath, byType, rows) && t !in byType && a !in index.Values
    ensures Type(t) !in index && Hung(index[Type(t) := a], byPath, byType[t := a], rows)
  {
    DistinctAdd(index, Type(t), a);
    hide Distinct;
  }

  lemma HangCell(index: Index, byPath: Column, byType: Column, rows: Rows, t: string, p: string, a: Accumulator)
    requires Hung(index, byPath, byType, rows) && p !in Row(rows, t) && a !in index.Values
    ensures
      && Cell(t, p) !in index
      && Hung(index[Cell(t, p) := a], byPath, byType, rows[t := Row(rows, t)[p := a]])
  {
    DistinctAdd(index, Cell(t, p), a);
    hide Distinct;
  }

  /** An empty row hangs nothing. */
  lemma HangRow(index: Index, byPath: Column, byType: Column, rows: Rows, t: string)
    requires Hung(index, byPath, byType, rows)
    ensures Hung(index, byPath, byType, rows[t := Row(rows, t)])
  {
    assert forall u :: Row(rows[t := Row(rows, t)], u) == Row(rows, u);
  }

  lemma Hanging(index: Index, byPath: Column, byType: Column, rows: Rows, t: string, p: string)
    requires Hung(index, byPath, byType, rows)
    ensures p in byPath ==> Path(p) in index && index[Path(p)] == byPath[p]
    ensures t in byType ==> Type(t) in index && index[Type(t)] == byType[t]
    ensures p in Row(rows, t) ==> Cell(t, p) in index && index[Cell(t, p)] == Row(rows, t)[p]
  {
    hide Distinct;
  }

  ghost function NewIndex(a: Accumulator, b: Accumulator, c: Accumulator, d: Accumulator): Index {
    map[All := a, Path(UNKNOWN_PATH) := b, Path(HTTP_PATH) := c, Path(P2P_PATH) := d]
  }

  lemma NewHangs(a: Accumulator, b: Accumulator, c: Accumulator, d: Accumulator)
    requires a != b && a != c && a != d && b != c && b != d && c != d
    ensures Hung(NewIndex(a, b, c, d), map[UNKNOWN_PATH := b, HTTP_PATH := c, P2P_PATH := d], map[], map[])
    ensures NewIndex(a, b, c, d).Keys == NEW.Keys && All in NEW && NewIndex(a, b, c, d)[All] == a
    ensures NewIndex(a, b, c, d).Values == {a, b, c, d}
    ensures forall s :: s in NEW ==> NEW[s] == ZERO
  {
    hide Hung;
    NewHung(a, b, c, d);
    var index := NewIndex(a, b, c, d);
    assert forall s :: s in index ==> index[s] in {a, b, c, d};
    assert index[Path(UNKNOWN_PATH)] == b && index[Path(HTTP_PATH)] == c && index[Path(P2P_PATH)] == d;
  }

  lemma NewHung(a: Accumulator, b: Accumulator, c: Accumulator, d: Accumulator)
    requires a != b && a != c && a != d && b != c && b != d && c != d
    ensures Hung(NewIndex(a, b, c, d), map[UNKNOWN_PATH := b, HTTP_PATH := c, P2P_PATH := d], map[], map[])
  {
  }

  /** A snapshot whose maps report the hanging accumulators reports every slot, and only those. */
  lemma SnapshotLists(index: Index, byPath: Column, byType: Column, rows: Rows, s: Snapshot, slot: Slot)
    requires Hung(index, byPath, byType, rows) && All in index
    requires s.byPath.Keys == byPath.Keys && s.byType.Keys == byType.Keys && s.byTypePath.Keys == rows.Keys
    requires forall t :: t in rows ==> s.byTypePath[t].Keys == rows[t].Keys
    ensures Lists(s, slot) <==> slot in index
  {
    hide Distinct;
    if slot.Cell? {
      assert slot.path in Row(rows, slot.messageType) <==> slot in index;
    }
  }

  /** The reports of one map of accumulators, whatever the order in which it is walked. */
  method ReportColumn(accumulators: Column) returns (r: map<string, Report>)
    ensures r.Keys == accumulators.Keys
    ensures forall k :: k in accumulators ==> r[k] == Reported(accumulators[k].Model())
  {
    hide Reported;
    r := map[];
    var todo := accumulators.Keys;
    while todo != {}
      invariant todo <= accumulators.Keys && r.Keys == accumulators.Keys - todo
      invariant forall k :: k in r ==> r[k] == Reported(accumulators[k].Model())
      decreases todo
    {
      var k :| k in todo;
      var report := accumulators[k].Report();
      r := r[k := report];
      todo := todo - {k};
    }
  }

  method ReportRows(rows: Rows) returns (r: map<string, map<string, Report>>)
    ensures r.Keys == rows.Keys
    ensures forall t :: t in rows ==> r[t].Keys == rows[t].Keys
    ensures forall t, p :: t in rows && p in rows[t] ==> r[t][p] == Reported(rows[t][p].Model())
  {
    hide Reported;
    r := map[];
    var todo := rows.Keys;
    while todo != {}
      invariant todo <= rows.Keys && r.Keys == rows.Keys - todo
      invariant forall t :: t in r ==> r[t].Keys == rows[t].Keys
      invariant forall t, p :: t in r && p in rows[t] ==> r[t][p] == Reported(rows[t][p].Model())
      decreases todo
    {
      var t :| t in todo;
      var reports := ReportColumn(rows[t]);
      r := r[t := reports];
      todo := todo - {t};
    }
  }

  class Metrics {
    const totals: Accumulator
    var byPath: Column
    var byType: Column
    var byTypePath: Rows

    /** Every accumulator with its place. */
    ghost var index: Index

    ghost predicate Valid()
      reads this
    {
      All in index && index[All] == totals && Hung(index, byPath, byType, byTypePath)
    }

    ghost function Model(): Cube
      reads this, index.Values
    {
      map s | s in index :: index[s].Model()
    }

    constructor ()
      ensures Valid() && Model() == NEW && fresh(index.Values)
    {
      hide Hung, NewIndex, NEW;
      var a := new Accumulator();
      var b := new Accumulator();
      var c := new Accumulator();
      var d := new Accumulator();
      totals := a;
      byPath := map[UNKNOWN_PATH := b, HTTP_PATH := c, P2P_PATH := d];
      byType, byTypePath := map[], map[];
      index := NewIndex(a, b, c, d);
      NewHangs(a, b, c, d);
      new;
      forall s | s in index ensures index[s].Model() == ZERO {
        assert index[s] in index.Values;
      }
    }

    /** The slot has an accumulator; those there were keep their place. */
    method PathAccumulator(path: string) returns (a: Accumulator)
      requires Valid()
      modifies this
      ensures Valid() && Path(path) in index && index[Path(path)] == a
      ensures Model() == Touch(old(Model()), Path(path)) && fresh(index.Values - old(index.Values))
    {
      hide Hung;
      Hanging(index, byPath, byType, byTypePath, "", path);
      if path in byPath {
        return byPath[path];
      }
      a := new Accumulator();
      HangPath(index, byPath, byType, byTypePath, path, a);
      byPath := byPath[path := a];
      index := index[Path(path) := a];
    }

    method TypeAccumulator(messageType: string) returns (a: Accumulator)
      requires Valid()
      modifies this
      ensures Valid() && Type(messageType) in index && index[Type(messageType)] == a
      ensures Model() == Touch(old(Model()), Type(messageType)) && fresh(index.Values - old(index.Values))
    {
      hide Hung;
      Hanging(index, byPath, byType, byTypePath, messageType, "");
      if messageType in byType {
        return byType[messageType];
      }
      a := new Accumulator();
      HangType(index, byPath, byType, byTypePath, messageType, a);
      byType := byType[messageType := a];
      index := index[Type(messageType) := a];
    }

    method RowOf(messageType: string) returns (row: Column)
      requires Valid()
      modifies this
      ensures Valid() && index == old(index) && row == Row(old(byTypePath), messageType)
      ensures byTypePath == old(byTypePath)[messageType := row]
    {
      hide Hung;
      HangRow(index, byPath, byType, byTypePath, messageType);
      if messageType !in byTypePath {
        byTypePath := byTypePath[messageType := map[]];
      }
      row := byTypePath[messageType];
      assert byTypePath == old(byTypePath)[messageType := row];
    }

    method TypePathAccumulator(messageType: string, path: string) returns (a: Accumulator)
      requires Valid()
      modifies this
      ensures Valid() && Cell(messageType, path) in index && index[Cell(messageType, path)] == a
      ensures Model() == Touch(old(Model()), Cell(messageType, path)) && fresh(index.Values - old(index.Values))
    {
      hide Hung;
      Hanging(index, byPath, byType, byTypePath, messageType, path);
      var row := RowOf(messageType);
      if path in row {
        return row[path];
      }
      a := NewCell(messageType, path, row);
    }

    method NewCell(messageType: string, path: string, row: Column) returns (a: Accumulator)
      requires Valid() && row == Row(byTypePath, messageType) && path !in row
      modifies this
      ensures Valid() && Cell(messageType, path) in index && index[Cell(messageType, path)] == a
      ensures Model() == Touch(old(Model()), Cell(messageType, path)) && fresh(index.Values - old(index.Values))
    {
      hide Hung;
      a := new Accumulator();
      HangCell(index, byPath, byType, byTypePath, messageType, path, a);
      byTypePath := byTypePath[messageType := row[path := a]];
      index := index[Cell(messageType, path) := a];
    }

    /** Only the slot at which the accumulator hangs changes. */
    method ObserveAccumulator(ghost slot: Slot, a: Accumulator, d: nat, fault: Fault)
      requires Valid() && slot in index && index[slot] == a
      modifies a
      ensures Valid() && Model() == old(Model())[slot := Observed(old(Model())[slot], d, fault)]
    {
      hide PathsHung, TypesHung, CellsHung, Observed;
      a.Observe(d, fault);
    }

    method Observe(messageType: string, path: string, duration: int, fault: Fault)
      requires Valid()
      modifies this, index.Values
      ensures Valid() && Model() == Step(old(Model()), Observation(messageType, path, duration, fault))
      ensures fresh(index.Values - old(index.Values))
    {
      hide Hung, NormalizePath, NormalizeType, Bump;
      var p, t, d := NormalizePath(path), NormalizeType(messageType), duration;
      if d < 0 { d := 0; }
      ObserveTotals(d, fault);
      ObservePath(p, d, fault);
      ObserveType(t, d, fault);
      ObserveCell(t, p, d, fault);
    }

    method ObserveTotals(d: nat, fault: Fault)
      requires Valid()
      modifies this, index.Values
      ensures Valid() && Model() == Bump(old(Model()), All, d, fault) && fresh(index.Values - old(index.Values))
    {
      hide Hung, Observed;
      TouchThenBump(Model(), All, d, fault);
      var a := totals;
      ObserveAccumulator(All, a, d, fault);
    }

    method ObservePath(p: string, d: nat, fault: Fault)
      requires Valid()
      modifies this, index.Values
      ensures Valid() && Model() == Bump(old(Model()), Path(p), d, fault) && fresh(index.Values - old(index.Values))
    {
      hide Hung, Observed, Touch, Bump;
      TouchThenBump(Model(), Path(p), d, fault);
      var a := PathAccumulator(p);
      ObserveAccumulator(Path(p), a, d, fault);
    }

    method ObserveType(t: string, d: nat, fault: Fault)
      requires Valid()
      modifies this, index.Values
      ensures Valid() && Model() == Bump(old(Model()), Type(t), d, fault) && fresh(index.Values - old(index.Values))
    {
      hide Hung, Observed, Touch, Bump;
      TouchThenBump(Model(), Type(t), d, fault);
      var a := TypeAccumulator(t);
      ObserveAccumulator(Type(t), a, d, fault);
    }

    method ObserveCell(t: string, p: string, d: nat, fault: Fault)
      requires Valid()
      modifies this, index.Values
      ensures Valid() && Model() == Bump(old(Model()), Cell(t, p), d, fault) && fresh(index.Values - old(index.Values))
    {
      hide Hung, Observed, Touch, Bump;
      TouchThenBump(Model(), Cell(t, p), d, fault);
      var a := TypePathAccumulator(t, p);
      ObserveAccumulator(Cell(t, p), a, d, fault);
    }

    /** Every accumulator is reported under its place, and nothing else is. */
    method TakeSnapshot() returns (s: Snapshot)
      requires Valid()
      ensures forall slot :: Lists(s, slot) <==> slot in index
      ensures forall slot :: slot in index ==> Listed(s, slot) == Reported(index[slot].Model())
    {
      hide Hung, Reported;
      var all := totals.Report();
      var paths := ReportColumn(byPath);
      var types := ReportColumn(byType);
      var cells := ReportRows(byTypePath);
      s := Snapshot(all, paths, types, cells);
      forall slot ensures Lists(s, slot) <==> slot in index {
        SnapshotLists(index, byPath, byType, byTypePath, s, slot);
      }
      forall slot | slot in index ensures Listed(s, slot) == Reported(index[slot].Model()) {
        match slot {
          case All =>
          case Path(p) => Hanging(index, byPath, byType, byTypePath, "", p);
          case Type(t) => Hanging(index, byPath, byType, byTypePath, t, "");
          case Cell(t, p) => Hanging(index, byPath, byType, byTypePath, t, p);
        }
      }
    }
  }
}
