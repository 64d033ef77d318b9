/**
 Relay back-pressure: a bounded queue per peer, terminal lines dropped when it is full and reported
 later as a count.

 `PeerState` is one registration of one peer. Beside the queue and the drop counter it records what
 was ever put in the queue and which terminal lines were routed to the peer.
 */
module Relay {
  import opened Common
  import opened Protocol

  const TERM := "TERM"
  const TERM_SUMMARY := "TERM_SUMMARY"
  const SKIPPED := "skippedLines"

  /** `extra`: lost marks that no dropped line of this registration stands for. */
  datatype PeerState = PeerState(queue: seq<Envelope>, dropped: nat,
                                 put: seq<Envelope>, terms: seq<Envelope>, extra: nat)

  /** A fresh registration; the session keeps the drop counter it already had for the name. */
  function Registered(dropped: nat): PeerState {
    PeerState([], dropped, [], [], dropped)
  }

  function Enqueue(p: PeerState, e: Envelope): PeerState {
    p.(queue := p.queue + [e], put := p.put + [e])
  }

  function SummaryPayload(skipped: int): Payload { Members(map[], map[SKIPPED := skipped]) }

  /** protocol.NewEnvelope fails when the envelope it built is not valid. */
  function MakeSummary(e: Envelope, dropped: nat, now: int): Option<Envelope> {
    var summary := Envelope(e.sid, e.rid + "_term_summary", e.seq_, now, TERM_SUMMARY, SummaryPayload(dropped));
    if summary.Valid() then Some(summary) else None
  }

  function EmitSummary(p: PeerState, size: nat, e: Envelope, now: int): PeerState {
    if p.dropped == 0 || MakeSummary(e, p.dropped, now).None? || |p.queue| >= size then p
    else Enqueue(p, MakeSummary(e, p.dropped, now).value).(dropped := 0)
  }

  /** routeToPeer for a terminal line. */
  function RouteTerm(p: PeerState, size: nat, e: Envelope, now: int): PeerState {
    var q := EmitSummary(p, size, e, now).(terms := p.terms + [e]);
    if |q.queue| < size then Enqueue(q, e) else q.(dropped := q.dropped + 1)
  }

  /** The reader of the queue takes one envelope. */
  function Receive(p: PeerState): PeerState {
    if p.queue == [] then p else p.(queue := p.queue[1..])
  }

  /** The lost marks a reader would see in an envelope. */
  function Marks(e: Envelope): nat {
    if e.kind == TERM_SUMMARY && e.payload.Members? && NumberMember(e.payload, SKIPPED) > 0
    then NumberMember(e.payload, SKIPPED) else 0
  }

  /** routeToPeer for any other packet: it waits for room; `drained` says whether the reader makes some in time. */
  function RouteControl(p: PeerState, size: nat, e: Envelope, drained: bool): (PeerState, bool) {
    if |p.queue| < size then (Enqueue(p, e).(extra := p.extra + Marks(e)), true)
    else if drained && p.queue != [] then (Enqueue(Receive(p), e).(extra := p.extra + Marks(e)), true)
    else (p, false)
  }

  // ----- what the reader can reconstruct -----

  datatype Slot = Line(e: Envelope) | Lost

  function Losses(n: nat): (r: seq<Slot>)
    ensures |r| == n && forall i :: 0 <= i < n ==> r[i] == Lost
  {
    seq(n, i => Lost)
  }

  function Slots(e: Envelope): seq<Slot> {
    if e.kind == TERM then [Line(e)] else Losses(Marks(e))
  }

  function Expand(put: seq<Envelope>): seq<Slot> {
    if put == [] then [] else Expand(put[..|put| - 1]) + Slots(put[|put| - 1])
  }

  /** Every summary written out as lost marks, followed by the losses not reported yet. */
  function Account(p: PeerState): seq<Slot> {
    Expand(p.put) + Losses(p.dropped)
  }

  /** One slot per terminal line, holding that very line unless it is marked lost. */
  predicate Aligned(account: seq<Slot>, terms: seq<Envelope>) {
    |account| == |terms| && forall i :: 0 <= i < |terms| ==> account[i] == Lost || account[i] == Line(terms[i])
  }

  predicate Exact(p: PeerState) { Aligned(Account(p), p.terms) }

  /** The account has `extra` slots too many; without them it is aligned. */
  predicate Matches(account: seq<Slot>, terms: seq<Envelope>, extra: nat) {
    |account| == |terms| + extra && (extra == 0 ==> Aligned(account, terms))
  }

  predicate QueueOk(p: PeerState, size: nat) {
    |p.queue| <= size && |p.queue| <= |p.put| && p.queue == p.put[|p.put| - |p.queue|..]
  }

  predicate PeerOk(p: PeerState, size: nat) {
    QueueOk(p, size) && Matches(Account(p), p.terms, p.extra)
  }

  lemma ExpandSnoc(put: seq<Envelope>, e: Envelope)
    ensures Expand(put + [e]) == Expand(put) + Slots(e)
  {
    assert (put + [e])[..|put|] == put;
  }

  lemma EnqueueQueue(p: PeerState, size: nat, e: Envelope)
    requires QueueOk(p, size) && |p.queue| < size
    ensures QueueOk(Enqueue(p, e), size)
  {
  }

  lemma ReceiveOk(p: PeerState, size: nat)
    requires PeerOk(p, size)
    ensures PeerOk(Receive(p), size) && Account(Receive(p)) == Account(p)
  {
  }

  lemma EnqueueControl(p: PeerState, size: nat, e: Envelope)
    requires PeerOk(p, size) && |p.queue| < size && e.kind != TERM
    ensures PeerOk(Enqueue(p, e).(extra := p.extra + Marks(e)), size)
  {
    EnqueueQueue(p, size, e);
    ExpandSnoc(p.put, e);
    if Marks(e) == 0 {
      assert Slots(e) == [];
      assert Account(Enqueue(p, e)) == Account(p);
    }
  }

  lemma Bounded(p: PeerState, size: nat)
    requires PeerOk(p, size)
    ensures |p.queue| <= size
  {
  }

  lemma ControlOk(p: PeerState, size: nat, e: Envelope, drained: bool)
    requires PeerOk(p, size) && e.kind != TERM
    ensures PeerOk(RouteControl(p, size, e, drained).0, size)
  {
    hide PeerOk, Marks, Account;
    Bounded(p, size);
    if |p.queue| < size {
      EnqueueControl(p, size, e);
    } else if drained && p.queue != [] {
      ReceiveOk(p, size);
      EnqueueControl(Receive(p), size, e);
    }
  }

  /** A summary turns the unreported losses into marks at the same positions. */
  lemma SummaryOk(p: PeerState, size: nat, e: Envelope, now: int)
    requires PeerOk(p, size)
    ensures PeerOk(EmitSummary(p, size, e, now), size)
    ensures Account(EmitSummary(p, size, e, now)) == Account(p)
  {
    hide MakeSummary, Slots, Expand;
    var q := EmitSummary(p, size, e, now);
    if q != p {
      var summary := MakeSummary(e, p.dropped, now).value;
      EnqueueQueue(p, size, summary);
      ExpandSnoc(p.put, summary);
      SummarySlots(e, p.dropped, now);
      assert Account(q) == Account(p);
    }
  }

  lemma SummarySlots(e: Envelope, dropped: nat, now: int)
    requires MakeSummary(e, dropped, now).Some?
    ensures Slots(MakeSummary(e, dropped, now).value) == Losses(dropped)
  {
  }

  lemma NextSlot(account: seq<Slot>, terms: seq<Envelope>, extra: nat, slot: Slot, e: Envelope)
    requires Matches(account, terms, extra) && (slot == Lost || slot == Line(e))
    ensures Matches(account + [slot], terms + [e], extra)
  {
  }

  /** With a valid envelope a line is queued only once all earlier losses are reported. */
  lemma ReportedFirst(p: PeerState, size: nat, e: Envelope, now: int)
    requires e.Valid() && now > 0
    ensures var q := EmitSummary(p, size, e, now); |q.queue| < size ==> q.dropped == 0
  {
    assert e.rid + "_term_summary" != "";
  }

  lemma QueuedTerm(q: PeerState, size: nat, e: Envelope)
    requires PeerOk(q, size) && e.kind == TERM && |q.queue| < size && q.dropped == 0
    ensures PeerOk(Enqueue(q, e).(terms := q.terms + [e]), size)
  {
    EnqueueQueue(q, size, e);
    ExpandSnoc(q.put, e);
    assert Account(Enqueue(q, e)) == Account(q) + [Line(e)];
    NextSlot(Account(q), q.terms, q.extra, Line(e), e);
  }

  lemma DroppedTerm(q: PeerState, size: nat, e: Envelope)
    requires PeerOk(q, size)
    ensures PeerOk(q.(terms := q.terms + [e], dropped := q.dropped + 1), size)
  {
    hide Matches, Expand;
    assert Losses(q.dropped + 1) == Losses(q.dropped) + [Lost];
    assert Account(q.(dropped := q.dropped + 1)) == Account(q) + [Lost];
    NextSlot(Account(q), q.terms, q.extra, Lost, e);
  }

  lemma TermOk(p: PeerState, size: nat, e: Envelope, now: int)
    requires PeerOk(p, size) && e.kind == TERM && e.Valid() && now > 0
    ensures PeerOk(RouteTerm(p, size, e, now), size)
  {
    hide EmitSummary, PeerOk;
    var q := EmitSummary(p, size, e, now);
    SummaryOk(p, size, e, now);
    ReportedFirst(p, size, e, now);
    SameCounters(p, size, e, now);
    if |q.queue| < size {
      QueuedTerm(q, size, e);
    } else {
      DroppedTerm(q, size, e);
    }
  }

  lemma SameCounters(p: PeerState, size: nat, e: Envelope, now: int)
    ensures EmitSummary(p, size, e, now).terms == p.terms && EmitSummary(p, size, e, now).extra == p.extra
  {
  }

  /** A control packet is queued exactly if there is room or the reader makes some in time, as the newest entry. */
  lemma ControlFate(p: PeerState, size: nat, e: Envelope, drained: bool)
    ensures
      var (q, ok) := RouteControl(p, size, e, drained);
      && (ok <==> |p.queue| < size || (drained && p.queue != []))
      && q.dropped == p.dropped && q.terms == p.terms
      && q.queue == (if !ok then p.queue else if |p.queue| < size then p.queue + [e] else p.queue[1..] + [e])
  {
    hide Marks;
  }

  /**
   What becomes of a line: it is queued if there is room for it and for the report of earlier losses; if there is
   room for the report alone, the losses are reported and the line is the next one lost; and only a full queue
   leaves everything unreported.
   */
  lemma LineFate(p: PeerState, size: nat, e: Envelope, now: int)
    requires e.Valid() && now > 0
    ensures
      var q := RouteTerm(p, size, e, now);
      var report := Envelope(e.sid, e.rid + "_term_summary", e.seq_, now, "TERM_SUMMARY",
                             Members(map[], map["skippedLines" := p.dropped]));
      && q.terms == p.terms + [e]
      && if |p.queue| >= size then q.queue == p.queue && q.dropped == p.dropped + 1
         else if p.dropped == 0 then q.queue == p.queue + [e] && q.dropped == 0
         else if |p.queue| + 1 < size then q.queue == p.queue + [report] + [e] && q.dropped == 0
         else q.queue == p.queue + [report] && q.dropped == 1
  {
    assert e.rid + "_term_summary" != "";
  }

  // ----- every run of one registration -----

  datatype Op = Term(e: Envelope, now: int) | Control(e: Envelope, drained: bool) | Take

  /** The server validates every envelope before it routes it, and TERM is told from control by its kind. */
  predicate OpOk(op: Op) {
    match op
    case Term(e, now) => e.kind == TERM && e.Valid() && now > 0
    case Control(e, _) => e.kind != TERM
    case Take => true
  }

  function Apply(p: PeerState, size: nat, op: Op): PeerState {
    match op
    case Term(e, now) => RouteTerm(p, size, e, now)
    case Control(e, drained) => RouteControl(p, size, e, drained).0
    case Take => Receive(p)
  }

  function Run(p: PeerState, size: nat, ops: seq<Op>): PeerState {
    if ops == [] then p else Apply(Run(p, size, ops[..|ops| - 1]), size, ops[|ops| - 1])
  }

  lemma {:induction false} RunOk(p: PeerState, size: nat, ops: seq<Op>)
    requires PeerOk(p, size) && forall op :: op in ops ==> OpOk(op)
    ensures PeerOk(Run(p, size, ops), size)
  {
    if ops != [] {
      var q, op := Run(p, size, ops[..|ops| - 1]), ops[|ops| - 1];
      RunOk(p, size, ops[..|ops| - 1]);
      assert OpOk(op);
      match op
      case Term(e, now) => TermOk(q, size, e, now);
      case Control(e, drained) => ControlOk(q, size, e, drained);
      case Take => ReceiveOk(q, size);
    }
  }

  /** The i-th operation put a packet in the queue that itself reads as a report of losses. */
  predicate ForeignReport(carried: nat, size: nat, ops: seq<Op>, i: nat)
    requires i < |ops|
  {
    && ops[i].Control? && Marks(ops[i].e) > 0
    && RouteControl(Run(Registered(carried), size, ops[..i]), size, ops[i].e, ops[i].drained).1
  }

  lemma {:induction false} ExtraMarks(carried: nat, size: nat, ops: seq<Op>)
    ensures Run(Registered(carried), size, ops).extra == 0 <==>
              carried == 0 && forall i :: 0 <= i < |ops| ==> !ForeignReport(carried, size, ops, i)
  {
    hide Marks;
    if ops != [] {
      var n := |ops| - 1;
      var before := ops[..n];
      ExtraMarks(carried, size, before);
      forall i | 0 <= i < n ensures ForeignReport(carried, size, before, i) == ForeignReport(carried, size, ops, i) {
        assert before[..i] == ops[..i];
      }
      ExtraStep(Run(Registered(carried), size, before), size, ops[n]);
      assert ForeignReport(carried, size, ops, n) ==
        (ops[n].Control? && Marks(ops[n].e) > 0
         && RouteControl(Run(Registered(carried), size, before), size, ops[n].e, ops[n].drained).1);
      assert (forall i :: 0 <= i < |ops| ==> !ForeignReport(carried, size, ops, i)) <==>
        !ForeignReport(carried, size, ops, n) && forall i :: 0 <= i < n ==> !ForeignReport(carried, size, before, i);
    }
  }

  lemma ExtraStep(p: PeerState, size: nat, op: Op)
    ensures Apply(p, size, op).extra == p.extra +
              if op.Control? && RouteControl(p, size, op.e, op.drained).1 then Marks(op.e) else 0
  {
    hide Marks;
  }

  /**
   Loss accounting over every run of a registration. The queue stays within its size and holds the newest
   envelopes put there, in order. The account has one slot per terminal line, exact in position, if and only
   if no lost mark came from elsewhere: no counter left over from an earlier registration of the name, and no
   control packet queued that itself reads as a positive TERM_SUMMARY.
   */
  lemma LossAccounting(carried: nat, size: nat, ops: seq<Op>)
    requires forall op :: op in ops ==> OpOk(op)
    ensures QueueOk(Run(Registered(carried), size, ops), size)
    ensures Exact(Run(Registered(carried), size, ops)) <==>
              carried == 0 && forall i :: 0 <= i < |ops| ==> !ForeignReport(carried, size, ops, i)
  {
    hide PeerOk, Exact, QueueOk, Marks, Apply, ForeignReport;
    RegisteredOk(carried, size);
    RunOk(Registered(carried), size, ops);
    ExactWithoutExtra(Run(Registered(carried), size, ops), size);
    ExtraMarks(carried, size, ops);
  }

  /** A peer that registers again while a line is unreported inherits the loss: its account starts one off. */
  lemma InheritedCounter(line: Envelope, now: int)
    requires line.kind == TERM && line.Valid() && now > 0
    ensures
      var old' := Run(Registered(0), 1, [Term(line, now), Term(line, now)]);
      old'.dropped == 1 && !Exact(Run(Registered(old'.dropped), 1, []))
  {
    var ops := [Term(line, now), Term(line, now)];
    assert ops[..1][..0] == [] && ops[..1] == [ops[0]];
    var one := Run(Registered(0), 1, ops[..1]);
    assert one == RouteTerm(Run(Registered(0), 1, ops[..1][..0]), 1, line, now);
    LossAccounting(1, 1, []);
  }

  /** A TERM_SUMMARY that a peer sends itself is taken for a report of the relay. */
  lemma SentSummary(e: Envelope)
    requires e.kind == TERM_SUMMARY && Marks(e) > 0
    ensures !Exact(Run(Registered(0), 1, [Control(e, false)]))
  {
    hide Marks;
    var ops := [Control(e, false)];
    assert ops[..0] == [];
    assert ForeignReport(0, 1, ops, 0);
    LossAccounting(0, 1, ops);
  }

  lemma RegisteredOk(carried: nat, size: nat)
    ensures PeerOk(Registered(carried), size)
  {
  }

  lemma ExactWithoutExtra(p: PeerState, size: nat)
    requires PeerOk(p, size)
    ensures QueueOk(p, size) && (Exact(p) <==> p.extra == 0)
  {
  }

  // ----- one sender, with the reader running between its actions -----

  /** Where the sender stands inside routeToPeer. */
  datatype Sender =
    | Ready
    | Counted(e: Envelope, seen: nat, now: int)
    | Resetting(e: Envelope)
    | Trying(e: Envelope)
    | Missed(e: Envelope)

  /** `slipped`: a line was queued while losses before it were still unreported. */
  datatype Net = Net(p: PeerState, sender: Sender, slipped: bool)

  const IDLE := Net(Registered(0), Ready, false)

  /** A control packet that finds no room waits: until it is queued nothing happens, and on a timeout neither. */
  datatype Action =
    | ReadCounter(e: Envelope, now: int)
    | TrySummary
    | ResetCounter
    | TryLine
    | CountMiss
    | SendControl(e: Envelope)
    | ReaderTakes

  /** The sender queues a packet other than a terminal line. */
  predicate Sends(n: Net, size: nat, a: Action) {
    a.SendControl? && n.sender.Ready? && a.e.kind != TERM && |n.p.queue| < size
  }

  function Act(n: Net, size: nat, a: Action): Net {
    match a
    case ReadCounter(e, now) =>
      if n.sender.Ready? && e.kind == TERM && e.Valid() && now > 0
      then Net(n.p.(terms := n.p.terms + [e]), Counted(e, n.p.dropped, now), n.slipped) else n
    case TrySummary =>
      if !n.sender.Counted? then n
      else
        var Counted(e, seen, now) := n.sender;
        if seen == 0 || MakeSummary(e, seen, now).None? || |n.p.queue| >= size then n.(sender := Trying(e))
        else Net(Enqueue(n.p, MakeSummary(e, seen, now).value), Resetting(e), n.slipped)
    case ResetCounter =>
      if n.sender.Resetting? then Net(n.p.(dropped := 0), Trying(n.sender.e), n.slipped) else n
    case TryLine =>
      if !n.sender.Trying? then n
      else if |n.p.queue| < size then Net(Enqueue(n.p, n.sender.e), Ready, n.slipped || n.p.dropped > 0)
      else n.(sender := Missed(n.sender.e))
    case CountMiss =>
      if n.sender.Missed? then Net(n.p.(dropped := n.p.dropped + 1), Ready, n.slipped) else n
    case SendControl(e) =>
      if Sends(n, size, a) then n.(p := Enqueue(n.p, e).(extra := n.p.extra + Marks(e))) else n
    case ReaderTakes => n.(p := Receive(n.p))
  }

  function Play(n: Net, size: nat, actions: seq<Action>): Net {
    if actions == [] then n else Act(Play(n, size, actions[..|actions| - 1]), size, actions[|actions| - 1])
  }

  /** The terminal lines whose fate is settled: all but the one in hand. */
  function Settled(n: Net): seq<Envelope> {
    if n.sender.Ready? || n.p.terms == [] then n.p.terms else n.p.terms[..|n.p.terms| - 1]
  }

  /** The account, not counting losses a second time between a summary and the reset of the counter. */
  function AccountOf(n: Net): seq<Slot> {
    Expand(n.p.put) + Losses(if n.sender.Resetting? then 0 else n.p.dropped)
  }

  /** Some line stands in an earlier slot than its own. */
  ghost predicate Early(slots: seq<Slot>, terms: seq<Envelope>) {
    exists i, j :: 0 <= i < j < |terms| && i < |slots| && slots[i] == Line(terms[j])
  }

  predicate SenderOk(n: Net) {
    && (n.sender.Counted? ==> n.sender.seen == n.p.dropped && n.sender.e.Valid() && n.sender.now > 0)
    && (!n.sender.Ready? ==> n.p.terms != [] && n.p.terms[|n.p.terms| - 1] == n.sender.e && n.sender.e.kind == TERM)
  }

  ghost predicate NetOk(n: Net) {
    && SenderOk(n)
    && |AccountOf(n)| == |Settled(n)| + n.p.extra
    && (n.p.extra == 0 && !n.slipped ==> Aligned(AccountOf(n), Settled(n)))
    && (n.p.extra == 0 && n.slipped ==> Early(Expand(n.p.put), n.p.terms))
  }

  lemma EarlyGrows(slots: seq<Slot>, terms: seq<Envelope>, more: seq<Slot>, lines: seq<Envelope>)
    requires Early(slots, terms)
    ensures Early(slots + more, terms + lines)
  {
    var i, j :| 0 <= i < j < |terms| && i < |slots| && slots[i] == Line(terms[j]);
    assert (slots + more)[i] == Line((terms + lines)[j]);
  }

  lemma SummaryActOk(n: Net, size: nat)
    requires NetOk(n)
    ensures NetOk(Act(n, size, TrySummary))
  {
    hide MakeSummary, Slots, Expand, Aligned, Early, Envelope.Valid;
    var m := Act(n, size, TrySummary);
    if n.sender.Counted? && m.sender.Resetting? {
      var summary := MakeSummary(n.sender.e, n.sender.seen, n.sender.now).value;
      ExpandSnoc(n.p.put, summary);
      SummarySlots(n.sender.e, n.sender.seen, n.sender.now);
      assert AccountOf(m) == AccountOf(n);
      if n.p.extra == 0 && n.slipped { EarlyGrows(Expand(n.p.put), n.p.terms, Slots(summary), []); }
      assert n.p.terms + [] == n.p.terms;
    }
  }

  lemma LineActOk(n: Net, size: nat)
    requires NetOk(n)
    ensures NetOk(Act(n, size, TryLine))
  {
    hide MakeSummary, Expand, Aligned, Marks, Early;
    if n.sender.Trying? && |n.p.queue| < size {
      var m := Act(n, size, TryLine);
      var e := n.sender.e;
      ExpandSnoc(n.p.put, e);
      assert m.p.terms == n.p.terms && Settled(m) == Settled(n) + [e];
      assert AccountOf(m) == Expand(n.p.put) + [Line(e)] + Losses(n.p.dropped);
      if n.p.extra == 0 {
        if n.slipped {
          EarlyGrows(Expand(n.p.put), n.p.terms, [Line(e)], []);
          assert n.p.terms + [] == n.p.terms;
        } else if n.p.dropped == 0 {
          assert AccountOf(m) == AccountOf(n) + [Line(e)];
          AlignedNext(AccountOf(n), Settled(n), e);
        } else {
          LineIsEarly(Expand(n.p.put), n.p.terms);
        }
      }
    }
  }

  lemma LineIsEarly(slots: seq<Slot>, terms: seq<Envelope>)
    requires terms != [] && |slots| < |terms| - 1
    ensures Early(slots + [Line(terms[|terms| - 1])], terms)
  {
    var more := slots + [Line(terms[|terms| - 1])];
    assert more[|slots|] == Line(terms[|terms| - 1]);
  }

  lemma AlignedNext(account: seq<Slot>, terms: seq<Envelope>, e: Envelope)
    requires Aligned(account, terms)
    ensures Aligned(account + [Line(e)], terms + [e])
  {
  }

  lemma MissActOk(n: Net, size: nat)
    requires NetOk(n)
    ensures NetOk(Act(n, size, CountMiss))
  {
    hide Expand, Early;
    var m := Act(n, size, CountMiss);
    if n.sender.Missed? {
      assert Settled(m) == Settled(n) + [n.sender.e];
      assert Losses(n.p.dropped + 1) == Losses(n.p.dropped) + [Lost];
      assert AccountOf(m) == AccountOf(n) + [Lost];
    }
  }

  lemma ReadActOk(n: Net, size: nat, e: Envelope, now: int)
    requires NetOk(n)
    ensures NetOk(Act(n, size, ReadCounter(e, now)))
  {
    hide Expand, Early, Aligned;
    var m := Act(n, size, ReadCounter(e, now));
    if m != n {
      assert Settled(m) == n.p.terms;
      if n.p.extra == 0 && n.slipped { EarlyGrows(Expand(n.p.put), n.p.terms, [], [e]); }
      assert Expand(n.p.put) + [] == Expand(n.p.put);
    }
  }

  lemma ControlActOk(n: Net, size: nat, e: Envelope)
    requires NetOk(n)
    ensures NetOk(Act(n, size, SendControl(e)))
  {
    hide Expand, Early, Aligned, Marks;
    var m := Act(n, size, SendControl(e));
    if m != n {
      ExpandSnoc(n.p.put, e);
      assert |Slots(e)| == Marks(e);
      if Marks(e) == 0 {
        assert Expand(m.p.put) == Expand(n.p.put);
      }
    }
  }

  lemma ActOk(n: Net, size: nat, a: Action)
    requires NetOk(n)
    ensures NetOk(Act(n, size, a))
  {
    match a
    case ReadCounter(e, now) => ReadActOk(n, size, e, now);
    case TrySummary => SummaryActOk(n, size);
    case ResetCounter =>
    case TryLine => LineActOk(n, size);
    case CountMiss => MissActOk(n, size);
    case SendControl(e) => ControlActOk(n, size, e);
    case ReaderTakes =>
  }

  lemma {:induction false} PlayOk(size: nat, actions: seq<Action>)
    ensures NetOk(Play(IDLE, size, actions))
  {
    hide NetOk, Act;
    if actions == [] {
      IdleOk();
    } else {
      PlayOk(size, actions[..|actions| - 1]);
      ActOk(Play(IDLE, size, actions[..|actions| - 1]), size, actions[|actions| - 1]);
    }
  }

  lemma IdleOk()
    ensures NetOk(IDLE)
  {
  }

  // ----- what the actions alone say about the account -----

  /** How things stand before the i-th action. */
  function At(size: nat, actions: seq<Action>, i: nat): Net
    requires i <= |actions|
  {
    Play(IDLE, size, actions[..i])
  }

  /** The h-th action is a summary with something to report that found the queue full; its line is still in hand. */
  ghost predicate HeldUp(size: nat, actions: seq<Action>, h: nat) {
    && h < |actions| && actions[h] == TrySummary
    && At(size, actions, h).sender.Counted? && At(size, actions, h).sender.seen > 0
    && |At(size, actions, h).p.queue| >= size
    && forall m :: h < m <= |actions| ==> At(size, actions, m).sender.Trying?
  }

  /** The reader takes something after a summary found no room and before its line is tried: the i-th action. */
  ghost predicate Overtakes(size: nat, actions: seq<Action>, h: nat, k: nat, i: nat) {
    && h < k < i < |actions| && HeldUp(size, actions[..i], h)
    && actions[k] == ReaderTakes && actions[i] == TryLine
  }

  ghost predicate Overtaken(size: nat, actions: seq<Action>) {
    size > 0 && exists h, k, i :: Overtakes(size, actions, h, k, i)
  }

  /** The i-th action queues a packet that itself reads as a report of losses. */
  ghost predicate ForeignMark(size: nat, actions: seq<Action>, i: nat) {
    i < |actions| && Sends(At(size, actions, i), size, actions[i]) && Marks(actions[i].e) > 0
  }

  lemma AtPrefix(size: nat, actions: seq<Action>, n: nat, i: nat)
    requires i <= n <= |actions|
    ensures At(size, actions[..n], i) == At(size, actions, i)
  {
    assert actions[..n][..i] == actions[..i];
  }

  lemma AtNext(size: nat, actions: seq<Action>, i: nat)
    requires i < |actions|
    ensures At(size, actions, i + 1) == Act(At(size, actions, i), size, actions[i])
  {
    assert actions[..i + 1][..i] == actions[..i];
  }

  lemma AtEnd(size: nat, actions: seq<Action>)
    ensures At(size, actions, |actions|) == Play(IDLE, size, actions)
  {
    assert actions[..|actions|] == actions;
  }

  lemma HeldUpMore(size: nat, actions: seq<Action>, h: nat)
    requires actions != [] && HeldUp(size, actions[..|actions| - 1], h) && Play(IDLE, size, actions).sender.Trying?
    ensures HeldUp(size, actions, h)
  {
    hide Play;
    var n := |actions| - 1;
    forall m | 0 <= m <= n ensures At(size, actions[..n], m) == At(size, actions, m) { AtPrefix(size, actions, n, m); }
    AtEnd(size, actions);
  }

  lemma SummaryCanBeMade(e: Envelope, dropped: nat, now: int)
    requires e.Valid() && now > 0
    ensures MakeSummary(e, dropped, now).Some?
  {
    assert e.rid + "_term_summary" != "";
  }

  /** How the sender comes to try a line with losses unreported. */
  lemma HowHeldUp(b: Net, size: nat, a: Action)
    requires SenderOk(b) && Act(b, size, a).sender.Trying? && Act(b, size, a).p.dropped > 0
    ensures
      || (b.sender.Counted? && a == TrySummary && b.sender.seen > 0 && |b.p.queue| >= size
          && Act(b, size, a).p.queue == b.p.queue)
      || (b.sender.Trying? && b.p.dropped > 0
          && (|Act(b, size, a).p.queue| < size ==> |b.p.queue| < size || a == ReaderTakes))
  {
    hide MakeSummary, Marks;
    if b.sender.Counted? { SummaryCanBeMade(b.sender.e, b.sender.seen, b.sender.now); }
  }

  lemma JustHeldUp(size: nat, actions: seq<Action>)
    requires actions != [] && Play(IDLE, size, actions).sender.Trying?
    requires
      var n := |actions| - 1;
      var b := At(size, actions, n);
      actions[n] == TrySummary && b.sender.Counted? && b.sender.seen > 0 && |b.p.queue| >= size
    ensures HeldUp(size, actions, |actions| - 1)
  {
    hide Play;
    AtEnd(size, actions);
  }

  /** A line in hand with losses unreported was held up, and if there is room now the reader has taken something. */
  lemma {:induction false} WhyHeldUp(size: nat, actions: seq<Action>) returns (h: nat, k: nat)
    requires Play(IDLE, size, actions).sender.Trying? && Play(IDLE, size, actions).p.dropped > 0
    ensures HeldUp(size, actions, h)
    ensures |Play(IDLE, size, actions).p.queue| < size ==> h < k < |actions| && actions[k] == ReaderTakes
    decreases |actions|
  {
    hide Act, HeldUp, NetOk;
    var n := |actions| - 1;
    assert actions != [];
    var b, a := At(size, actions, n), actions[n];
    PlayOk(size, actions[..n]);
    KnownSender(b);
    HowHeldUp(b, size, a);
    h, k := n, n;
    if b.sender.Trying? && b.p.dropped > 0 {
      h, k := WhyHeldUp(size, actions[..n]);
      HeldUpMore(size, actions, h);
      HeldUpBefore(size, actions[..n], h);
      if |b.p.queue| >= size { k := n; }
    } else {
      JustHeldUp(size, actions);
    }
  }

  lemma KnownSender(n: Net)
    requires NetOk(n)
    ensures SenderOk(n)
  {
  }

  lemma HeldUpBefore(size: nat, actions: seq<Action>, h: nat)
    requires HeldUp(size, actions, h)
    ensures h < |actions|
  {
  }

  lemma OvertakesMore(size: nat, actions: seq<Action>, n: nat, h: nat, k: nat, i: nat)
    requires n <= |actions| && Overtakes(size, actions[..n], h, k, i)
    ensures Overtakes(size, actions, h, k, i)
  {
    hide HeldUp;
    assert actions[..n][..i] == actions[..i];
  }

  /** Where a line slipped past unreported losses, the reader had overtaken a summary that found no room. */
  lemma {:induction false} SlipIsOvertaking(size: nat, actions: seq<Action>)
    requires Play(IDLE, size, actions).slipped
    ensures Overtaken(size, actions)
  {
    hide Overtakes, HeldUp, NetOk;
    var n := |actions| - 1;
    assert actions != [];
    var before := actions[..n];
    if Play(IDLE, size, before).slipped {
      SlipIsOvertaking(size, before);
      var h, k, i :| Overtakes(size, before, h, k, i);
      OvertakesMore(size, actions, n, h, k, i);
    } else {
      var h, k := WhyHeldUp(size, before);
      LastOvertakes(size, actions, h, k);
    }
  }

  lemma LastOvertakes(size: nat, actions: seq<Action>, h: nat, k: nat)
    requires actions != [] && HeldUp(size, actions[..|actions| - 1], h) && h < k < |actions| - 1
    requires actions[k] == ReaderTakes && actions[|actions| - 1] == TryLine
    ensures Overtakes(size, actions, h, k, |actions| - 1)
  {
    hide HeldUp;
  }

  /** While the line is in hand only the reader moves, so the losses stay unreported and room stays room. */
  lemma {:induction false} WhileHeldUp(size: nat, actions: seq<Action>, h: nat, m: nat)
    requires HeldUp(size, actions, h) && h < m <= |actions| && size > 0
    ensures
      var n := At(size, actions, m);
      && n.p.dropped > 0 && |n.p.queue| <= size
      && forall k :: h < k < m && actions[k] == ReaderTakes ==> |n.p.queue| < size
    decreases m
  {
    hide Play, NetOk;
    AtNext(size, actions, m - 1);
    PlayOk(size, actions[..m - 1]);
    KnownSender(At(size, actions, m - 1));
    PlayBounded(size, actions[..m - 1]);
    if m > h + 1 {
      WhileHeldUp(size, actions, h, m - 1);
    }
  }

  lemma {:induction false} PlayBounded(size: nat, actions: seq<Action>)
    ensures |Play(IDLE, size, actions).p.queue| <= size
  {
    hide Act;
    if actions != [] {
      PlayBounded(size, actions[..|actions| - 1]);
      ActCounts(Play(IDLE, size, actions[..|actions| - 1]), size, actions[|actions| - 1]);
    }
  }

  /** What every action does to the length of the queue, the foreign marks and the slips. */
  lemma ActCounts(n: Net, size: nat, a: Action)
    ensures |n.p.queue| <= size ==> |Act(n, size, a).p.queue| <= size
    ensures Act(n, size, a).p.extra == n.p.extra + if Sends(n, size, a) then Marks(a.e) else 0
    ensures n.slipped ==> Act(n, size, a).slipped
  {
    hide MakeSummary, Marks;
  }

  lemma {:induction false} SlippedStays(size: nat, actions: seq<Action>, n: nat)
    requires n <= |actions| && At(size, actions, n).slipped
    ensures Play(IDLE, size, actions).slipped
    decreases |actions|
  {
    hide Act, Play;
    AtEnd(size, actions);
    if n < |actions| {
      ActCounts(At(size, actions, |actions| - 1), size, actions[|actions| - 1]);
      AtNext(size, actions, |actions| - 1);
      AtPrefix(size, actions, |actions| - 1, n);
      SlippedStays(size, actions[..|actions| - 1], n);
    }
  }

  lemma OvertakingSlips(size: nat, actions: seq<Action>, h: nat, k: nat, i: nat)
    requires size > 0 && Overtakes(size, actions, h, k, i)
    ensures Play(IDLE, size, actions).slipped
  {
    hide Play;
    var before := actions[..i];
    WhileHeldUp(size, before, h, i);
    assert before[k] == ReaderTakes;
    AtEnd(size, before);
    AtNext(size, actions, i);
    SlippedStays(size, actions, i + 1);
  }

  lemma {:induction false} ExtraIsForeign(size: nat, actions: seq<Action>)
    ensures Play(IDLE, size, actions).p.extra == 0 <==>
              forall i :: 0 <= i < |actions| ==> !ForeignMark(size, actions, i)
  {
    hide Marks, Act;
    if actions != [] {
      var n := |actions| - 1;
      ExtraIsForeign(size, actions[..n]);
      ActCounts(Play(IDLE, size, actions[..n]), size, actions[n]);
      forall i | 0 <= i < n ensures ForeignMark(size, actions[..n], i) == ForeignMark(size, actions, i) {
        AtPrefix(size, actions, n, i);
      }
      assert ForeignMark(size, actions, n) ==
        (Sends(Play(IDLE, size, actions[..n]), size, actions[n]) && Marks(actions[n].e) > 0);
      assert (forall i :: 0 <= i < |actions| ==> !ForeignMark(size, actions, i)) <==>
        !ForeignMark(size, actions, n) && forall i :: 0 <= i < n ==> !ForeignMark(size, actions[..n], i);
    }
  }

  predicate PairwiseDistinct(lines: seq<Envelope>) {
    forall i, j :: 0 <= i < j < |lines| ==> lines[i] != lines[j]
  }

  lemma EarlyIsNotExact(p: PeerState)
    requires Early(Expand(p.put), p.terms) && PairwiseDistinct(p.terms)
    ensures !Exact(p)
  {
    hide Expand;
    var i, j :| 0 <= i < j < |p.terms| && i < |Expand(p.put)| && Expand(p.put)[i] == Line(p.terms[j]);
    assert Account(p)[i] == Line(p.terms[j]);
  }

  lemma WhenExact(n: Net)
    requires NetOk(n) && n.sender.Ready?
    ensures !n.slipped && n.p.extra == 0 ==> Exact(n.p)
    ensures PairwiseDistinct(n.p.terms) ==> (Exact(n.p) <==> !n.slipped && n.p.extra == 0)
  {
    hide Expand, Early;
    assert AccountOf(n) == Account(n.p) && Settled(n) == n.p.terms;
    if n.p.extra == 0 && n.slipped && PairwiseDistinct(n.p.terms) { EarlyIsNotExact(n.p); }
  }

  /**
   With the reader running between the sender's actions, the account between two lines is exact in position
   when the reader never takes something between a summary that found the queue full and its line, and no packet
   queued by the sender itself reads as a report of losses. For pairwise distinct lines it is exact only then.
   */
  lemma InterleavedAccount(size: nat, actions: seq<Action>)
    requires Play(IDLE, size, actions).sender.Ready?
    ensures
      var p := Play(IDLE, size, actions).p;
      var undisturbed := !Overtaken(size, actions) && forall i :: 0 <= i < |actions| ==> !ForeignMark(size, actions, i);
      && (undisturbed ==> Exact(p))
      && (PairwiseDistinct(p.terms) ==> (Exact(p) <==> undisturbed))
  {
    hide Play, NetOk, Exact, PairwiseDistinct, Overtakes, ForeignMark;
    PlayOk(size, actions);
    WhenExact(Play(IDLE, size, actions));
    ExtraIsForeign(size, actions);
    if Play(IDLE, size, actions).slipped { SlipIsOvertaking(size, actions); }
    if Overtaken(size, actions) {
      var h, k, i :| Overtakes(size, actions, h, k, i);
      OvertakingSlips(size, actions, h, k, i);
    }
  }

  /** However the reader interleaves, no loss goes uncounted: slots are lines routed plus foreign marks. */
  lemma InterleavedCounts(size: nat, actions: seq<Action>)
    ensures
      var n := Play(IDLE, size, actions);
      && (n.sender.Ready? ==> |Account(n.p)| == |n.p.terms| + n.p.extra)
      && (n.p.extra == 0 <==> forall i :: 0 <= i < |actions| ==> !ForeignMark(size, actions, i))
  {
    hide Play, ForeignMark;
    PlayOk(size, actions);
    ExtraIsForeign(size, actions);
  }

  /** The sender routes one line without the reader running in between. */
  function Undisturbed(n: Net, size: nat, e: Envelope, now: int): Net {
    var m := Act(Act(Act(Act(n, size, ReadCounter(e, now)), size, TrySummary), size, ResetCounter), size, TryLine);
    Act(m, size, CountMiss)
  }

  /** Undisturbed, the sender's actions amount to the atomic step. */
  lemma AtomicStep(n: Net, size: nat, e: Envelope, now: int)
    requires n.sender.Ready? && e.kind == TERM && e.Valid() && now > 0
    ensures Undisturbed(n, size, e, now) == n.(p := RouteTerm(n.p, size, e, now))
  {
    assert e.rid + "_term_summary" != "";
  }

  /** A control packet that does not have to wait is queued in one action. */
  lemma AtomicControl(n: Net, size: nat, e: Envelope)
    requires n.sender.Ready? && e.kind != TERM
    ensures Act(n, size, SendControl(e)) == n.(p := RouteControl(n.p, size, e, false).0)
  {
  }

  /** A queue of one is filled by the first line, and the second is counted as lost. */
  lemma SecondLineIsLost(one: Envelope, two: Envelope, now: int)
    requires one.kind == TERM && two.kind == TERM && one.Valid() && two.Valid() && now > 0
    ensures Undisturbed(Undisturbed(IDLE, 1, one, now), 1, two, now)
         == Net(PeerState([one], 1, [one], [one, two], 0), Ready, false)
  {
    hide Undisturbed, MakeSummary, Envelope.Valid;
    AtomicStep(IDLE, 1, one, now);
    var first := Undisturbed(IDLE, 1, one, now);
    assert first == Net(PeerState([one], 0, [one], [one], 0), Ready, false);
    AtomicStep(first, 1, two, now);
  }

  /** A slip is possible: the reader takes an envelope after the summary found the queue full. */
  lemma PositionCanSlip(one: Envelope, two: Envelope, three: Envelope, now: int)
    requires one.kind == TERM && two.kind == TERM && three.kind == TERM && two != three
    requires one.Valid() && two.Valid() && three.Valid() && now > 0
    ensures
      var full := Undisturbed(Undisturbed(IDLE, 1, one, now), 1, two, now);
      var tried := Act(Act(full, 1, ReadCounter(three, now)), 1, TrySummary);
      var n := Act(Act(tried, 1, ReaderTakes), 1, TryLine);
      n.sender.Ready? && n.p.terms == [one, two, three] && !Exact(n.p)
  {
    hide Undisturbed, MakeSummary, Expand;
    SecondLineIsLost(one, two, now);
    var full := Net(PeerState([one], 1, [one], [one, two], 0), Ready, false);
    var tried := Act(Act(full, 1, ReadCounter(three, now)), 1, TrySummary);
    var n := Act(Act(tried, 1, ReaderTakes), 1, TryLine);
    assert n.p == PeerState([three], 1, [one, three], [one, two, three], 0);
    TwoLines(one, three);
    assert Account(n.p)[1] == Line(three);
  }

  lemma TwoLines(a: Envelope, b: Envelope)
    requires a.kind == TERM && b.kind == TERM
    ensures Expand([a, b]) == [Line(a), Line(b)]
  {
    var none: seq<Envelope> := [];
    assert Expand(none) == [];
    hide Expand, Marks;
    ExpandSnoc(none, a);
    ExpandSnoc([a], b);
    assert none + [a] == [a] && [a] + [b] == [a, b];
  }
}
