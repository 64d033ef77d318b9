/**
 The bridge adapter's request multiplexer under every interleaving.

 Callers, the reader of the bridge's output and the shutdown path share a map from request IDs to
 one-shot channels. Each atomic action of each goroutine is one step; a step that is not enabled
 leaves the state alone, so any sequence of steps is a run. A channel is made by one call and is
 named by that call's number.
 */
module BridgeRpc {
  import opened Common
  import opened Text

  datatype Response = Response(id: string, body: string)

  datatype Outcome = Got(response: Response) | Stopped | Failed

  /** Where a call stands: numbered, in the map, waiting in select, about to drop its entry, or returned. */
  datatype Phase = Opened | Sending | Waiting | Dropping(outcome: Outcome) | Returned(outcome: Outcome)

  /** A call and its channel of capacity one. */
  datatype Call = Call(phase: Phase, buffer: Option<Response>, closed: bool)

  /** Where deliver stands: idle, holding a channel it took from the map, or about to close it. */
  datatype Reader = Idle | Holding(ch: nat, response: Response) | Sent(ch: nat)

  /** Where finish stands; `rest` is the part of the old map whose channels are still to be closed. */
  datatype Finisher = NotBegun | ErrorSet | DoneClosed | Closing(rest: map<string, nat>) | Finished

  /** `fault` records a send on a closed channel, a send that would block, or a second close. */
  datatype State = State(
    seqNo: nat, pending: map<string, nat>, calls: map<nat, Call>, reader: Reader, finisher: Finisher, fault: bool)

  const START := State(0, map[], map[], Idle, NotBegun, false)

  function RequestId(n: nat): string { "bridge_" + Decimal(n) }

  datatype Step =
    | Open
    | Insert(n: nat)
    | WriteOk(n: nat)
    | WriteFail(n: nat)
    | Receive(n: nat)
    | TimeOut(n: nat)
    | SeeDone(n: nat)
    | Drop(n: nat)
    | Take(response: Response)
    | Send
    | CloseSent
    | FinishBegin
    | FinishDone
    | FinishSwap
    | FinishClose(id: string)
    | FinishEnd

  predicate DoneIsClosed(s: State) {
    s.finisher.DoneClosed? || s.finisher.Closing? || s.finisher.Finished?
  }

  function SetPhase(s: State, n: nat, phase: Phase): State
    requires n in s.calls
  {
    s.(calls := s.calls[n := s.calls[n].(phase := phase)])
  }

  /** ch <- response: a panic on a closed channel, and a block when the buffer is full. */
  function SendOn(s: State, ch: nat, response: Response): State {
    if ch !in s.calls || s.calls[ch].closed || s.calls[ch].buffer.Some? then s.(fault := true)
    else s.(calls := s.calls[ch := s.calls[ch].(buffer := Some(response))])
  }

  /** close(ch): a panic when it is closed already. */
  function CloseOn(s: State, ch: nat): State {
    if ch !in s.calls || s.calls[ch].closed then s.(fault := true)
    else s.(calls := s.calls[ch := s.calls[ch].(closed := true)])
  }

  function CallStep(s: State, step: Step, n: nat): State
    requires n in s.calls
  {
    var call := s.calls[n];
    match step
    case Insert(_) =>
      if call.phase.Opened? then SetPhase(s, n, Sending).(pending := s.pending[RequestId(n) := n]) else s
    case WriteOk(_) => if call.phase.Sending? then SetPhase(s, n, Waiting) else s
    case WriteFail(_) => if call.phase.Sending? then SetPhase(s, n, Dropping(Failed)) else s
    case Receive(_) =>
      if !call.phase.Waiting? then s
      else if call.buffer.Some? then
        s.(calls := s.calls[n := Call(Returned(Got(call.buffer.value)), None, call.closed)])
      else if call.closed then SetPhase(s, n, Returned(Stopped))
      else s
    case TimeOut(_) => if call.phase.Waiting? then SetPhase(s, n, Dropping(Failed)) else s
    case SeeDone(_) => if call.phase.Waiting? && DoneIsClosed(s) then SetPhase(s, n, Dropping(Stopped)) else s
    case Drop(_) =>
      if call.phase.Dropping?
      then SetPhase(s, n, Returned(call.phase.outcome)).(pending := s.pending - {RequestId(n)}) else s
    case _ => s
  }

  function Do(s: State, step: Step): State {
    match step
    case Open => s.(seqNo := s.seqNo + 1, calls := s.calls[s.seqNo + 1 := Call(Opened, None, false)])
    case Take(response) =>
      if s.reader.Idle? && response.id in s.pending
      then s.(reader := Holding(s.pending[response.id], response), pending := s.pending - {response.id}) else s
    case Send =>
      if s.reader.Holding? then SendOn(s, s.reader.ch, s.reader.response).(reader := Sent(s.reader.ch)) else s
    case CloseSent => if s.reader.Sent? then CloseOn(s, s.reader.ch).(reader := Idle) else s
    case FinishBegin => if s.finisher.NotBegun? then s.(finisher := ErrorSet) else s
    case FinishDone => if s.finisher.ErrorSet? then s.(finisher := DoneClosed) else s
    case FinishSwap => if s.finisher.DoneClosed? then s.(finisher := Closing(s.pending), pending := map[]) else s
    case FinishClose(id) =>
      if s.finisher.Closing? && id in s.finisher.rest
      then CloseOn(s, s.finisher.rest[id]).(finisher := Closing(s.finisher.rest - {id})) else s
    case FinishEnd => if s.finisher == Closing(map[]) then s.(finisher := Finished) else s
    case _ => if step.n in s.calls then CallStep(s, step, step.n) else s
  }

  function Run(s: State, steps: seq<Step>): State {
    if steps == [] then s else Do(Run(s, steps[..|steps| - 1]), steps[|steps| - 1])
  }

  // ----- the invariant -----

  predicate HasGot(call: Call) { call.phase.Returned? && call.phase.outcome.Got? }

  predicate HasStopped(call: Call) { (call.phase.Dropping? || call.phase.Returned?) && call.phase.outcome.Stopped? }

  /** An entry of the map, or of the swapped-out map, is the untouched channel of the call it names. */
  predicate EntryOk(s: State, id: string, n: nat) {
    n in s.calls && id == RequestId(n) && s.calls[n].buffer.None? && !s.calls[n].closed && !s.calls[n].phase.Opened?
  }

  ghost predicate PendingOk(s: State) {
    forall id :: id in s.pending ==> EntryOk(s, id, s.pending[id]) && !s.calls[s.pending[id]].phase.Returned?
  }

  ghost predicate ClosingOk(s: State) {
    s.finisher.Closing? ==>
      forall id :: id in s.finisher.rest ==> EntryOk(s, id, s.finisher.rest[id]) && id !in s.pending
  }

  /** The channel the reader holds is nobody else's to send on or close. */
  ghost predicate ReaderOk(s: State) {
    !s.reader.Idle? ==>
      var n := s.reader.ch;
      && n in s.calls && !s.calls[n].phase.Opened? && !s.calls[n].closed
      && RequestId(n) !in s.pending
      && (s.finisher.Closing? ==> RequestId(n) !in s.finisher.rest)
      && (s.reader.Holding? ==> s.calls[n].buffer.None? && s.reader.response.id == RequestId(n))
      && (s.reader.Sent? ==> s.calls[n].buffer.Some? || HasGot(s.calls[n]))
  }

  ghost predicate CallOk(s: State, n: nat, call: Call) {
    && n <= s.seqNo
    && (call.phase.Opened? || call.phase.Returned? ==> RequestId(n) !in s.pending)
    && (call.phase.Opened? ==> call.buffer.None? && !call.closed)
    && (call.buffer.Some? ==> call.buffer.value.id == RequestId(n))
    && (HasGot(call) ==> call.phase.outcome.response.id == RequestId(n))
    && (call.phase.Dropping? ==> !call.phase.outcome.Got?)
    && (HasStopped(call) ==> !s.finisher.NotBegun?)
    && (call.closed && call.buffer.None? && !HasGot(call) ==> !s.finisher.NotBegun?)
  }

  ghost predicate CallsOk(s: State) {
    forall n :: n in s.calls ==> CallOk(s, n, s.calls[n])
  }

  ghost predicate Inv(s: State) {
    !s.fault && PendingOk(s) && ClosingOk(s) && ReaderOk(s) && CallsOk(s)
  }

  lemma RequestIdsDistinct()
    ensures forall a: nat, b: nat :: RequestId(a) == RequestId(b) ==> a == b
  {
    forall a: nat, b: nat | RequestId(a) == RequestId(b) ensures a == b {
      assert RequestId(a)[7..] == Decimal(a) && RequestId(b)[7..] == Decimal(b);
      DecimalInjective(a, b);
    }
  }

  lemma OpenInv(s: State)
    requires Inv(s)
    ensures Inv(Do(s, Open))
  {
    hide RequestId;
    RequestIdsDistinct();
  }

  lemma InsertInv(s: State, n: nat)
    requires Inv(s)
    ensures Inv(Do(s, Insert(n)))
  {
    hide CallsOk, PendingOk, ClosingOk, ReaderOk;
    InsertChannels(s, n);
    InsertCalls(s, n);
  }

  lemma InsertChannels(s: State, n: nat)
    requires PendingOk(s) && ClosingOk(s) && ReaderOk(s) && CallsOk(s)
    ensures var t := Do(s, Insert(n)); PendingOk(t) && ClosingOk(t) && ReaderOk(t)
  {
    hide RequestId;
    RequestIdsDistinct();
  }

  lemma InsertCalls(s: State, n: nat)
    requires CallsOk(s)
    ensures CallsOk(Do(s, Insert(n)))
  {
    hide RequestId;
    RequestIdsDistinct();
  }

  /** A caller that is sending or waiting moves on without touching the map or its channel. */
  lemma PhaseInv(s: State, n: nat, phase: Phase)
    requires Inv(s) && n in s.calls && (s.calls[n].phase.Sending? || s.calls[n].phase.Waiting?)
    requires phase.Waiting? || phase == Dropping(Failed) || (phase == Dropping(Stopped) && DoneIsClosed(s))
    ensures Inv(SetPhase(s, n, phase))
  {
    hide RequestId;
    RequestIdsDistinct();
  }

  lemma ReceiveInv(s: State, n: nat)
    requires Inv(s)
    ensures Inv(Do(s, Receive(n)))
  {
    hide CallsOk, PendingOk, ClosingOk, ReaderOk;
    ReceiveChannels(s, n);
    ReceiveCalls(s, n);
  }

  lemma ReceiveChannels(s: State, n: nat)
    requires PendingOk(s) && ClosingOk(s) && ReaderOk(s)
    ensures var t := Do(s, Receive(n)); PendingOk(t) && ClosingOk(t) && ReaderOk(t)
  {
    hide RequestId;
    RequestIdsDistinct();
  }

  lemma ReceiveCalls(s: State, n: nat)
    requires CallsOk(s) && PendingOk(s)
    ensures CallsOk(Do(s, Receive(n)))
  {
    hide RequestId;
    RequestIdsDistinct();
  }

  lemma DropInv(s: State, n: nat)
    requires Inv(s)
    ensures Inv(Do(s, Drop(n)))
  {
    hide RequestId;
    RequestIdsDistinct();
  }

  lemma TakeInv(s: State, response: Response)
    requires Inv(s)
    ensures Inv(Do(s, Take(response)))
  {
    hide RequestId;
    RequestIdsDistinct();
  }

  lemma SendInv(s: State)
    requires Inv(s)
    ensures Inv(Do(s, Send))
  {
    hide RequestId;
    RequestIdsDistinct();
  }

  lemma CloseSentInv(s: State)
    requires Inv(s)
    ensures Inv(Do(s, CloseSent))
  {
    hide RequestId;
    RequestIdsDistinct();
  }

  lemma FinishSwapInv(s: State)
    requires Inv(s)
    ensures Inv(Do(s, FinishSwap))
  {
    hide RequestId;
    RequestIdsDistinct();
  }

  lemma FinishCloseInv(s: State, id: string)
    requires Inv(s)
    ensures Inv(Do(s, FinishClose(id)))
  {
    hide RequestId;
    RequestIdsDistinct();
  }

  lemma DoInv(s: State, step: Step)
    requires Inv(s)
    ensures Inv(Do(s, step))
  {
    match step
    case Open => OpenInv(s);
    case Insert(n) => InsertInv(s, n);
    case WriteOk(n) =>
      if n in s.calls && s.calls[n].phase.Sending? { PhaseInv(s, n, Waiting); }
    case WriteFail(n) =>
      if n in s.calls && s.calls[n].phase.Sending? { PhaseInv(s, n, Dropping(Failed)); }
    case Receive(n) => ReceiveInv(s, n);
    case TimeOut(n) =>
      if n in s.calls && s.calls[n].phase.Waiting? { PhaseInv(s, n, Dropping(Failed)); }
    case SeeDone(n) =>
      if n in s.calls && s.calls[n].phase.Waiting? && DoneIsClosed(s) { PhaseInv(s, n, Dropping(Stopped)); }
    case Drop(n) => DropInv(s, n);
    case Take(response) => TakeInv(s, response);
    case Send => SendInv(s);
    case CloseSent => CloseSentInv(s);
    case FinishSwap => FinishSwapInv(s);
    case FinishClose(id) => FinishCloseInv(s, id);
    case _ =>
  }

  lemma {:induction false} RunInv(s: State, steps: seq<Step>)
    requires Inv(s)
    ensures Inv(Run(s, steps))
  {
    if steps != [] {
      RunInv(s, steps[..|steps| - 1]);
      DoInv(Run(s, steps[..|steps| - 1]), steps[|steps| - 1]);
    }
  }

  /**
   Whatever the interleaving: no channel is sent on after it was closed, closed twice, or sent on when full;
   a response reaches only the call with its ID; a returned call's ID is no longer pending; and a call ends
   with "bridge stopped" only after finish began.
   */
  lemma MultiplexerSafety(steps: seq<Step>)
    ensures
      var s := Run(START, steps);
      && !s.fault
      && forall n :: n in s.calls ==>
           var phase := s.calls[n].phase;
           && (phase.Returned? ==> RequestId(n) !in s.pending)
           && (phase.Returned? && phase.outcome.Got? ==> phase.outcome.response.id == RequestId(n))
           && (phase.Returned? && phase.outcome.Stopped? ==> !s.finisher.NotBegun?)
  {
    RunInv(START, steps);
    var s := Run(START, steps);
    forall n | n in s.calls ensures CallOk(s, n, s.calls[n]) {
    }
  }

  /** Once a call has entered the map and its ID is out of it, the ID stays out. */
  predicate IsGone(s: State, n: nat) {
    n in s.calls && !s.calls[n].phase.Opened? && RequestId(n) !in s.pending
  }

  lemma StaysGone(s: State, step: Step, n: nat)
    requires Inv(s) && IsGone(s, n)
    ensures IsGone(Do(s, step), n)
  {
    hide RequestId;
    RequestIdsDistinct();
    assert CallOk(s, n, s.calls[n]);
  }

  /** Each channel leaves the map exactly once: what has left never comes back, however the run goes on. */
  lemma {:induction false} LeavesOnce(before: seq<Step>, after: seq<Step>, n: nat)
    requires IsGone(Run(START, before), n)
    ensures IsGone(Run(Run(START, before), after), n)
  {
    var s := Run(START, before);
    RunInv(START, before);
    if after != [] {
      var rest := after[..|after| - 1];
      LeavesOnce(before, rest, n);
      RunInv(s, rest);
      StaysGone(Run(s, rest), after[|after| - 1], n);
    }
  }

  /** The reader has taken the response for call n: it holds it, or has sent it, or the call has returned with it. */
  predicate Taken(s: State, n: nat, response: Response) {
    && n in s.calls
    && (s.reader == Holding(n, response) || s.calls[n].buffer == Some(response) || HasGot(s.calls[n]))
    && (HasGot(s.calls[n]) ==> s.calls[n].phase == Returned(Got(response)))
  }

  lemma StaysTaken(s: State, step: Step, n: nat, response: Response)
    requires Inv(s) && IsGone(s, n) && Taken(s, n, response)
    ensures Taken(Do(s, step), n, response)
  {
    hide RequestId, ClosingOk;
    RequestIdsDistinct();
    assert CallOk(s, n, s.calls[n]);
  }

  lemma {:induction false} RunTaken(s: State, steps: seq<Step>, n: nat, response: Response)
    requires Inv(s) && IsGone(s, n) && Taken(s, n, response)
    ensures var t := Run(s, steps); Inv(t) && IsGone(t, n) && Taken(t, n, response)
  {
    hide Inv, IsGone, Taken, Do;
    if steps != [] {
      var before, step := steps[..|steps| - 1], steps[|steps| - 1];
      RunTaken(s, before, n, response);
      var t := Run(s, before);
      DoInv(t, step);
      StaysGone(t, step, n);
      StaysTaken(t, step, n, response);
    }
  }

  lemma TakeIsTaken(s: State, n: nat, response: Response)
    requires Inv(s) && s.reader.Idle? && response.id == RequestId(n) && response.id in s.pending
    ensures var t := Do(s, Take(response)); Inv(t) && IsGone(t, n) && Taken(t, n, response)
  {
    hide RequestId;
    RequestIdsDistinct();
    TakeInv(s, response);
    assert EntryOk(s, response.id, s.pending[response.id]);
  }

  lemma TakenIsReceived(s: State, n: nat, response: Response)
    requires Inv(s) && IsGone(s, n) && Taken(s, n, response)
    ensures s.calls[n].phase.Waiting? ==>
              Do(s, Receive(n)).calls[n].phase ==
                if s.reader == Holding(n, response) then Waiting else Returned(Got(response))
    ensures HasGot(s.calls[n]) ==> s.calls[n].phase == Returned(Got(response))
  {
    hide RequestId;
  }

  /**
   Once the reader has taken the response for a pending call, then in every continuation a call that still waits
   can receive that response and nothing else: as soon as the reader has sent it, receiving returns it, and until
   then there is nothing to receive. A call that times out or sees the shutdown first ends without it.
   */
  lemma Delivered(before: seq<Step>, after: seq<Step>, n: nat, body: string)
    requires var s := Run(START, before); s.reader.Idle? && RequestId(n) in s.pending
    ensures
      var response := Response(RequestId(n), body);
      var u := Run(Do(Run(START, before), Take(response)), after);
      && n in u.calls
      && (u.calls[n].phase.Waiting? ==>
            Do(u, Receive(n)).calls[n].phase ==
              if u.reader == Holding(n, response) then Waiting else Returned(Got(response)))
      && (HasGot(u.calls[n]) ==> u.calls[n].phase == Returned(Got(response)))
  {
    hide Inv, IsGone, Do, RequestId;
    StartInv();
    RunInv(START, before);
    var response := Response(RequestId(n), body);
    TakeIsTaken(Run(START, before), n, response);
    RunTaken(Do(Run(START, before), Take(response)), after, n, response);
    TakenIsReceived(Run(Do(Run(START, before), Take(response)), after), n, response);
  }

  lemma StartInv()
    ensures Inv(START)
  {
  }

  // ----- why a call ends as it does -----

  /** The steps that explain where a call stands. */
  predicate Explained(call: Call, n: nat, steps: set<Step>) {
    && (!call.phase.Opened? ==> Insert(n) in steps)
    && (call.phase.Waiting? ==> WriteOk(n) in steps)
    && (call.buffer.Some? ==> Take(call.buffer.value) in steps)
    && ((call.phase.Dropping? || call.phase.Returned?) ==>
          match call.phase.outcome
          case Failed => WriteFail(n) in steps || (WriteOk(n) in steps && TimeOut(n) in steps)
          case Stopped => FinishBegin in steps && (SeeDone(n) in steps || Receive(n) in steps)
          case Got(response) => Take(response) in steps && Receive(n) in steps)
  }

  ghost predicate AllExplained(s: State, steps: set<Step>) {
    && (forall n :: n in s.calls ==> Explained(s.calls[n], n, steps))
    && (s.reader.Holding? ==> Take(s.reader.response) in steps)
    && (!s.finisher.NotBegun? ==> FinishBegin in steps)
  }

  lemma ExplainedMore(s: State, steps: set<Step>, step: Step)
    requires AllExplained(s, steps)
    ensures AllExplained(s, steps + {step})
  {
  }

  lemma ExplainedCall(s: State, steps: set<Step>, step: Step, n: nat)
    requires Inv(s) && AllExplained(s, steps) && step in steps && n in s.calls
    requires step in [Insert(n), WriteOk(n), WriteFail(n), Receive(n), TimeOut(n), SeeDone(n), Drop(n)]
    ensures AllExplained(CallStep(s, step, n), steps)
  {
    hide RequestId, PendingOk, ClosingOk, ReaderOk;
    assert CallOk(s, n, s.calls[n]);
  }

  lemma ExplainedStep(s: State, steps: set<Step>, step: Step)
    requires Inv(s) && AllExplained(s, steps) && step in steps
    ensures AllExplained(Do(s, step), steps)
  {
    hide RequestId, PendingOk, ClosingOk, ReaderOk, CallsOk, CallStep;
    match step
    case Open =>
    case Take(_) =>
    case Send =>
    case CloseSent =>
    case FinishBegin =>
    case FinishDone =>
    case FinishSwap =>
    case FinishClose(_) =>
    case FinishEnd =>
    case _ => if step.n in s.calls { ExplainedCall(s, steps, step, step.n); }
  }

  function Steps(steps: seq<Step>): set<Step> { set step | step in steps }

  lemma {:induction false} RunExplained(steps: seq<Step>)
    ensures AllExplained(Run(START, steps), Steps(steps))
  {
    hide AllExplained, Do;
    if steps == [] {
      NothingToExplain();
    } else {
      var before, step := steps[..|steps| - 1], steps[|steps| - 1];
      RunExplained(before);
      StartInv();
      RunInv(START, before);
      ExplainedMore(Run(START, before), Steps(before), step);
      assert Steps(steps) == Steps(before) + {step};
      ExplainedStep(Run(START, before), Steps(steps), step);
    }
  }

  lemma NothingToExplain()
    ensures AllExplained(START, Steps([]))
  {
  }

  /**
   Over every run a call fails only because its request could not be written or because it timed out, ends with
   "bridge stopped" only after finish began, and returns a response only if the reader took that very response.
   */
  lemma EndsForAReason(steps: seq<Step>, n: nat)
    requires n in Run(START, steps).calls
    ensures
      var phase := Run(START, steps).calls[n].phase;
      (phase.Dropping? || phase.Returned?) ==>
        && (phase.outcome.Failed? ==> WriteFail(n) in steps || TimeOut(n) in steps)
        && (phase.outcome.Stopped? ==> FinishBegin in steps && (SeeDone(n) in steps || Receive(n) in steps))
        && (phase.outcome.Got? ==> Take(phase.outcome.response) in steps && Receive(n) in steps)
  {
    hide Run;
    RunExplained(steps);
  }

  // ----- a call can succeed, and shutdown wakes every caller -----

  /** The request of call n is written, and its response taken, sent and received, one after the other. */
  function Exchange(s: State, n: nat, response: Response): State {
    Do(Do(Do(Do(s, WriteOk(n)), Take(response)), Send), Receive(n))
  }

  predicate ReturnedWith(s: State, n: nat, response: Response) {
    n in s.calls && s.calls[n].phase == Returned(Got(response))
  }

  /** A request that is written and answered returns the answer, and leaves the reader free for the next one. */
  lemma WrittenIsAnswered(steps: seq<Step>, n: nat, body: string)
    requires
      var s := Run(START, steps);
      n in s.calls && s.calls[n].phase.Sending? && RequestId(n) in s.pending && s.reader.Idle?
    ensures
      var response := Response(RequestId(n), body);
      var t := Exchange(Run(START, steps), n, response);
      var u := Do(t, CloseSent);
      ReturnedWith(t, n, response) && ReturnedWith(u, n, response) && u.reader.Idle? && u.calls[n].closed && !u.fault
  {
    hide RequestId, Run;
    RequestIdsDistinct();
    StartInv();
    RunInv(START, steps);
    var s := Run(START, steps);
    assert EntryOk(s, RequestId(n), s.pending[RequestId(n)]);
  }

  lemma NewCallEnters(s: State)
    requires Inv(s)
    ensures
      var n := s.seqNo + 1;
      var t := Do(Do(s, Open), Insert(n));
      && n !in s.calls && n in t.calls && t.calls[n].phase.Sending? && RequestId(n) in t.pending
      && t.reader == s.reader && t.seqNo == n
  {
    hide RequestId, PendingOk, ClosingOk, ReaderOk;
  }

  /** From every reachable state with the reader idle a new call can be made, entered, written and answered. */
  lemma NewCallSucceeds(steps: seq<Step>, body: string)
    requires Run(START, steps).reader.Idle?
    ensures
      var s := Run(START, steps);
      var n := s.seqNo + 1;
      var response := Response(RequestId(n), body);
      n !in s.calls && ReturnedWith(Exchange(Do(Do(s, Open), Insert(n)), n, response), n, response)
  {
    hide RequestId, Do, Exchange, ReturnedWith, Inv;
    StartInv();
    RunInv(START, steps);
    var s := Run(START, steps);
    NewCallEnters(s);
    var made := steps + [Open];
    var entered := made + [Insert(s.seqNo + 1)];
    assert entered[..|made|] == made && made[..|steps|] == steps;
    WrittenIsAnswered(entered, s.seqNo + 1, body);
  }

  /** The shutdown path up to the close of one channel. */
  function ShutDown(s: State, id: string): State {
    Do(Do(Do(Do(s, FinishBegin), FinishDone), FinishSwap), FinishClose(id))
  }

  lemma ShutdownSwaps(s: State)
    requires s.finisher.NotBegun?
    ensures Do(Do(Do(s, FinishBegin), FinishDone), FinishSwap) == s.(finisher := Closing(s.pending), pending := map[])
  {
  }

  lemma CloseWakes(s: State, id: string)
    requires s.finisher.Closing? && id in s.finisher.rest && EntryOk(s, id, s.finisher.rest[id])
    ensures
      var n, t := s.finisher.rest[id], Do(s, FinishClose(id));
      && n in t.calls && t.calls[n].closed && t.pending == s.pending && t.fault == s.fault
      && t.finisher == Closing(s.finisher.rest - {id})
      && (t.calls[n].phase.Waiting? ==> Do(t, Receive(n)).calls[n].phase == Returned(Stopped))
  {
    hide RequestId;
  }

  /** Shutdown closes the channel of every call that is pending then, and whoever waits on it is told so. */
  lemma ShutdownWakes(steps: seq<Step>, id: string)
    requires var s := Run(START, steps); s.finisher.NotBegun? && id in s.pending
    ensures
      var s := Run(START, steps);
      var n, t := s.pending[id], ShutDown(s, id);
      && n in t.calls && t.calls[n].closed && t.pending == map[] && !t.fault && DoneIsClosed(t)
      && (t.calls[n].phase.Waiting? ==> Do(t, Receive(n)).calls[n].phase == Returned(Stopped))
      && (s.pending.Keys == {id} ==> Do(t, FinishEnd).finisher.Finished?)
  {
    hide RequestId, Run, CallsOk, ReaderOk, ClosingOk;
    StartInv();
    RunInv(START, steps);
    var s := Run(START, steps);
    assert EntryOk(s, id, s.pending[id]);
    ShutdownSwaps(s);
    var closing := s.(finisher := Closing(s.pending), pending := map[]);
    assert EntryOk(closing, id, s.pending[id]);
    CloseWakes(closing, id);
    assert s.pending.Keys == {id} ==> s.pending - {id} == map[];
  }

  /** Finish runs once: beginning it again changes nothing. */
  lemma FinishOnce(s: State)
    requires !s.finisher.NotBegun?
    ensures Do(s, FinishBegin) == s
  {
  }

  /** A caller can always give up: when its write fails, after its timeout, and once shutdown is announced. */
  lemma CallersCanLeave(steps: seq<Step>, n: nat)
    requires n in Run(START, steps).calls
    ensures
      var s := Run(START, steps);
      && (s.calls[n].phase.Sending? ==> Do(Do(s, WriteFail(n)), Drop(n)).calls[n].phase == Returned(Failed))
      && (s.calls[n].phase.Waiting? ==> Do(Do(s, TimeOut(n)), Drop(n)).calls[n].phase == Returned(Failed))
      && (s.calls[n].phase.Waiting? && DoneIsClosed(s) ==>
            Do(Do(s, SeeDone(n)), Drop(n)).calls[n].phase == Returned(Stopped))
  {
    hide RequestId, Run;
  }
}
