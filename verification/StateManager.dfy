/**
 The connection state machine. Timer callbacks may fire at any time after they are scheduled; a Stop may
 come too late for one that has already begun.
 */
module StateManager {
  import opened Common

  datatype ConnState = Pairing | Signaling | P2PConnecting | P2PConnected | RelayConnected | Reconnecting | Closed

  datatype Transition = Transition(state: ConnState, at: int, note: string)

  const SCHEDULING := "p2p timeout, scheduling relay fallback"
  const FALLBACK := "relay fallback after p2p timeout"

  /** `timers` are the P2P timeouts that may still fire, `timer` the one the manager would stop,
      `fallbacks` how many delayed relay fallbacks are outstanding. */
  datatype Manager = Manager(delay: nat, state: ConnState, history: seq<Transition>,
                             timer: Option<nat>, timers: set<nat>, nextTimer: nat, fallbacks: nat)

  datatype Op =
    | BeginSignaling
    | BeginP2P
    | MarkP2PConnected
    | MarkRelayConnected(reason: string)
    | BeginReconnect
    | Close
    | FireTimeout(id: nat)
    | FireFallback

  /** An operation, when it happens, and whether a Stop it makes comes before the callback begins. */
  datatype Input = Input(op: Op, now: int, inTime: bool)

  function New(delay: int, now: int): Manager {
    Manager(if delay < 0 then 0 else delay, Pairing, [Transition(Pairing, now, "session created")], None, {}, 0, 0)
  }

  function Moved(m: Manager, next: ConnState, note: string, now: int): Manager {
    if m.state == next then m else m.(state := next, history := m.history + [Transition(next, now, note)])
  }

  function Stopped(m: Manager, inTime: bool): Manager {
    match m.timer
    case None => m
    case Some(id) => m.(timer := None, timers := if inTime then m.timers - {id} else m.timers)
  }

  function Armed(m: Manager): Manager {
    m.(timer := Some(m.nextTimer), timers := m.timers + {m.nextTimer}, nextTimer := m.nextTimer + 1)
  }

  function Relayed(m: Manager, reason: string, i: Input): Manager {
    Moved(Stopped(m, i.inTime), RelayConnected, if reason == "" then "relay connected" else reason, i.now)
  }

  /** onP2PTimeout */
  function TimedOut(m: Manager, now: int): Manager {
    if m.state != P2PConnecting then m
    else if m.delay > 0 then Moved(m, Reconnecting, SCHEDULING, now).(fallbacks := m.fallbacks + 1)
    else Moved(m, RelayConnected, FALLBACK, now)
  }

  function Step(m: Manager, i: Input): Manager {
    match i.op
    case BeginSignaling => Moved(m, Signaling, "signaling started", i.now)
    case BeginP2P => Armed(Stopped(Moved(m, P2PConnecting, "attempting p2p connection", i.now), i.inTime))
    case MarkP2PConnected => Moved(Stopped(m, i.inTime), P2PConnected, "p2p connected", i.now)
    case MarkRelayConnected(reason) => Relayed(m, reason, i)
    case BeginReconnect => Moved(Stopped(m, i.inTime), Reconnecting, "reconnecting", i.now)
    case Close => Moved(Stopped(m, i.inTime), Closed, "closed", i.now)
    case FireTimeout(id) => if id in m.timers then TimedOut(m.(timers := m.timers - {id}), i.now) else m
    case FireFallback => if m.fallbacks > 0 then Relayed(m.(fallbacks := m.fallbacks - 1), FALLBACK, i) else m
  }

  function Run(m: Manager, inputs: seq<Input>): Manager {
    if inputs == [] then m else Step(Run(m, inputs[..|inputs| - 1]), inputs[|inputs| - 1])
  }

  // ----- counting -----

  predicate IsAttempt(t: Transition) { t.state == P2PConnecting }
  predicate IsScheduling(t: Transition) { t.state == Reconnecting && t.note == SCHEDULING }
  predicate IsFallback(t: Transition) { t.state == RelayConnected && t.note == FALLBACK }

  function Count(h: seq<Transition>, p: Transition -> bool): nat {
    if h == [] then 0 else Count(h[..|h| - 1], p) + if p(h[|h| - 1]) then 1 else 0
  }

  /** How often a caller marked the relay connected with the note reserved for the timeout. */
  function Forged(inputs: seq<Input>): nat {
    if inputs == [] then 0
    else Forged(inputs[..|inputs| - 1]) + if inputs[|inputs| - 1].op == MarkRelayConnected(FALLBACK) then 1 else 0
  }

  lemma CountSnoc(h: seq<Transition>, t: Transition, p: Transition -> bool)
    ensures Count(h + [t], p) == Count(h, p) + if p(t) then 1 else 0
  {
    assert (h + [t])[..|h|] == h;
  }

  // ----- the history -----

  ghost predicate Linked(m: Manager) {
    var h := m.history;
    && h != [] && h[|h| - 1].state == m.state
    && (forall i :: 1 <= i < |h| ==> h[i - 1].state != h[i].state)
    && (forall i :: 0 <= i < |h| && IsScheduling(h[i]) ==> i > 0 && IsAttempt(h[i - 1]))
  }

  /** Fallbacks, those still outstanding included, come from scheduling; scheduling comes from attempts. */
  ghost predicate Counted(m: Manager, forged: nat) {
    var h, open := m.history, if m.state == P2PConnecting then 1 else 0;
    && Count(h, IsScheduling) + open <= Count(h, IsAttempt)
    && (m.delay > 0 ==> Count(h, IsFallback) + m.fallbacks <= Count(h, IsScheduling) + forged)
    && (m.delay == 0 ==>
          && m.fallbacks == 0 && Count(h, IsScheduling) == 0
          && Count(h, IsFallback) + open <= Count(h, IsAttempt) + forged)
  }

  /** The same at every moment of the past. */
  ghost predicate Bounded(h: seq<Transition>, delay: nat, forged: nat) {
    forall i :: 0 <= i <= |h| ==>
      && Count(h[..i], IsScheduling) <= Count(h[..i], IsAttempt)
      && (delay > 0 ==> Count(h[..i], IsFallback) <= Count(h[..i], IsScheduling) + forged)
      && (delay == 0 ==> Count(h[..i], IsFallback) <= Count(h[..i], IsAttempt) + forged)
  }

  ghost predicate Inv(m: Manager, forged: nat) {
    Linked(m) && Counted(m, forged) && Bounded(m.history, m.delay, forged)
  }

  /** What one step may do to the history: nothing, or one entry that accounts for itself. */
  ghost predicate Change(m: Manager, n: Manager, extra: nat) {
    n.delay == m.delay &&
    if n.history == m.history then n.state == m.state && n.fallbacks <= m.fallbacks
    else
      && |n.history| == |m.history| + 1
      && var t := n.history[|m.history|];
         && n.history == m.history + [t] && n.state == t.state && t.state != m.state
         && (IsScheduling(t) ==> m.state == P2PConnecting && m.delay > 0)
         && (if m.delay > 0
             then (if IsFallback(t) then 1 else 0) + n.fallbacks <=
                    m.fallbacks + extra + if IsScheduling(t) then 1 else 0
             else
               && n.fallbacks <= m.fallbacks
               && (IsFallback(t) ==> m.state == P2PConnecting || m.fallbacks > n.fallbacks || extra > 0))
  }

  function Extra(i: Input): nat { if i.op == MarkRelayConnected(FALLBACK) then 1 else 0 }

  lemma StoppedAside(m: Manager, inTime: bool)
    ensures var n := Stopped(m, inTime); n == m.(timer := n.timer, timers := n.timers)
  {
  }

  lemma RelayedChanges(m: Manager, n: Manager, reason: string, i: Input)
    requires n.state == m.state && n.history == m.history && n.delay == m.delay && n.fallbacks <= m.fallbacks
    ensures Change(m, Relayed(n, reason, i), if reason == FALLBACK && n.fallbacks == m.fallbacks then 1 else 0)
  {
    hide Stopped;
    StoppedAside(n, i.inTime);
  }

  lemma TimeoutChanges(m: Manager, id: nat, now: int)
    ensures Change(m, TimedOut(m.(timers := m.timers - {id}), now), 0)
  {
  }

  /** The notes of the other operations are none of the two that are counted. */
  lemma PlainChanges(m: Manager, i: Input)
    requires !i.op.MarkRelayConnected? && !i.op.FireTimeout? && !i.op.FireFallback?
    ensures Change(m, Step(m, i), 0)
  {
    hide Stopped;
    StoppedAside(m, i.inTime);
    StoppedAside(Moved(m, P2PConnecting, "attempting p2p connection", i.now), i.inTime);
  }

  lemma StepChanges(m: Manager, i: Input)
    ensures Change(m, Step(m, i), Extra(i))
  {
    hide Change, Relayed, TimedOut, Moved, Stopped;
    match i.op
    case MarkRelayConnected(reason) => RelayedChanges(m, m, reason, i);
    case FireTimeout(id) =>
      TimeoutChanges(m, id, i.now);
      NoChange(m);
    case FireFallback =>
      NoChange(m);
      if m.fallbacks > 0 { RelayedChanges(m, m.(fallbacks := m.fallbacks - 1), FALLBACK, i); }
    case _ => PlainChanges(m, i);
  }

  lemma NoChange(m: Manager)
    ensures Change(m, m, 0)
  {
  }

  lemma ChangeLinks(m: Manager, n: Manager, extra: nat)
    requires Linked(m) && Change(m, n, extra)
    ensures Linked(n)
  {
  }

  lemma ChangeCounts(m: Manager, n: Manager, extra: nat, forged: nat)
    requires Counted(m, forged) && Change(m, n, extra)
    ensures Counted(n, forged + extra)
  {
    if n.history != m.history {
      var t := n.history[|m.history|];
      CountSnoc(m.history, t, IsAttempt);
      CountSnoc(m.history, t, IsScheduling);
      CountSnoc(m.history, t, IsFallback);
    }
  }

  lemma CountedNow(m: Manager, n: Manager, extra: nat, forged: nat)
    requires Bounded(m.history, m.delay, forged) && Counted(n, forged + extra) && Change(m, n, extra)
    ensures Bounded(n.history, n.delay, forged + extra)
  {
    hide Count, IsAttempt, IsScheduling, IsFallback;
    var h, g := m.history, n.history;
    forall i | 0 <= i <= |g|
      ensures g[..i] == if i <= |h| then h[..i] else g
    {
    }
  }

  lemma {:induction false} RunInv(delay: int, start: int, inputs: seq<Input>)
    ensures Inv(Run(New(delay, start), inputs), Forged(inputs))
  {
    hide Step, Change, Linked, Counted, Bounded, New;
    if inputs == [] {
      NewInv(delay, start);
    } else {
      var k := |inputs| - 1;
      var m, n := Run(New(delay, start), inputs[..k]), Run(New(delay, start), inputs);
      RunInv(delay, start, inputs[..k]);
      StepChanges(m, inputs[k]);
      ChangeLinks(m, n, Extra(inputs[k]));
      ChangeCounts(m, n, Extra(inputs[k]), Forged(inputs[..k]));
      CountedNow(m, n, Extra(inputs[k]), Forged(inputs[..k]));
    }
  }

  lemma NewInv(delay: int, start: int)
    ensures Inv(New(delay, start), 0)
  {
    var m := New(delay, start);
    var h := m.history;
    OneEntry(h);
    assert Linked(m) && Counted(m, 0);
    hide Count, Linked, Counted;
    forall i | 0 <= i <= 1 ensures h[..i] == if i == 0 then [] else h {}
  }

  lemma OneEntry(h: seq<Transition>)
    requires |h| == 1 && h[0].state == Pairing
    ensures forall g | g == h || g == [] ::
              Count(g, IsAttempt) == 0 && Count(g, IsScheduling) == 0 && Count(g, IsFallback) == 0
  {
    CountSnoc([], h[0], IsAttempt);
    CountSnoc([], h[0], IsScheduling);
    CountSnoc([], h[0], IsFallback);
    assert [] + [h[0]] == h;
  }

  lemma {:induction false} RunKeepsDelay(m: Manager, inputs: seq<Input>)
    ensures Run(m, inputs).delay == m.delay
  {
    hide Step, Change;
    if inputs != [] {
      RunKeepsDelay(m, inputs[..|inputs| - 1]);
      StepChanges(Run(m, inputs[..|inputs| - 1]), inputs[|inputs| - 1]);
      KeepsDelay(Run(m, inputs[..|inputs| - 1]), Run(m, inputs), Extra(inputs[|inputs| - 1]));
    }
  }

  lemma KeepsDelay(m: Manager, n: Manager, extra: nat)
    requires Change(m, n, extra)
    ensures n.delay == m.delay
  {
  }

  /**
   No relay fallback without a P2P attempt, in every prefix of the history of every run: fallback entries are at
   most scheduling entries plus the entries callers forged by passing the reserved note, scheduling entries at
   most attempts, and each of them directly follows an attempt. Neighbours differ and the last entry is the state.
   */
  lemma NoFallbackWithoutAttempt(delay: int, start: int, inputs: seq<Input>, i: nat)
    requires delay > 0 && i <= |Run(New(delay, start), inputs).history|
    ensures
      var m := Run(New(delay, start), inputs);
      var h := m.history[..i];
      && Count(h, IsFallback) <= Count(h, IsScheduling) + Forged(inputs)
      && Count(h, IsScheduling) <= Count(h, IsAttempt)
      && (forall k :: 0 <= k < i && IsScheduling(h[k]) ==> k > 0 && IsAttempt(h[k - 1]))
      && (forall k :: 1 <= k < i ==> h[k - 1].state != h[k].state)
      && m.history != [] && m.history[|m.history| - 1].state == m.state
  {
    hide Run, Count;
    RunInv(delay, start, inputs);
    RunKeepsDelay(New(delay, start), inputs);
  }

  /** Without a delay the timeout falls back at once: nothing is scheduled and attempts bound the fallbacks. */
  lemma ImmediateFallback(delay: int, start: int, inputs: seq<Input>, i: nat)
    requires delay <= 0 && i <= |Run(New(delay, start), inputs).history|
    ensures
      var m := Run(New(delay, start), inputs);
      && Count(m.history, IsScheduling) == 0 && m.fallbacks == 0
      && Count(m.history[..i], IsFallback) <= Count(m.history[..i], IsAttempt) + Forged(inputs)
  {
    hide Run, Count, Linked;
    RunInv(delay, start, inputs);
    RunKeepsDelay(New(delay, start), inputs);
  }

  /** With the reserved note, a caller makes a fallback entry out of nothing. */
  lemma ForgedFallback(delay: int, start: int, now: int)
    ensures
      var h := Run(New(delay, start), [Input(MarkRelayConnected(FALLBACK), now, true)]).history;
      Count(h, IsFallback) == 1 && Count(h, IsScheduling) == 0 && Count(h, IsAttempt) == 0
  {
    var inputs := [Input(MarkRelayConnected(FALLBACK), now, true)];
    assert inputs[..0] == [] && inputs[0].op == MarkRelayConnected(FALLBACK);
    var m := New(delay, start);
    var h := Run(m, inputs).history;
    assert h == m.history + [Transition(RelayConnected, now, FALLBACK)] && m.history == [] + [m.history[0]];
    forall p: Transition -> bool ensures Count(h, p) == (if p(m.history[0]) then 1 else 0) + if p(h[1]) then 1 else 0 {
      CountSnoc([], m.history[0], p);
      CountSnoc(m.history, h[1], p);
    }
  }

  // ----- where each operation leads -----

  /** A manager starts in the pairing state, which its history records, with nothing outstanding. */
  lemma StartsPairing(delay: int, now: int)
    ensures
      var m := New(delay, now);
      && m.state == Pairing && m.history == [Transition(Pairing, now, "session created")]
      && m.timer == None && m.timers == {} && m.fallbacks == 0 && m.delay == if delay > 0 then delay else 0
  {
  }

  /** The state a caller asks for, and the note it leaves. */
  function Target(op: Op): Option<(ConnState, string)> {
    match op
    case BeginSignaling => Some((Signaling, "signaling started"))
    case BeginP2P => Some((P2PConnecting, "attempting p2p connection"))
    case MarkP2PConnected => Some((P2PConnected, "p2p connected"))
    case MarkRelayConnected(reason) => Some((RelayConnected, if reason == "" then "relay connected" else reason))
    case BeginReconnect => Some((Reconnecting, "reconnecting"))
    case Close => Some((Closed, "closed"))
    case FireTimeout(_) => None
    case FireFallback => None
  }

  /**
   A caller gets the state it asks for, from whatever state; the history gets an entry with the note exactly if the
   state changed. Only an attempt leaves a timer set, a new one, and only BeginSignaling leaves an old one set.
   */
  lemma CallersGetTheirState(m: Manager, i: Input)
    requires Target(i.op).Some?
    ensures
      var n, (state, note) := Step(m, i), Target(i.op).value;
      && n.state == state && n.fallbacks == m.fallbacks && n.delay == m.delay
      && n.history == (if m.state == state then m.history else m.history + [Transition(state, i.now, note)])
      && n.timer == (if i.op.BeginP2P? then Some(m.nextTimer) else if i.op.BeginSignaling? then m.timer else None)
      && n.nextTimer == (if i.op.BeginP2P? then m.nextTimer + 1 else m.nextTimer)
      && var stops := i.inTime && !i.op.BeginSignaling? && m.timer.Some?;
         var left := if stops then m.timers - {m.timer.value} else m.timers;
         n.timers == if i.op.BeginP2P? then left + {m.nextTimer} else left
  {
  }

  /** A timeout that fires while the attempt is on leads to the fallback, at once or by way of a delayed one. */
  lemma TimeoutFallsBack(m: Manager, i: Input)
    requires i.op.FireTimeout? && i.op.id in m.timers
    ensures
      var n := Step(m, i);
      && n.timers == m.timers - {i.op.id}
      && if m.state != P2PConnecting then n.state == m.state && n.history == m.history && n.fallbacks == m.fallbacks
         else if m.delay > 0 then
           && n.state == Reconnecting && n.fallbacks == m.fallbacks + 1
           && n.history == m.history + [Transition(Reconnecting, i.now, SCHEDULING)]
         else
           && n.state == RelayConnected && n.fallbacks == m.fallbacks
           && n.history == m.history + [Transition(RelayConnected, i.now, FALLBACK)]
  {
  }

  /** A delayed fallback that fires enters the relay state, whatever happened in the meantime. */
  lemma FallbackFires(m: Manager, i: Input)
    requires i.op.FireFallback? && m.fallbacks > 0
    ensures
      var n := Step(m, i);
      && n.state == RelayConnected && n.fallbacks == m.fallbacks - 1
      && n.history == if m.state == RelayConnected then m.history
                      else m.history + [Transition(RelayConnected, i.now, FALLBACK)]
  {
  }

  // ----- after Close -----

  predicate IsCallback(i: Input) { i.op.FireTimeout? || i.op.FireFallback? }

  predicate OnlyCallbacks(inputs: seq<Input>) {
    forall k :: 0 <= k < |inputs| ==> IsCallback(inputs[k])
  }

  lemma {:induction false} ClosedStays(m: Manager, inputs: seq<Input>)
    requires m.state == Closed && m.fallbacks == 0 && OnlyCallbacks(inputs)
    ensures Run(m, inputs).state == Closed && Run(m, inputs).fallbacks == 0
  {
    if inputs != [] {
      ClosedStays(m, inputs[..|inputs| - 1]);
      assert IsCallback(inputs[|inputs| - 1]);
    }
  }

  lemma FallbackReopens(m: Manager, fire: seq<Input>)
    requires m.fallbacks > 0 && fire == [Input(FireFallback, 0, true)]
    ensures OnlyCallbacks(fire) && Run(m, fire).state == RelayConnected
  {
    assert fire[..0] == [];
    assert Run(m, fire[..0]) == m;
  }

  /** A closed manager is left alone by its timers exactly when no delayed fallback is outstanding. */
  lemma ClosedIsFinal(m: Manager)
    requires m.state == Closed
    ensures m.fallbacks == 0 <==> forall inputs :: OnlyCallbacks(inputs) ==> Run(m, inputs).state == Closed
  {
    hide Run, OnlyCallbacks;
    if m.fallbacks == 0 {
      forall inputs | OnlyCallbacks(inputs) ensures Run(m, inputs).state == Closed {
        ClosedStays(m, inputs);
      }
    } else {
      FallbackReopens(m, [Input(FireFallback, 0, true)]);
    }
  }

  /** It happens: an attempt times out, the manager is closed, and the delayed fallback then opens the relay state. */
  lemma ClosedCanReopen()
    ensures
      var run := [Input(BeginP2P, 0, true), Input(FireTimeout(0), 0, true), Input(Close, 0, true)];
      var m := Run(New(1, 0), run);
      && m.state == Closed && m.fallbacks == 1
      && Run(New(1, 0), run + [Input(FireFallback, 0, true)]).state == RelayConnected
  {
    var a, b, c := Input(BeginP2P, 0, true), Input(FireTimeout(0), 0, true), Input(Close, 0, true);
    var run := [a, b, c];
    assert run[..2][..1][..0] == [] && run[..2][..1] == [a] && run[..2] == [a, b];
    assert Run(New(1, 0), [a]) == Step(New(1, 0), a);
    assert (run + [Input(FireFallback, 0, true)])[..3] == run;
  }

  // ----- the manager itself -----

  class LiveManager {
    const delay: nat
    var state: ConnState
    var history: seq<Transition>
    var timer: Option<nat>

    /** What the runtime's timers still hold. */
    var timers: set<nat>
    var nextTimer: nat
    var fallbacks: nat

    ghost function Model(): Manager
      reads this
    {
      Manager(delay, state, history, timer, timers, nextTimer, fallbacks)
    }

    constructor (fallbackDelay: int, now: int)
      ensures Model() == New(fallbackDelay, now)
    {
      delay := if fallbackDelay < 0 then 0 else fallbackDelay;
      state := Pairing;
      timer, timers, nextTimer, fallbacks := None, {}, 0, 0;
      history := [];
      new;
      Append(Pairing, "session created", now);
    }

    method Append(next: ConnState, note: string, now: int)
      modifies this
      ensures Model() == old(Model()).(history := old(history) + [Transition(next, now, note)])
    {
      history := history + [Transition(next, now, note)];
    }

    method SetState(next: ConnState, note: string, now: int)
      modifies this
      ensures Model() == Moved(old(Model()), next, note, now)
    {
      if state == next { return; }
      state := next;
      Append(next, note, now);
    }

    method StopTimer(inTime: bool)
      modifies this
      ensures Model() == Stopped(old(Model()), inTime)
    {
      if timer != None {
        if inTime { timers := timers - {timer.value}; }
        timer := None;
      }
    }

    method Signal(now: int)
      modifies this
      ensures Model() == Step(old(Model()), Input(BeginSignaling, now, true))
    {
      SetState(Signaling, "signaling started", now);
    }

    method Attempt(now: int, inTime: bool)
      modifies this
      ensures Model() == Step(old(Model()), Input(BeginP2P, now, inTime))
    {
      SetState(P2PConnecting, "attempting p2p connection", now);
      StopTimer(inTime);
      timers := timers + {nextTimer};
      timer, nextTimer := Some(nextTimer), nextTimer + 1;
    }

    method ConnectP2P(now: int, inTime: bool)
      modifies this
      ensures Model() == Step(old(Model()), Input(MarkP2PConnected, now, inTime))
    {
      StopTimer(inTime);
      SetState(P2PConnected, "p2p connected", now);
    }

    method ConnectRelay(reason: string, now: int, inTime: bool)
      modifies this
      ensures Model() == Step(old(Model()), Input(MarkRelayConnected(reason), now, inTime))
    {
      var note := reason;
      if note == "" { note := "relay connected"; }
      StopTimer(inTime);
      SetState(RelayConnected, note, now);
    }

    method Reconnect(now: int, inTime: bool)
      modifies this
      ensures Model() == Step(old(Model()), Input(BeginReconnect, now, inTime))
    {
      StopTimer(inTime);
      SetState(Reconnecting, "reconnecting", now);
    }

    method Shut(now: int, inTime: bool)
      modifies this
      ensures Model() == Step(old(Model()), Input(Close, now, inTime))
    {
      StopTimer(inTime);
      SetState(Closed, "closed", now);
    }

    /** The callback of timer `id`, which then is no longer outstanding. */
    method OnP2PTimeout(id: nat, now: int)
      requires id in timers
      modifies this
      ensures Model() == Step(old(Model()), Input(FireTimeout(id), now, true))
    {
      timers := timers - {id};
      if state != P2PConnecting { return; }
      if delay > 0 {
        SetState(Reconnecting, SCHEDULING, now);
        fallbacks := fallbacks + 1;
        return;
      }
      SetState(RelayConnected, FALLBACK, now);
    }

    /** The callback of a delayed fallback. */
    method OnFallback(now: int, inTime: bool)
      requires fallbacks > 0
      modifies this
      ensures Model() == Step(old(Model()), Input(FireFallback, now, inTime))
    {
      fallbacks := fallbacks - 1;
      ConnectRelay(FALLBACK, now, inTime);
    }
  }
}
