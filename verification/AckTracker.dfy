/**
 The acknowledgement tracker: entries waiting for an ack, retried with geometric back-off.

 Time is an unbounded number of nanoseconds and every operation reads an arbitrary clock value, so
 nothing below needs the clock to be monotone. The tracker does not count registrations, overwritten
 entries or forgotten entries; the ledger counts them here.
 */
module AckTracking {
  import opened Common
  import opened Sums
  import opened Protocol

  const ZERO_TIME := 0
  const MILLISECOND := 1_000_000

  datatype Config = Config(timeout: int, maxRetries: int, multiplier: int)

  /** NewAckTrackerWithConfig: values out of range fall back to 2 s, 2 retries, doubling. */
  function Normalised(cfg: Config): Config {
    Config(if cfg.timeout <= 0 then 2_000 * MILLISECOND else cfg.timeout,
           if cfg.maxRetries < 0 then 2 else cfg.maxRetries,
           if cfg.multiplier < 1 then 2 else cfg.multiplier)
  }

  predicate ConfigOk(cfg: Config) {
    cfg.timeout > 0 && cfg.maxRetries >= 0 && cfg.multiplier >= 1
  }

  datatype Pending = Pending(
    sid: string, rid: string, messageType: string, transport: string,
    registeredAt: int, lastSentAt: int, expiresAt: int,
    retryEnabled: bool, retryCount: nat, maxRetries: int)

  datatype Tracked = Tracked(pending: Pending, envelope: Option<Envelope>)

  datatype Metrics = Metrics(
    acked: nat, retryDispatch: nat, expired: nat, exhausted: nat, maxPending: nat,
    totalRtt: int, lastRtt: int, maxRtt: int)

  datatype Ledger = Ledger(registered: nat, overwritten: nat, forgotten: nat)

  type Table = map<string, Tracked>

  datatype State = State(cfg: Config, pending: Table, metrics: Metrics, ledger: Ledger)

  function Fresh(cfg: Config): State {
    State(Normalised(cfg), map[], Metrics(0, 0, 0, 0, 0, 0, 0, 0), Ledger(0, 0, 0))
  }

  // ----- the operations -----

  function NormalizeTransport(transport: string): string {
    if transport == "" then "unknown" else transport
  }

  function MaxRetriesForRetry(retryEnabled: bool, maxRetries: int): int {
    if !retryEnabled || maxRetries < 0 then 0 else maxRetries
  }

  /** The entry registerLocked stores. */
  function NewEntry(cfg: Config, sid: string, rid: string, messageType: string, transport: string,
                    retryEnabled: bool, envelope: Option<Envelope>, now: int): Tracked
  {
    Tracked(Pending(sid, rid, messageType, NormalizeTransport(transport), now, now, now + cfg.timeout,
                    retryEnabled, 0, MaxRetriesForRetry(retryEnabled, cfg.maxRetries)), envelope)
  }

  function Register(s: State, entry: Tracked): State {
    var rid := entry.pending.rid;
    var pending := s.pending[rid := entry];
    var high := if |pending| > s.metrics.maxPending then |pending| else s.metrics.maxPending;
    s.(pending := pending, metrics := s.metrics.(maxPending := high),
       ledger := s.ledger.(registered := s.ledger.registered + 1,
                           overwritten := s.ledger.overwritten + if rid in s.pending then 1 else 0))
  }

  function Rtt(p: Pending, ackedAt: int): nat {
    var base := if p.lastSentAt == ZERO_TIME then p.registeredAt else p.lastSentAt;
    if ackedAt - base < 0 then 0 else ackedAt - base
  }

  function ObserveAck(m: Metrics, rtt: nat): Metrics {
    m.(acked := m.acked + 1, totalRtt := m.totalRtt + rtt, lastRtt := rtt,
       maxRtt := if rtt > m.maxRtt then rtt else m.maxRtt)
  }

  function Ack(s: State, rid: string, now: int): State {
    if rid !in s.pending then s
    else s.(pending := s.pending - {rid}, metrics := ObserveAck(s.metrics, Rtt(s.pending[rid].pending, now)))
  }

  predicate IsDue(p: Pending, now: int) { p.retryEnabled && now >= p.expiresAt }

  predicate IsSpent(p: Pending) { p.retryCount >= p.maxRetries }

  function NextDelay(cfg: Config, retryCount: nat): int
    requires ConfigOk(cfg)
  {
    cfg.timeout * Pow(cfg.multiplier, retryCount)
  }

  function Retried(cfg: Config, t: Tracked, now: int): Tracked
    requires ConfigOk(cfg)
  {
    var k := t.pending.retryCount + 1;
    t.(pending := t.pending.(retryCount := k, lastSentAt := now, expiresAt := now + NextDelay(cfg, k)))
  }

  function RetryKeys(pending: Table, now: int): set<string> {
    set r | r in pending && IsDue(pending[r].pending, now) && !IsSpent(pending[r].pending)
  }

  function SpentKeys(pending: Table, now: int): set<string> {
    set r | r in pending && IsDue(pending[r].pending, now) && IsSpent(pending[r].pending)
  }

  /** The table once `retry` has been sent again and `spent` removed. */
  function DueTable(cfg: Config, pending: Table, now: int, retry: set<string>, spent: set<string>): Table
    requires ConfigOk(cfg)
  {
    map r | r in pending && r !in spent :: if r in retry then Retried(cfg, pending[r], now) else pending[r]
  }

  /** DueRetries once it has visited the entries in `seen`, in whatever order. */
  function DueOn(s: State, now: int, seen: set<string>): State
    requires ConfigOk(s.cfg)
  {
    var retry, spent := RetryKeys(s.pending, now) * seen, SpentKeys(s.pending, now) * seen;
    s.(pending := DueTable(s.cfg, s.pending, now, retry, spent),
       metrics := s.metrics.(retryDispatch := s.metrics.retryDispatch + |retry|,
                             exhausted := s.metrics.exhausted + |spent|))
  }

  /** A whole DueRetries pass: a pointwise update, so the order of the walk cannot matter. */
  function DueRetries(s: State, now: int): State
    requires ConfigOk(s.cfg)
  {
    DueOn(s, now, s.pending.Keys)
  }

  /** Past its deadline with no retry left to send. */
  predicate IsOver(p: Pending, now: int) {
    now >= p.expiresAt && !(p.retryEnabled && p.retryCount < p.maxRetries)
  }

  function ExpiredKeys(s: State, now: int): set<string> {
    set r | r in s.pending && IsOver(s.pending[r].pending, now)
  }

  function ExpireOn(s: State, now: int, seen: set<string>): State {
    var gone := ExpiredKeys(s, now) * seen;
    s.(pending := s.pending - gone, metrics := s.metrics.(expired := s.metrics.expired + |gone|))
  }

  function Expire(s: State, now: int): State {
    ExpireOn(s, now, s.pending.Keys)
  }

  function ForgottenKeys(s: State, sid: string, transport: string): set<string> {
    set r | r in s.pending && s.pending[r].pending.sid == sid && s.pending[r].pending.transport == transport
  }

  function ForgetOn(s: State, sid: string, transport: string, seen: set<string>): State {
    var gone := ForgottenKeys(s, sid, transport) * seen;
    s.(pending := s.pending - gone, ledger := s.ledger.(forgotten := s.ledger.forgotten + |gone|))
  }

  function Forget(s: State, sid: string, transport: string): State {
    if sid == "" then s else ForgetOn(s, sid, transport, s.pending.Keys)
  }

  // ----- runs -----

  datatype Op =
    | OpRegister(sid: string, rid: string, messageType: string, transport: string, retryEnabled: bool,
                 envelope: Option<Envelope>, now: int)
    | OpAck(rid: string, now: int)
    | OpDueRetries(now: int)
    | OpExpired(now: int)
    | OpForget(sid: string, transport: string)

  function Apply(s: State, op: Op): (r: State)
    requires ConfigOk(s.cfg)
    ensures r.cfg == s.cfg
  {
    match op
    case OpRegister(sid, rid, messageType, transport, retryEnabled, envelope, now) =>
      Register(s, NewEntry(s.cfg, sid, rid, messageType, transport, retryEnabled, envelope, now))
    case OpAck(rid, now) => Ack(s, rid, now)
    case OpDueRetries(now) => DueRetries(s, now)
    case OpExpired(now) => Expire(s, now)
    case OpForget(sid, transport) => Forget(s, sid, transport)
  }

  function Run(s: State, ops: seq<Op>): (r: State)
    requires ConfigOk(s.cfg)
    ensures r.cfg == s.cfg
  {
    if ops == [] then s else Apply(Run(s, ops[..|ops| - 1]), ops[|ops| - 1])
  }

  // ----- the invariant -----

  /** The retry limit of an entry, which it never exceeds. */
  predicate LimitOk(cfg: Config, p: Pending) {
    p.maxRetries == MaxRetriesForRetry(p.retryEnabled, cfg.maxRetries) && p.retryCount <= p.maxRetries
  }

  predicate LimitsOk(cfg: Config, pending: Table) {
    cfg.maxRetries >= 0 && forall r :: r in pending ==> pending[r].pending.rid == r && LimitOk(cfg, pending[r].pending)
  }

  /** With k retries sent: the next deadline is timeout*m^k after the last send, which itself came no earlier
      than timeout*(1 + m + ... + m^(k-1)) after registration. */
  predicate BackoffOk(cfg: Config, p: Pending)
    requires ConfigOk(cfg)
  {
    && p.expiresAt == p.lastSentAt + cfg.timeout * Pow(cfg.multiplier, p.retryCount)
    && p.lastSentAt >= p.registeredAt + cfg.timeout * Geometric(cfg.multiplier, p.retryCount)
  }

  predicate BackoffsOk(cfg: Config, pending: Table)
    requires ConfigOk(cfg)
  {
    forall r :: r in pending ==> BackoffOk(cfg, pending[r].pending)
  }

  /** Entries that are no longer waiting, by the way they left. */
  function Departed(s: State): nat {
    s.metrics.acked + s.metrics.expired + s.metrics.exhausted + s.ledger.forgotten + s.ledger.overwritten
  }

  /** Every registration is accounted for once. */
  predicate Conserved(s: State) {
    s.ledger.registered == Departed(s) + |s.pending|
  }

  ghost function RetryCounts(pending: Table): map<string, int> {
    map r | r in pending :: pending[r].pending.retryCount
  }

  /** Retries already spent by the entries still waiting. */
  ghost function SpentRetries(pending: Table): int { Total(RetryCounts(pending)) }

  /** Retries sent: those of the waiting entries, and at most maxRetries for each one that left. */
  predicate BudgetOk(maxRetries: int, departed: int, sent: int, live: int) {
    sent <= maxRetries * departed + live
  }

  lemma BudgetOnLeave(maxRetries: int, departed: int, sent: int, live: int, own: int)
    requires BudgetOk(maxRetries, departed, sent, live) && own <= maxRetries
    ensures BudgetOk(maxRetries, departed + 1, sent, live - own)
  {
    OneMore(maxRetries, departed);
  }

  ghost predicate WithinBudget(s: State) {
    BudgetOk(s.cfg.maxRetries, Departed(s), s.metrics.retryDispatch, SpentRetries(s.pending))
  }

  predicate RttOk(m: Metrics) {
    0 <= m.lastRtt <= m.maxRtt && 0 <= m.totalRtt <= m.acked * m.maxRtt
  }

  ghost predicate Counted(s: State) {
    && LimitsOk(s.cfg, s.pending) && Conserved(s) && WithinBudget(s)
    && |s.pending| <= s.metrics.maxPending
  }

  /** How many visits by DueRetries an entry can still cause. */
  ghost function Weight(p: Pending): int {
    if p.retryEnabled then p.maxRetries - p.retryCount + 1 else 0
  }

  ghost function Weights(pending: Table): map<string, int> {
    map r | r in pending :: Weight(pending[r].pending)
  }

  ghost function Measure(pending: Table): int { Total(Weights(pending)) }

  // ----- one entry at a time -----

  lemma PutRetries(pending: Table, r: string, t: Tracked)
    ensures SpentRetries(pending[r := t])
         == SpentRetries(pending) - (if r in pending then pending[r].pending.retryCount else 0) + t.pending.retryCount
  {
    assert RetryCounts(pending[r := t]) == RetryCounts(pending)[r := t.pending.retryCount];
    TotalPut(RetryCounts(pending), r, t.pending.retryCount);
  }

  lemma PutMeasure(pending: Table, r: string, t: Tracked)
    ensures Measure(pending[r := t])
         == Measure(pending) - (if r in pending then Weight(pending[r].pending) else 0) + Weight(t.pending)
  {
    assert Weights(pending[r := t]) == Weights(pending)[r := Weight(t.pending)];
    TotalPut(Weights(pending), r, Weight(t.pending));
  }

  lemma PutSize(pending: Table, r: string, t: Tracked)
    ensures |pending[r := t]| == |pending| + if r in pending then 0 else 1
  {
    assert pending[r := t].Keys == pending.Keys + {r};
  }

  lemma DropEntry(pending: Table, r: string)
    requires r in pending
    ensures |pending - {r}| == |pending| - 1
    ensures SpentRetries(pending - {r}) == SpentRetries(pending) - pending[r].pending.retryCount
    ensures Measure(pending - {r}) == Measure(pending) - Weight(pending[r].pending)
  {
    assert (pending - {r}).Keys == pending.Keys - {r};
    assert RetryCounts(pending - {r}) == RetryCounts(pending) - {r};
    TotalRemove(RetryCounts(pending), r);
    assert Weights(pending - {r}) == Weights(pending) - {r};
    TotalRemove(Weights(pending), r);
  }

  /** `t` is `s` after the entries in `gone` left, whichever way they left. */
  ghost predicate Left(s: State, t: State, gone: set<string>) {
    && gone <= s.pending.Keys && t.pending == s.pending - gone
    && t.cfg == s.cfg && t.ledger.registered == s.ledger.registered
    && t.metrics.retryDispatch == s.metrics.retryDispatch && t.metrics.maxPending == s.metrics.maxPending
    && Departed(t) == Departed(s) + |gone|
  }

  /** An entry leaving the table pays for its own retries out of its registration. */
  lemma LeaveOne(s: State, t: State, r: string)
    requires Counted(s) && r in s.pending && Left(s, t, {r})
    ensures Counted(t) && Measure(t.pending) == Measure(s.pending) - Weight(s.pending[r].pending)
    ensures Measure(t.pending) <= Measure(s.pending)
  {
    DropEntry(s.pending, r);
    var p := s.pending[r].pending;
    assert LimitOk(s.cfg, p);
    BudgetOnLeave(s.cfg.maxRetries, Departed(s), s.metrics.retryDispatch, SpentRetries(s.pending), p.retryCount);
  }

  function WithoutOne(s: State, r: string): State {
    s.(pending := s.pending - {r}, ledger := s.ledger.(forgotten := s.ledger.forgotten + 1))
  }

  lemma LeaveFirst(s: State, t: State, gone: set<string>, r: string)
    requires Left(s, t, gone) && r in gone
    ensures Left(s, WithoutOne(s, r), {r}) && Left(WithoutOne(s, r), t, gone - {r})
  {
    assert s.pending - gone == s.pending - {r} - (gone - {r});
  }

  lemma LeaveNone(s: State, t: State)
    requires Counted(s) && Left(s, t, {})
    ensures Counted(t) && t.pending == s.pending
  {
    hide Measure, SpentRetries, LimitOk;
    assert s.pending - {} == s.pending;
  }

  lemma {:induction false} LeaveMany(s: State, t: State, gone: set<string>)
    requires Counted(s) && Left(s, t, gone)
    ensures Counted(t) && Measure(t.pending) <= Measure(s.pending)
    decreases gone
  {
    hide Measure, Counted, Left;
    if gone == {} {
      LeaveNone(s, t);
    } else {
      var r :| r in gone;
      LeaveFirst(s, t, gone, r);
      LeaveOne(s, WithoutOne(s, r), r);
      LeaveMany(WithoutOne(s, r), t, gone - {r});
    }
  }

  lemma RegisterCounted(s: State, entry: Tracked)
    requires Counted(s) && LimitOk(s.cfg, entry.pending) && entry.pending.retryCount == 0
    ensures Counted(Register(s, entry))
  {
    var r := entry.pending.rid;
    PutRetries(s.pending, r, entry);
    PutSize(s.pending, r, entry);
    if r in s.pending {
      var p := s.pending[r].pending;
      assert LimitOk(s.cfg, p);
      BudgetOnLeave(s.cfg.maxRetries, Departed(s), s.metrics.retryDispatch, SpentRetries(s.pending), p.retryCount);
    }
  }

  lemma AckCounted(s: State, rid: string, now: int)
    requires Counted(s)
    ensures Counted(Ack(s, rid, now)) && Measure(Ack(s, rid, now).pending) <= Measure(s.pending)
  {
    if rid in s.pending {
      LeaveOne(s, Ack(s, rid, now), rid);
    }
  }

  lemma ExpireCounted(s: State, now: int)
    requires Counted(s)
    ensures Counted(Expire(s, now)) && Measure(Expire(s, now).pending) <= Measure(s.pending)
  {
    LeaveMany(s, Expire(s, now), ExpiredKeys(s, now) * s.pending.Keys);
  }

  lemma ForgetCounted(s: State, sid: string, transport: string)
    requires Counted(s)
    ensures Counted(Forget(s, sid, transport)) && Measure(Forget(s, sid, transport).pending) <= Measure(s.pending)
  {
    if sid != "" {
      LeaveMany(s, Forget(s, sid, transport), ForgottenKeys(s, sid, transport) * s.pending.Keys);
    }
  }

  // ----- the DueRetries walk -----

  lemma AddToWalk(keys: set<string>, seen: set<string>, r: string)
    requires r !in seen
    ensures keys * (seen + {r}) == if r in keys then keys * seen + {r} else keys * seen
    ensures |keys * (seen + {r})| == |keys * seen| + if r in keys then 1 else 0
  {
    assert keys * (seen + {r}) == if r in keys then keys * seen + {r} else keys * seen;
  }

  lemma DueTableNext(cfg: Config, pending: Table, now: int, retry: set<string>, spent: set<string>, r: string)
    requires ConfigOk(cfg) && r in pending && r !in retry && r !in spent
    ensures r in DueTable(cfg, pending, now, retry, spent)
    ensures DueTable(cfg, pending, now, retry, spent)[r] == pending[r]
    ensures DueTable(cfg, pending, now, retry, spent + {r}) == DueTable(cfg, pending, now, retry, spent) - {r}
    ensures DueTable(cfg, pending, now, retry + {r}, spent)
         == DueTable(cfg, pending, now, retry, spent)[r := Retried(cfg, pending[r], now)]
  {
  }

  /** What visiting one entry does: leave it alone, remove it as exhausted, or send it again. */
  function Visit(s: State, r: string, t: Tracked, now: int): State
    requires ConfigOk(s.cfg)
  {
    if !IsDue(t.pending, now) then s
    else if IsSpent(t.pending) then
      s.(pending := s.pending - {r}, metrics := s.metrics.(exhausted := s.metrics.exhausted + 1))
    else
      s.(pending := s.pending[r := Retried(s.cfg, t, now)],
         metrics := s.metrics.(retryDispatch := s.metrics.retryDispatch + 1))
  }

  lemma DueKinds(pending: Table, now: int, r: string)
    requires r in pending
    ensures r in RetryKeys(pending, now) <==> IsDue(pending[r].pending, now) && !IsSpent(pending[r].pending)
    ensures r in SpentKeys(pending, now) <==> IsDue(pending[r].pending, now) && IsSpent(pending[r].pending)
  {
  }

  lemma DueOnNext(s: State, now: int, seen: set<string>, r: string)
    requires ConfigOk(s.cfg) && r in s.pending && r !in seen
    ensures r in DueOn(s, now, seen).pending && DueOn(s, now, seen).pending[r] == s.pending[r]
    ensures DueOn(s, now, seen + {r}) == Visit(DueOn(s, now, seen), r, s.pending[r], now)
  {
    hide DueTable, Retried, RetryKeys, SpentKeys, IsDue, IsSpent;
    var retry, spent := RetryKeys(s.pending, now), SpentKeys(s.pending, now);
    DueKinds(s.pending, now, r);
    AddToWalk(retry, seen, r);
    AddToWalk(spent, seen, r);
    DueTableNext(s.cfg, s.pending, now, retry * seen, spent * seen, r);
  }

  lemma NothingVisited(s: State, now: int)
    requires ConfigOk(s.cfg)
    ensures DueOn(s, now, {}) == s
  {
    assert RetryKeys(s.pending, now) * {} == {} && SpentKeys(s.pending, now) * {} == {};
    assert DueTable(s.cfg, s.pending, now, {}, {}) == s.pending;
  }

  function DueKeys(pending: Table, now: int): set<string> {
    set r | r in pending && IsDue(pending[r].pending, now)
  }

  lemma VisitCounted(s: State, r: string, now: int)
    requires ConfigOk(s.cfg) && Counted(s) && r in s.pending
    ensures Counted(Visit(s, r, s.pending[r], now))
    ensures Measure(Visit(s, r, s.pending[r], now).pending)
         == Measure(s.pending) - if IsDue(s.pending[r].pending, now) then 1 else 0
  {
    var p := s.pending[r].pending;
    var t := Visit(s, r, s.pending[r], now);
    assert LimitOk(s.cfg, p);
    if IsDue(p, now) && IsSpent(p) {
      LeaveOne(s, t, r);
    } else if IsDue(p, now) {
      PutRetries(s.pending, r, t.pending[r]);
      PutMeasure(s.pending, r, t.pending[r]);
      PutSize(s.pending, r, t.pending[r]);
    }
  }

  lemma SameCfg(s: State, now: int, seen: set<string>)
    requires ConfigOk(s.cfg)
    ensures DueOn(s, now, seen).cfg == s.cfg
  {
  }

  lemma {:induction false} DueWalk(s: State, now: int, seen: set<string>)
    requires ConfigOk(s.cfg) && Counted(s) && seen <= s.pending.Keys
    ensures Counted(DueOn(s, now, seen))
    ensures Measure(DueOn(s, now, seen).pending) == Measure(s.pending) - |DueKeys(s.pending, now) * seen|
    decreases seen
  {
    hide DueOn, Visit, Counted, Measure, IsDue;
    if seen == {} {
      NothingVisited(s, now);
      assert DueKeys(s.pending, now) * seen == {};
    } else {
      var r :| r in seen;
      SameCfg(s, now, seen - {r});
      var before := DueOn(s, now, seen - {r});
      DueWalk(s, now, seen - {r});
      DueOnNext(s, now, seen - {r}, r);
      VisitCounted(before, r, now);
      AddToWalk(DueKeys(s.pending, now), seen - {r}, r);
      assert seen - {r} + {r} == seen;
    }
  }

  // ----- every run -----

  lemma RegistersOk(cfg: Config, op: Op)
    requires ConfigOk(cfg) && op.OpRegister?
    ensures var p := NewEntry(cfg, op.sid, op.rid, op.messageType, op.transport,
                              op.retryEnabled, op.envelope, op.now).pending;
            LimitOk(cfg, p) && p.retryCount == 0 && BackoffOk(cfg, p)
  {
    assert Pow(cfg.multiplier, 0) == 1 && Geometric(cfg.multiplier, 0) == 0;
  }

  lemma ApplyCounted(s: State, op: Op)
    requires ConfigOk(s.cfg) && Counted(s)
    ensures Counted(Apply(s, op))
    ensures !op.OpRegister? && !op.OpDueRetries? ==> Measure(Apply(s, op).pending) <= Measure(s.pending)
  {
    match op
    case OpRegister(sid, rid, messageType, transport, retryEnabled, envelope, now) =>
      RegistersOk(s.cfg, op);
      RegisterCounted(s, NewEntry(s.cfg, sid, rid, messageType, transport, retryEnabled, envelope, now));
    case OpAck(rid, now) => AckCounted(s, rid, now);
    case OpDueRetries(now) => DueWalk(s, now, s.pending.Keys);
    case OpExpired(now) => ExpireCounted(s, now);
    case OpForget(sid, transport) => ForgetCounted(s, sid, transport);
  }

  lemma {:induction false} RunCounted(s: State, ops: seq<Op>)
    requires ConfigOk(s.cfg) && Counted(s)
    ensures Counted(Run(s, ops))
  {
    if ops != [] {
      RunCounted(s, ops[..|ops| - 1]);
      ApplyCounted(Run(s, ops[..|ops| - 1]), ops[|ops| - 1]);
    }
  }

  lemma FreshCounted(cfg: Config)
    ensures ConfigOk(Fresh(cfg).cfg) && Counted(Fresh(cfg))
  {
    assert RetryCounts(map[]) == map[];
  }

  /**
   In every reachable state each registration is acked, expired, exhausted, forgotten, overwritten or still
   pending; no entry exceeds its retry limit; and at most maxRetries retries were sent per registration.
   */
  lemma AckConservation(cfg: Config, ops: seq<Op>)
    ensures
      var s := Run(Fresh(cfg), ops);
      && s.ledger.registered == s.metrics.acked + s.metrics.expired + s.metrics.exhausted
                                + s.ledger.forgotten + s.ledger.overwritten + |s.pending|
      && (forall r :: r in s.pending ==> s.pending[r].pending.rid == r
                                         && s.pending[r].pending.retryCount <= s.pending[r].pending.maxRetries)
      && s.metrics.retryDispatch <= s.cfg.maxRetries * s.ledger.registered
  {
    FreshCounted(cfg);
    RunCounted(Fresh(cfg), ops);
    CountedBound(Run(Fresh(cfg), ops));
  }

  lemma CountedBound(s: State)
    requires Counted(s)
    ensures s.metrics.retryDispatch <= s.cfg.maxRetries * s.ledger.registered
  {
    var m := s.cfg.maxRetries;
    assert forall r :: r in s.pending ==> LimitOk(s.cfg, s.pending[r].pending);
    LiveRetriesAtMost(s.pending, m);
    BudgetSpent(m, Departed(s), s.metrics.retryDispatch, SpentRetries(s.pending), |s.pending|);
  }

  lemma BudgetSpent(maxRetries: int, departed: int, sent: int, live: int, waiting: int)
    requires BudgetOk(maxRetries, departed, sent, live) && live <= maxRetries * waiting
    ensures sent <= maxRetries * (departed + waiting)
  {
    Distribute(maxRetries, departed, waiting);
  }

  lemma LiveRetriesAtMost(pending: Table, m: int)
    requires forall r :: r in pending ==> pending[r].pending.retryCount <= m
    ensures SpentRetries(pending) <= m * |pending|
  {
    TotalAtMost(RetryCounts(pending), m);
    assert RetryCounts(pending).Keys == pending.Keys;
    assert |RetryCounts(pending)| == |pending|;
  }

  /** The largest number of entries waiting at any point of a run. */
  function Peak(s: State, ops: seq<Op>): nat
    requires ConfigOk(s.cfg)
  {
    if ops == [] then |s.pending|
    else
      var before, here := Peak(s, ops[..|ops| - 1]), |Run(s, ops).pending|;
      if here > before then here else before
  }

  lemma ApplyPeak(s: State, op: Op)
    requires ConfigOk(s.cfg) && Counted(s)
    ensures Apply(s, op).metrics.maxPending
         == if |Apply(s, op).pending| > s.metrics.maxPending then |Apply(s, op).pending| else s.metrics.maxPending
  {
    ApplyCounted(s, op);
  }

  /** maxPendingCount is the true high-water mark. */
  lemma {:induction false} HighWaterMark(cfg: Config, ops: seq<Op>)
    ensures Run(Fresh(cfg), ops).metrics.maxPending == Peak(Fresh(cfg), ops)
  {
    FreshCounted(cfg);
    if ops != [] {
      var before := ops[..|ops| - 1];
      HighWaterMark(cfg, before);
      RunCounted(Fresh(cfg), before);
      ApplyPeak(Run(Fresh(cfg), before), ops[|ops| - 1]);
    }
  }

  // ----- back-off -----

  lemma RetriedBackoff(cfg: Config, t: Tracked, now: int)
    requires ConfigOk(cfg) && BackoffOk(cfg, t.pending) && now >= t.pending.expiresAt
    ensures BackoffOk(cfg, Retried(cfg, t, now).pending)
    ensures Retried(cfg, t, now).pending.expiresAt > now
  {
    var k := t.pending.retryCount;
    Distribute(cfg.timeout, Geometric(cfg.multiplier, k), Pow(cfg.multiplier, k));
    PowPositive(cfg.multiplier, k + 1);
    ProductAtLeast(cfg.timeout, Pow(cfg.multiplier, k + 1), 1);
  }

  lemma DueBackoff(s: State, now: int)
    requires ConfigOk(s.cfg) && BackoffsOk(s.cfg, s.pending)
    ensures BackoffsOk(s.cfg, DueRetries(s, now).pending)
    ensures DueKeys(DueRetries(s, now).pending, now) == {}
  {
    var t := DueRetries(s, now);
    forall r | r in t.pending
      ensures BackoffOk(s.cfg, t.pending[r].pending) && !IsDue(t.pending[r].pending, now)
    {
      assert BackoffOk(s.cfg, s.pending[r].pending);
      if r in RetryKeys(s.pending, now) {
        RetriedBackoff(s.cfg, s.pending[r], now);
      }
    }
  }

  lemma ApplyBackoff(s: State, op: Op)
    requires ConfigOk(s.cfg) && BackoffsOk(s.cfg, s.pending)
    ensures BackoffsOk(s.cfg, Apply(s, op).pending)
  {
    if op.OpRegister? {
      RegistersOk(s.cfg, op);
    } else if op.OpDueRetries? {
      DueBackoff(s, op.now);
    }
  }

  lemma {:induction false} RunBackoff(s: State, ops: seq<Op>)
    requires ConfigOk(s.cfg) && BackoffsOk(s.cfg, s.pending)
    ensures BackoffsOk(s.cfg, Run(s, ops).pending)
  {
    if ops != [] {
      RunBackoff(s, ops[..|ops| - 1]);
      ApplyBackoff(Run(s, ops[..|ops| - 1]), ops[|ops| - 1]);
    }
  }

  /** Over every run, whatever the clock does, the deadlines of a waiting entry are geometric. */
  lemma GeometricBackoff(cfg: Config, ops: seq<Op>, r: string)
    requires r in Run(Fresh(cfg), ops).pending
    ensures
      var s := Run(Fresh(cfg), ops);
      var p := s.pending[r].pending;
      && p.expiresAt == p.lastSentAt + s.cfg.timeout * Pow(s.cfg.multiplier, p.retryCount)
      && p.lastSentAt >= p.registeredAt + s.cfg.timeout * Geometric(s.cfg.multiplier, p.retryCount)
  {
    RunBackoff(Fresh(cfg), ops);
    assert BackoffOk(Run(Fresh(cfg), ops).cfg, Run(Fresh(cfg), ops).pending[r].pending);
  }

  /** An entry is given up no earlier than the full geometric sum after its registration. */
  lemma ExhaustedNotEarly(cfg: Config, ops: seq<Op>, now: int, r: string)
    requires r in SpentKeys(Run(Fresh(cfg), ops).pending, now)
    ensures
      var s := Run(Fresh(cfg), ops);
      now >= s.pending[r].pending.registeredAt + s.cfg.timeout * Geometric(s.cfg.multiplier, s.cfg.maxRetries + 1)
  {
    GeometricBackoff(cfg, ops, r);
    FreshCounted(cfg);
    RunCounted(Fresh(cfg), ops);
    SpentNotEarly(Run(Fresh(cfg), ops).cfg, Run(Fresh(cfg), ops).pending[r].pending, now);
  }

  lemma SpentNotEarly(cfg: Config, p: Pending, now: int)
    requires ConfigOk(cfg) && LimitOk(cfg, p) && BackoffOk(cfg, p) && IsDue(p, now) && IsSpent(p)
    ensures now >= p.registeredAt + cfg.timeout * Geometric(cfg.multiplier, cfg.maxRetries + 1)
  {
    Distribute(cfg.timeout, Geometric(cfg.multiplier, cfg.maxRetries), Pow(cfg.multiplier, cfg.maxRetries));
  }

  // ----- retrying ends -----

  /** A pass leaves entries that are not due alone, sends the due ones once more and drops the exhausted ones. */
  lemma DuePointwise(s: State, now: int)
    requires ConfigOk(s.cfg)
    ensures
      var t := DueRetries(s, now);
      && t.pending.Keys == s.pending.Keys - SpentKeys(s.pending, now)
      && forall r :: r in t.pending ==>
           t.pending[r] == if IsDue(s.pending[r].pending, now) then Retried(s.cfg, s.pending[r], now) else s.pending[r]
  {
  }

  /** What holds in every reachable state. */
  ghost predicate Sound(s: State) {
    ConfigOk(s.cfg) && Counted(s) && BackoffsOk(s.cfg, s.pending)
  }

  lemma ReachableIsSound(cfg: Config, ops: seq<Op>)
    ensures Sound(Run(Fresh(cfg), ops))
  {
    FreshCounted(cfg);
    RunCounted(Fresh(cfg), ops);
    RunBackoff(Fresh(cfg), ops);
  }

  /**
   One DueRetries pass in a reachable state: the entries not due are untouched, each due one is sent once more
   or removed as exhausted, none is due afterwards, and the measure falls by exactly the number that were due.
   */
  lemma DueRetriesPass(s: State, now: int)
    requires Sound(s)
    ensures
      var t := DueRetries(s, now);
      && t.pending.Keys == s.pending.Keys - SpentKeys(s.pending, now)
      && (forall r :: r in t.pending ==>
            t.pending[r] ==
              if IsDue(s.pending[r].pending, now) then Retried(s.cfg, s.pending[r], now) else s.pending[r])
    ensures DueKeys(DueRetries(s, now).pending, now) == {}
    ensures Measure(DueRetries(s, now).pending) == Measure(s.pending) - |DueKeys(s.pending, now)|
  {
    DueBackoff(s, now);
    DuePointwise(s, now);
    DueWalk(s, now, s.pending.Keys);
    assert DueKeys(s.pending, now) * s.pending.Keys == DueKeys(s.pending, now);
  }

  lemma {:induction false} MeasureNonNegative(cfg: Config, pending: Table)
    requires LimitsOk(cfg, pending)
    ensures Measure(pending) >= 0
    decreases |pending|
  {
    if pending == map[] {
      assert Weights(pending) == map[];
    } else {
      var r :| r in pending;
      DropEntry(pending, r);
      assert LimitOk(cfg, pending[r].pending);
      MeasureNonNegative(cfg, pending - {r});
    }
  }

  lemma DueSplits(pending: Table, now: int)
    ensures |DueKeys(pending, now)| == |RetryKeys(pending, now)| + |SpentKeys(pending, now)|
  {
    assert DueKeys(pending, now) == RetryKeys(pending, now) + SpentKeys(pending, now);
    assert RetryKeys(pending, now) !! SpentKeys(pending, now);
  }

  lemma {:induction false} MeasurePays(s: State, ops: seq<Op>)
    requires ConfigOk(s.cfg) && Counted(s)
    requires forall op :: op in ops ==> !op.OpRegister?
    ensures
      var t := Run(s, ops);
      (t.metrics.retryDispatch + t.metrics.exhausted) - (s.metrics.retryDispatch + s.metrics.exhausted)
        <= Measure(s.pending) - Measure(t.pending)
  {
    if ops != [] {
      var before, op := ops[..|ops| - 1], ops[|ops| - 1];
      MeasurePays(s, before);
      RunCounted(s, before);
      var u := Run(s, before);
      ApplyCounted(u, op);
      if op.OpDueRetries? {
        DuePays(u, op.now);
      }
    }
  }

  lemma DuePays(s: State, now: int)
    requires ConfigOk(s.cfg) && Counted(s)
    ensures
      var t := DueRetries(s, now);
      (t.metrics.retryDispatch + t.metrics.exhausted) - (s.metrics.retryDispatch + s.metrics.exhausted)
        == Measure(s.pending) - Measure(t.pending)
  {
    DueWalk(s, now, s.pending.Keys);
    DueSplits(s.pending, now);
    WholeWalk(s.pending, now);
    assert DueKeys(s.pending, now) * s.pending.Keys == DueKeys(s.pending, now);
  }

  /** Without new registrations, retries and exhaustions together never exceed the measure: retrying ends. */
  lemma RetryingEnds(cfg: Config, start: seq<Op>, ops: seq<Op>)
    requires forall op :: op in ops ==> !op.OpRegister?
    ensures
      var s := Run(Fresh(cfg), start);
      var t := Run(s, ops);
      (t.metrics.retryDispatch + t.metrics.exhausted) - (s.metrics.retryDispatch + s.metrics.exhausted)
        <= Measure(s.pending)
  {
    FreshCounted(cfg);
    RunCounted(Fresh(cfg), start);
    var s := Run(Fresh(cfg), start);
    MeasurePays(s, ops);
    RunCounted(s, ops);
    MeasureNonNegative(s.cfg, Run(s, ops).pending);
  }

  // ----- what each operation does to the table -----

  /** Values out of range are replaced by two seconds, two retries and doubling; the others are kept. */
  lemma Defaults(cfg: Config)
    ensures
      var used := Fresh(cfg).cfg;
      && used.timeout == (if cfg.timeout > 0 then cfg.timeout else 2_000_000_000)
      && used.maxRetries == (if cfg.maxRetries >= 0 then cfg.maxRetries else 2)
      && used.multiplier == (if cfg.multiplier >= 1 then cfg.multiplier else 2)
  {
  }

  /** A registered entry waits under its request ID with a full budget, or none if it may not be retried. */
  lemma RegisteredWaits(s: State, op: Op)
    requires ConfigOk(s.cfg) && op.OpRegister?
    ensures
      var t := Apply(s, op);
      && t.pending.Keys == s.pending.Keys + {op.rid}
      && (forall r :: r in s.pending && r != op.rid ==> t.pending[r] == s.pending[r])
      && var p := t.pending[op.rid].pending;
         && p.sid == op.sid && p.rid == op.rid && p.messageType == op.messageType
         && p.transport == (if op.transport == "" then "unknown" else op.transport)
         && p.registeredAt == op.now && p.lastSentAt == op.now && p.expiresAt == op.now + s.cfg.timeout
         && p.retryCount == 0 && p.retryEnabled == op.retryEnabled
         && p.maxRetries == (if op.retryEnabled then s.cfg.maxRetries else 0)
         && t.pending[op.rid].envelope == op.envelope
  {
  }

  /** An entry before its deadline, or with a retry left to send, never expires; every other one does. */
  lemma ExpiresExactly(s: State, now: int)
    ensures
      var t := Expire(s, now);
      && t.pending.Keys <= s.pending.Keys && t.metrics.expired == s.metrics.expired + |s.pending| - |t.pending|
      && forall r :: r in s.pending ==>
           var p := s.pending[r].pending;
           && (r in t.pending <==> now < p.expiresAt || (p.retryEnabled && p.retryCount < p.maxRetries))
           && (r in t.pending ==> t.pending[r] == s.pending[r])
  {
    var gone := ExpiredKeys(s, now);
    assert gone * s.pending.Keys == gone && (s.pending - gone).Keys == s.pending.Keys - gone;
    assert |s.pending.Keys - gone| == |s.pending.Keys| - |gone|;
  }

  /** Exactly the entries of that session on that transport are forgotten, and nothing is counted for them. */
  lemma ForgetsExactly(s: State, sid: string, transport: string)
    ensures
      var t := Forget(s, sid, transport);
      && t.pending.Keys <= s.pending.Keys && t.metrics == s.metrics
      && forall r :: r in s.pending ==>
           var p := s.pending[r].pending;
           && (r in t.pending <==> sid == "" || p.sid != sid || p.transport != transport)
           && (r in t.pending ==> t.pending[r] == s.pending[r])
  {
  }

  /** An ack takes its entry out and counts the time since the last send, or zero if the clock went back. */
  lemma AckCountsRoundTrip(s: State, rid: string, now: int)
    requires rid in s.pending && s.pending[rid].pending.lastSentAt != ZERO_TIME
    ensures
      var t, sent := Ack(s, rid, now), s.pending[rid].pending.lastSentAt;
      && t.pending == s.pending - {rid} && t.metrics.acked == s.metrics.acked + 1
      && t.metrics.lastRtt == (if now > sent then now - sent else 0)
      && t.metrics.totalRtt == s.metrics.totalRtt + t.metrics.lastRtt
      && t.metrics.maxRtt >= t.metrics.lastRtt && t.metrics.maxRtt >= s.metrics.maxRtt
      && (t.metrics.maxRtt == t.metrics.lastRtt || t.metrics.maxRtt == s.metrics.maxRtt)
  {
  }

  // ----- round-trip times -----

  lemma RttInv(m: Metrics, rtt: nat)
    requires RttOk(m)
    ensures RttOk(ObserveAck(m, rtt))
  {
    var n := ObserveAck(m, rtt);
    assert m.acked * m.maxRtt <= m.acked * n.maxRtt;
    assert (m.acked + 1) * n.maxRtt == m.acked * n.maxRtt + n.maxRtt;
  }

  lemma {:induction false} RunRtt(s: State, ops: seq<Op>)
    requires ConfigOk(s.cfg) && RttOk(s.metrics)
    ensures RttOk(Run(s, ops).metrics)
  {
    if ops != [] {
      RunRtt(s, ops[..|ops| - 1]);
      var u, op := Run(s, ops[..|ops| - 1]), ops[|ops| - 1];
      if op.OpAck? && op.rid in u.pending {
        RttInv(u.metrics, Rtt(u.pending[op.rid].pending, op.now));
      }
    }
  }

  function AvgAckRttMs(m: Metrics): int {
    if m.acked > 0 then m.totalRtt / m.acked / MILLISECOND else 0
  }

  function MaxAckRttMs(m: Metrics): int {
    if m.maxRtt <= 0 then 0 else m.maxRtt / MILLISECOND
  }

  /** The reported average round trip never exceeds the reported maximum. */
  lemma AverageWithinMaximum(cfg: Config, ops: seq<Op>)
    ensures var m := Run(Fresh(cfg), ops).metrics; 0 <= AvgAckRttMs(m) <= MaxAckRttMs(m)
  {
    RunRtt(Fresh(cfg), ops);
    var m := Run(Fresh(cfg), ops).metrics;
    if m.acked > 0 {
      QuotientAtMost(m.totalRtt, m.acked, m.maxRtt);
    }
  }

  /** The reported average round trip is the true one rounded down to whole milliseconds. */
  lemma AverageIsFloor(cfg: Config, ops: seq<Op>)
    ensures
      var m := Run(Fresh(cfg), ops).metrics;
      m.acked > 0 ==> AvgAckRttMs(m) * 1_000_000 * m.acked <= m.totalRtt < (AvgAckRttMs(m) + 1) * 1_000_000 * m.acked
  {
    hide Run;
    RunRtt(Fresh(cfg), ops);
    var m := Run(Fresh(cfg), ops).metrics;
    if m.acked > 0 { FloorOfFloor(m.totalRtt, m.acked, MILLISECOND); }
  }

  /** What a pass hands back: every entry sent again as it now stands in the table, and the spent ones as they were. */
  lemma BatchesAreThePass(s: State, now: int)
    requires ConfigOk(s.cfg)
    ensures
      var t := DueRetries(s, now);
      var again := ResentBatch(s.cfg, s.pending, now, RetryKeys(s.pending, now));
      var spent := GivenUpBatch(s.pending, SpentKeys(s.pending, now));
      && (forall r :: r in again <==> r in s.pending && IsDue(s.pending[r].pending, now) && r in t.pending)
      && (forall r :: r in again ==> again[r] == Retry(t.pending[r].pending, s.pending[r].envelope))
      && spent.Keys == s.pending.Keys - t.pending.Keys
      && (forall r :: r in spent ==> spent[r] == s.pending[r].pending)
  {
    DuePointwise(s, now);
    hide DueRetries, NextDelay;
  }

  // ----- the tracker itself -----

  datatype Retry = Retry(pending: Pending, envelope: Option<Envelope>)

  /** AckTracker: its table and counters, changed in place. */
  class AckTracker {
    const cfg: Config
    var pending: Table
    var metrics: Metrics
    ghost var ledger: Ledger

    ghost function Model(): State
      reads this
    {
      State(cfg, pending, metrics, ledger)
    }

    constructor (config: Config)
      ensures Model() == Fresh(config)
    {
      cfg := Normalised(config);
      pending, metrics, ledger := map[], Metrics(0, 0, 0, 0, 0, 0, 0, 0), Ledger(0, 0, 0);
    }

    /** The back-off loop multiplies once per retry. */
    method NextDelayLoop(retryCount: nat) returns (delay: int)
      requires ConfigOk(cfg)
      ensures delay == NextDelay(cfg, retryCount)
    {
      delay := cfg.timeout;
      for i := 0 to retryCount
        invariant delay == cfg.timeout * Pow(cfg.multiplier, i)
      {
        NextPower(cfg.timeout, cfg.multiplier, i);
        if cfg.multiplier > 1 {
          delay := delay * cfg.multiplier;
        }
      }
    }

    method RegisterEntry(sid: string, rid: string, messageType: string, transport: string, retryEnabled: bool,
                         envelope: Option<Envelope>, now: int)
      requires ConfigOk(cfg)
      modifies this
      ensures Model() ==
        Register(old(Model()), NewEntry(cfg, sid, rid, messageType, transport, retryEnabled, envelope, now))
    {
      var entry := NewEntry(cfg, sid, rid, messageType, transport, retryEnabled, envelope, now);
      ledger := ledger.(registered := ledger.registered + 1,
                        overwritten := ledger.overwritten + if rid in pending then 1 else 0);
      pending := pending[rid := entry];
      if |pending| > metrics.maxPending {
        metrics := metrics.(maxPending := |pending|);
      }
    }

    method AckEntry(rid: string, now: int) returns (found: bool)
      requires ConfigOk(cfg)
      modifies this
      ensures found == (rid in old(pending))
      ensures Model() == Ack(old(Model()), rid, now)
      ensures found && old(pending)[rid].pending.lastSentAt != ZERO_TIME ==>
                var sent := old(pending)[rid].pending.lastSentAt;
                metrics.lastRtt == if now > sent then now - sent else 0
    {
      found := rid in pending;
      if found {
        var tracked := pending[rid];
        pending := pending - {rid};
        metrics := ObserveAck(metrics, Rtt(tracked.pending, now));
      }
    }

    /** The body of the DueRetries walk. */
    method VisitDue(rid: string, now: int) returns (retry: Option<Retry>, spent: Option<Pending>)
      requires ConfigOk(cfg) && rid in pending
      modifies this
      ensures Model() == Visit(old(Model()), rid, old(pending)[rid], now)
      ensures retry == if rid in RetryKeys(old(pending), now) then Some(Resent(cfg, old(pending)[rid], now)) else None
      ensures spent == if rid in SpentKeys(old(pending), now) then Some(old(pending)[rid].pending) else None
    {
      retry, spent := None, None;
      var tracked := pending[rid];
      if !IsDue(tracked.pending, now) { return; }
      if IsSpent(tracked.pending) {
        spent := Some(tracked.pending);
        metrics := metrics.(exhausted := metrics.exhausted + 1);
        pending := pending - {rid};
        return;
      }
      var k := tracked.pending.retryCount + 1;
      var delay := NextDelayLoop(k);
      var next := tracked.pending.(retryCount := k, lastSentAt := now, expiresAt := now + delay);
      pending := pending[rid := tracked.(pending := next)];
      metrics := metrics.(retryDispatch := metrics.retryDispatch + 1);
      retry := Some(Retry(next, tracked.envelope));
    }

    /** One step of the walk: visit an entry and note what became of it. */
    method StepDue(rid: string, now: int, retries: map<string, Retry>, exhausted: map<string, Pending>,
                   ghost start: State, ghost seen: set<string>)
      returns (resent: map<string, Retry>, givenUp: map<string, Pending>)
      requires rid in start.pending && rid !in seen && DueSoFar(start, now, seen, Model(), retries, exhausted)
      modifies this
      ensures DueSoFar(start, now, seen + {rid}, Model(), resent, givenUp)
    {
      DueOnNext(start, now, seen, rid);
      DueBatchNext(cfg, start.pending, now, seen, rid);
      resent, givenUp := retries, exhausted;
      var retry, spent := VisitDue(rid, now);
      if retry.Some? {
        resent := resent[rid := retry.value];
      }
      if spent.Some? {
        givenUp := givenUp[rid := spent.value];
      }
    }

    /** The walk over the table, in an arbitrary order. */
    method WalkDue(now: int) returns (retries: map<string, Retry>, exhausted: map<string, Pending>)
      requires ConfigOk(cfg)
      modifies this
      ensures DueSoFar(old(Model()), now, old(pending).Keys, Model(), retries, exhausted)
    {
      hide DueSoFar;
      retries, exhausted := map[], map[];
      var todo := pending.Keys;
      ghost var start, seen := Model(), {};
      WalkStarts(start, now);
      while todo != {}
        invariant todo <= start.pending.Keys && seen == start.pending.Keys - todo
        invariant DueSoFar(start, now, seen, Model(), retries, exhausted)
        decreases todo
      {
        var rid :| rid in todo;
        retries, exhausted := StepDue(rid, now, retries, exhausted, start, seen);
        todo, seen := todo - {rid}, seen + {rid};
      }
      assert seen == start.pending.Keys;
    }

    /** DueRetries: due entries are sent again or given up, and both groups are reported. */
    method CollectDueRetries(now: int) returns (retries: map<string, Retry>, exhausted: map<string, Pending>)
      requires ConfigOk(cfg)
      modifies this
      ensures Model() == DueRetries(old(Model()), now)
      ensures retries == ResentBatch(cfg, old(pending), now, RetryKeys(old(pending), now))
      ensures exhausted == GivenUpBatch(old(pending), SpentKeys(old(pending), now))
    {
      WholeWalk(pending, now);
      retries, exhausted := WalkDue(now);
    }

    /** The body of the Expired walk. */
    method VisitExpired(rid: string, now: int) returns (gone: Option<Pending>)
      requires rid in pending
      modifies this
      ensures gone == if IsOver(old(pending)[rid].pending, now) then Some(old(pending)[rid].pending) else None
      ensures Model() == if gone.None? then old(Model()) else
                old(Model()).(pending := old(pending) - {rid},
                              metrics := old(metrics).(expired := old(metrics).expired + 1))
    {
      var p := pending[rid].pending;
      if now < p.expiresAt || (p.retryEnabled && p.retryCount < p.maxRetries) {
        return None;
      }
      metrics := metrics.(expired := metrics.expired + 1);
      pending := pending - {rid};
      gone := Some(p);
    }

    /** One step of the walk: visit an entry and note whether it is over. */
    method StepExpired(rid: string, now: int, expired: map<string, Pending>,
                       ghost start: State, ghost seen: set<string>)
      returns (gone: map<string, Pending>)
      requires rid in start.pending && rid !in seen && ExpiredSoFar(start, now, seen, Model(), expired)
      modifies this
      ensures ExpiredSoFar(start, now, seen + {rid}, Model(), gone)
    {
      ExpireOnNext(start, now, seen, rid);
      gone := expired;
      var over := VisitExpired(rid, now);
      if over.Some? {
        gone := gone[rid := over.value];
      }
    }

    /** The walk over the table, in an arbitrary order. */
    method WalkExpired(now: int) returns (expired: map<string, Pending>)
      modifies this
      ensures ExpiredSoFar(old(Model()), now, old(pending).Keys, Model(), expired)
    {
      hide ExpiredSoFar;
      expired := map[];
      var todo := pending.Keys;
      ghost var start, seen := Model(), {};
      NothingExpired(start, now);
      while todo != {}
        invariant todo <= start.pending.Keys && seen == start.pending.Keys - todo
        invariant ExpiredSoFar(start, now, seen, Model(), expired)
        decreases todo
      {
        var rid :| rid in todo;
        expired := StepExpired(rid, now, expired, start, seen);
        todo, seen := todo - {rid}, seen + {rid};
      }
      assert seen == start.pending.Keys;
    }

    /** Expired: the entries past their deadline that may not be retried are removed and reported. */
    method CollectExpired(now: int) returns (expired: map<string, Pending>)
      requires ConfigOk(cfg)
      modifies this
      ensures Model() == Expire(old(Model()), now)
      ensures expired == GivenUpBatch(old(pending), ExpiredKeys(old(Model()), now))
      ensures forall r :: r in old(pending) ==>
                var p := old(pending)[r].pending;
                r in expired <==> now >= p.expiresAt && !(p.retryEnabled && p.retryCount < p.maxRetries)
    {
      assert ExpiredKeys(Model(), now) * pending.Keys == ExpiredKeys(Model(), now);
      expired := WalkExpired(now);
    }

    method VisitForget(rid: string, sid: string, transport: string, ghost start: State, ghost seen: set<string>)
      requires rid in start.pending && rid !in seen && Model() == ForgetOn(start, sid, transport, seen)
      modifies this
      ensures Model() == ForgetOn(start, sid, transport, seen + {rid})
    {
      ForgetOnNext(start, sid, transport, seen, rid);
      var p := pending[rid].pending;
      if p.sid == sid && p.transport == transport {
        pending := pending - {rid};
        ledger := ledger.(forgotten := ledger.forgotten + 1);
      }
    }

    method ForgetBySessionTransport(sid: string, transport: string)
      requires ConfigOk(cfg)
      modifies this
      ensures Model() == Forget(old(Model()), sid, transport)
    {
      hide ForgetOn;
      if sid == "" { return; }
      var todo := pending.Keys;
      ghost var start, seen := Model(), {};
      NothingForgotten(start, sid, transport);
      while todo != {}
        invariant todo <= start.pending.Keys && seen == start.pending.Keys - todo
        invariant Model() == ForgetOn(start, sid, transport, seen)
        decreases todo
      {
        var rid :| rid in todo;
        VisitForget(rid, sid, transport, start, seen);
        todo, seen := todo - {rid}, seen + {rid};
      }
      assert seen == start.pending.Keys;
    }
  }

  function Resent(cfg: Config, t: Tracked, now: int): Retry
    requires ConfigOk(cfg)
  {
    Retry(Retried(cfg, t, now).pending, t.envelope)
  }

  /** The envelopes a DueRetries pass hands back for sending, by request ID. */
  function ResentBatch(cfg: Config, pending: Table, now: int, keys: set<string>): map<string, Retry>
    requires ConfigOk(cfg)
  {
    map r | r in pending && r in keys :: Resent(cfg, pending[r], now)
  }

  /** The entries a pass gave up, by request ID. */
  function GivenUpBatch(pending: Table, keys: set<string>): map<string, Pending> {
    map r | r in pending && r in keys :: pending[r].pending
  }

  lemma DueBatchNext(cfg: Config, pending: Table, now: int, seen: set<string>, r: string)
    requires ConfigOk(cfg) && r in pending && r !in seen
    ensures
      var keys := RetryKeys(pending, now);
      var batch := ResentBatch(cfg, pending, now, keys * seen);
      ResentBatch(cfg, pending, now, keys * (seen + {r}))
        == if r in keys then batch[r := Resent(cfg, pending[r], now)] else batch
    ensures
      var keys := SpentKeys(pending, now);
      var batch := GivenUpBatch(pending, keys * seen);
      GivenUpBatch(pending, keys * (seen + {r})) == if r in keys then batch[r := pending[r].pending] else batch
  {
    AddToWalk(RetryKeys(pending, now), seen, r);
    AddToWalk(SpentKeys(pending, now), seen, r);
    ResentNext(cfg, pending, now, RetryKeys(pending, now) * seen, r);
    DropNext(pending, SpentKeys(pending, now) * seen, r);
  }

  lemma ResentNext(cfg: Config, pending: Table, now: int, keys: set<string>, r: string)
    requires ConfigOk(cfg) && r in pending && r !in keys
    ensures ResentBatch(cfg, pending, now, keys + {r})
         == ResentBatch(cfg, pending, now, keys)[r := Resent(cfg, pending[r], now)]
  {
  }

  lemma WholeWalk(pending: Table, now: int)
    ensures RetryKeys(pending, now) * pending.Keys == RetryKeys(pending, now)
    ensures SpentKeys(pending, now) * pending.Keys == SpentKeys(pending, now)
  {
  }

  /** A DueRetries walk that has visited the entries in `seen`. */
  ghost predicate DueSoFar(start: State, now: int, seen: set<string>, current: State,
                           retries: map<string, Retry>, exhausted: map<string, Pending>)
  {
    && ConfigOk(start.cfg) && current == DueOn(start, now, seen)
    && retries == ResentBatch(start.cfg, start.pending, now, RetryKeys(start.pending, now) * seen)
    && exhausted == GivenUpBatch(start.pending, SpentKeys(start.pending, now) * seen)
  }

  lemma WalkStarts(s: State, now: int)
    requires ConfigOk(s.cfg)
    ensures DueSoFar(s, now, {}, s, map[], map[])
  {
    NothingVisited(s, now);
    assert RetryKeys(s.pending, now) * {} == {} && SpentKeys(s.pending, now) * {} == {};
    assert ResentBatch(s.cfg, s.pending, now, {}) == map[] && GivenUpBatch(s.pending, {}) == map[];
  }

  ghost predicate ExpiredSoFar(start: State, now: int, seen: set<string>, current: State,
                               expired: map<string, Pending>) {
    && current == ExpireOn(start, now, seen)
    && expired == GivenUpBatch(start.pending, ExpiredKeys(start, now) * seen)
  }

  lemma NothingExpired(s: State, now: int)
    ensures ExpiredSoFar(s, now, {}, s, map[])
  {
    assert ExpiredKeys(s, now) * {} == {} && s.pending - {} == s.pending;
    assert GivenUpBatch(s.pending, {}) == map[];
  }

  lemma NothingForgotten(s: State, sid: string, transport: string)
    ensures ForgetOn(s, sid, transport, {}) == s
  {
    assert ForgottenKeys(s, sid, transport) * {} == {} && s.pending - {} == s.pending;
  }

  lemma DropNext(pending: Table, gone: set<string>, r: string)
    requires r in pending && r !in gone
    ensures r in pending - gone && (pending - gone)[r] == pending[r]
    ensures pending - (gone + {r}) == pending - gone - {r}
    ensures GivenUpBatch(pending, gone + {r}) == GivenUpBatch(pending, gone)[r := pending[r].pending]
  {
  }

  lemma ExpireOnNext(s: State, now: int, seen: set<string>, r: string)
    requires r in s.pending && r !in seen
    ensures r in ExpireOn(s, now, seen).pending && ExpireOn(s, now, seen).pending[r] == s.pending[r]
    ensures
      var a := ExpireOn(s, now, seen);
      ExpireOn(s, now, seen + {r})
        == if IsOver(s.pending[r].pending, now)
           then a.(pending := a.pending - {r}, metrics := a.metrics.(expired := a.metrics.expired + 1)) else a
    ensures
      var keys := ExpiredKeys(s, now);
      var batch := GivenUpBatch(s.pending, keys * seen);
      GivenUpBatch(s.pending, keys * (seen + {r}))
        == if IsOver(s.pending[r].pending, now) then batch[r := s.pending[r].pending] else batch
  {
    AddToWalk(ExpiredKeys(s, now), seen, r);
    DropNext(s.pending, ExpiredKeys(s, now) * seen, r);
  }

  lemma ForgetOnNext(s: State, sid: string, transport: string, seen: set<string>, r: string)
    requires r in s.pending && r !in seen
    ensures
      var a := ForgetOn(s, sid, transport, seen);
      && r in a.pending && a.pending[r] == s.pending[r]
      && ForgetOn(s, sid, transport, seen + {r})
         == if r in ForgottenKeys(s, sid, transport)
            then a.(pending := a.pending - {r}, ledger := a.ledger.(forgotten := a.ledger.forgotten + 1)) else a
  {
    var keys := ForgottenKeys(s, sid, transport);
    AddToWalk(keys, seen, r);
    DropNext(s.pending, keys * seen, r);
  }

  lemma NextPower(timeout: int, m: nat, i: nat)
    requires m >= 1
    ensures timeout * Pow(m, i + 1) == timeout * Pow(m, i) * m
  {
    var p := Pow(m, i);
    assert timeout * (m * p) == timeout * p * m;
  }
}
