/**
 The pairing store: one record per pairing, reachable under its code and under its session, claimed in place and
 evicted once expired. The clock and the random tokens are inputs.
 */
module PairingStore {
  import opened Common
  import opened Text

  datatype Pairing = Pairing(code: string, sessionId: string, pcKey: string, mobileKey: string,
                             createdAt: int, expiresAt: int, claimed: bool)

  datatype Role = RolePC | RoleMobile

  /** Every record ever made, in order, and the two maps that lead to them. */
  datatype State = State(ttl: int, records: seq<Pairing>, byCode: map<string, nat>, bySession: map<string, nat>)
  {
    /** The maps lead to records. */
    ghost predicate Valid() {
      && (forall c :: c in byCode ==> byCode[c] < |records|)
      && (forall k :: k in bySession ==> bySession[k] < |records|)
    }
  }

  function Upper(s: string): string {
    if s == "" then "" else [if 'a' <= s[0] <= 'z' then s[0] - 'a' + 'A' else s[0]] + Upper(s[1..])
  }

  function NormalizeCode(code: string): string { Upper(TrimSpace(code)) }

  function New(ttl: int): State { State(ttl, [], map[], map[]) }

  // ----- operations -----

  predicate Expired(s: State, id: nat, now: int) {
    id < |s.records| && now > s.records[id].expiresAt
  }

  /** The sessions of the codes that the eviction loop meets expired. */
  function DeadSessions(s: State, now: int): set<string>
    requires s.Valid()
  {
    set c | c in s.byCode && Expired(s, s.byCode[c], now) :: s.records[s.byCode[c]].sessionId
  }

  function Evict(s: State, now: int): State
    requires s.Valid()
  {
    s.(byCode := map c | c in s.byCode && !Expired(s, s.byCode[c], now) :: s.byCode[c],
       bySession := s.bySession - DeadSessions(s, now))
  }

  datatype Tokens = Tokens(code: Result<string>, session: Result<string>, pcKey: Result<string>)

  function Added(s: State, code: string, session: string, pcKey: string, now: int): State {
    var id, p := |s.records|, Pairing(Upper(code), session, pcKey, "", now, now + s.ttl, false);
    State(s.ttl, s.records + [p], s.byCode[p.code := id], s.bySession[session := id])
  }

  datatype Outcome = Outcome(state: State, result: Result<Pairing>)

  function CreatePairing(s: State, evictAt: int, t: Tokens, now: int): Outcome
    requires s.Valid()
  {
    var e := Evict(s, evictAt);
    if t.code.Err? then Outcome(e, Err("generate pairing code: " + t.code.message))
    else if t.session.Err? then Outcome(e, Err("generate session id: " + t.session.message))
    else if t.pcKey.Err? then Outcome(e, Err("generate device key: " + t.pcKey.message))
    else
      var n := Added(e, t.code.value, t.session.value, t.pcKey.value, now);
      Outcome(n, Ok(n.records[|e.records|]))
  }

  function Marked(s: State, id: nat, mobileKey: string): State
    requires id < |s.records|
  {
    s.(records := s.records[id := s.records[id].(mobileKey := mobileKey, claimed := true)])
  }

  function Dropped(s: State, code: string, session: string): State {
    s.(byCode := s.byCode - {code}, bySession := s.bySession - {session})
  }

  function ClaimPairing(s: State, code: string, now: int, mobileKey: Result<string>): Outcome
    requires s.Valid()
  {
    var key := NormalizeCode(code);
    if key !in s.byCode then Outcome(s, Err("pairing not found"))
    else
      var id := s.byCode[key];
      var p := s.records[id];
      if now > p.expiresAt then Outcome(Dropped(s, key, p.sessionId), Err("pairing expired"))
      else if p.claimed then Outcome(s, Err("pairing already claimed"))
      else if mobileKey.Err? then Outcome(s, Err("generate mobile key: " + mobileKey.message))
      else
        var n := Marked(s, id, mobileKey.value);
        Outcome(n, Ok(n.records[id]))
  }

  function ValidateSessionKey(s: State, sessionId: string, deviceKey: string, now: int): Option<Role>
    requires s.Valid()
  {
    if sessionId !in s.bySession then None
    else
      var p := s.records[s.bySession[sessionId]];
      if now > p.expiresAt then None
      else if deviceKey == p.pcKey then Some(RolePC)
      else if deviceKey == p.mobileKey then Some(RoleMobile)
      else None
  }

  // ----- what each operation gives -----

  lemma {:induction false} UpperPointwise(s: string)
    ensures |Upper(s)| == |s|
    ensures forall i :: 0 <= i < |s| ==> Upper(s)[i] == if 'a' <= s[i] <= 'z' then s[i] - 'a' + 'A' else s[i]
  {
    if s != "" { UpperPointwise(s[1..]); }
  }

  /** A new pairing is unclaimed, lives for the store's time from now, and is found under both of its names. */
  lemma CreatedPairing(s: State, evictAt: int, t: Tokens, now: int)
    requires s.Valid() && t.code.Ok? && t.session.Ok? && t.pcKey.Ok?
    ensures
      var o := CreatePairing(s, evictAt, t, now);
      && o.result.Ok? && o.state.Valid()
      && var p := o.result.value;
         && p.code == Upper(t.code.value) && p.sessionId == t.session.value && p.pcKey == t.pcKey.value
         && p.createdAt == now && p.expiresAt == now + s.ttl && !p.claimed && p.mobileKey == ""
         && p.code in o.state.byCode && o.state.records[o.state.byCode[p.code]] == p
         && p.sessionId in o.state.bySession && o.state.bySession[p.sessionId] == o.state.byCode[p.code]
  {
    hide Upper, DeadSessions;
  }

  /** Without tokens there is no pairing, only the eviction. */
  lemma NoTokenNoPairing(s: State, evictAt: int, t: Tokens, now: int)
    requires s.Valid() && (t.code.Err? || t.session.Err? || t.pcKey.Err?)
    ensures
      var o := CreatePairing(s, evictAt, t, now);
      o.result.Err? && o.state.records == s.records && o.state == Evict(s, evictAt)
  {
    hide DeadSessions;
  }

  /** A claim by code, in any case and with space around it, and all the ways it can end. */
  lemma ClaimOutcomes(s: State, code: string, now: int, mobileKey: Result<string>)
    requires s.Valid()
    ensures
      var o, key := ClaimPairing(s, code, now, mobileKey), Upper(TrimSpace(code));
      if key !in s.byCode then o == Outcome(s, Err("pairing not found"))
      else
        var id := s.byCode[key];
        var p := s.records[id];
        if now > p.expiresAt then
          && o.result == Err("pairing expired") && o.state.records == s.records
          && key !in o.state.byCode && p.sessionId !in o.state.bySession
        else if p.claimed then o == Outcome(s, Err("pairing already claimed"))
        else if mobileKey.Err? then o.result.Err? && o.state == s
        else
          && o.result == Ok(p.(mobileKey := mobileKey.value, claimed := true))
          && o.state.byCode == s.byCode && o.state.bySession == s.bySession
          && o.state.records == s.records[id := o.result.value]
  {
    hide Upper, TrimSpace;
  }

  /** A key is checked against the pairing of its session, the PC's key first, and only while it has not expired. */
  lemma ValidateOutcomes(s: State, sessionId: string, deviceKey: string, now: int)
    requires s.Valid()
    ensures
      var role := ValidateSessionKey(s, sessionId, deviceKey, now);
      if sessionId !in s.bySession then role == None
      else
        var p := s.records[s.bySession[sessionId]];
        && (role == Some(RolePC) <==> now <= p.expiresAt && deviceKey == p.pcKey)
        && (role == Some(RoleMobile) <==> now <= p.expiresAt && deviceKey != p.pcKey && deviceKey == p.mobileKey)
  {
  }

  // ----- agreement of the maps -----

  /** Both maps hold the same records, each under its own code and its own session. */
  ghost predicate Agree(s: State)
    requires s.Valid()
  {
    && (forall c :: c in s.byCode ==>
          var p := s.records[s.byCode[c]];
          p.code == c && p.sessionId in s.bySession && s.bySession[p.sessionId] == s.byCode[c])
    && (forall k :: k in s.bySession ==>
          var p := s.records[s.bySession[k]];
          p.sessionId == k && p.code in s.byCode && s.byCode[p.code] == s.bySession[k])
  }

  lemma EvictAgrees(s: State, now: int)
    requires s.Valid() && Agree(s)
    ensures Evict(s, now).Valid() && Agree(Evict(s, now))
    ensures forall id :: id in Evict(s, now).byCode.Values ==> !Expired(s, id, now)
  {
    var e := Evict(s, now);
    forall c | c in e.byCode ensures s.records[e.byCode[c]].sessionId !in DeadSessions(s, now) {}
    forall k | k in e.bySession ensures !Expired(s, e.bySession[k], now) {}
  }

  lemma ClaimAgrees(s: State, code: string, now: int, mobileKey: Result<string>)
    requires s.Valid() && Agree(s)
    ensures ClaimPairing(s, code, now, mobileKey).state.Valid() && Agree(ClaimPairing(s, code, now, mobileKey).state)
  {
    hide NormalizeCode;
  }

  /** The tokens are both unused, or lead to one and the same record, which the new one then replaces. */
  predicate Fits(s: State, code: string, session: string) {
    && (code in s.byCode <==> session in s.bySession)
    && (code in s.byCode && session in s.bySession ==> s.byCode[code] == s.bySession[session])
  }

  /** Adding a record keeps the maps in agreement exactly when its tokens fit. */
  lemma AddedAgrees(s: State, code: string, session: string, pcKey: string, now: int)
    requires s.Valid() && Agree(s)
    ensures Added(s, code, session, pcKey, now).Valid()
    ensures Agree(Added(s, code, session, pcKey, now)) <==> Fits(s, Upper(code), session)
  {
    hide Upper;
    if Fits(s, Upper(code), session) {
      FittingAgrees(s, code, session, pcKey, now);
    } else {
      MisfitDisagrees(s, code, session, pcKey, now);
    }
  }

  lemma FittingAgrees(s: State, code: string, session: string, pcKey: string, now: int)
    requires s.Valid() && Agree(s) && Fits(s, Upper(code), session)
    ensures Added(s, code, session, pcKey, now).Valid() && Agree(Added(s, code, session, pcKey, now))
  {
    hide Upper;
  }

  lemma MisfitDisagrees(s: State, code: string, session: string, pcKey: string, now: int)
    requires s.Valid() && Agree(s) && !Fits(s, Upper(code), session)
    ensures Added(s, code, session, pcKey, now).Valid() && !Agree(Added(s, code, session, pcKey, now))
  {
    hide Upper;
    var n, up := Added(s, code, session, pcKey, now), Upper(code);
    if up in s.byCode && !(session in s.bySession && s.bySession[session] == s.byCode[up]) {
      var k := s.records[s.byCode[up]].sessionId;
      assert k in n.bySession && n.byCode[n.records[n.bySession[k]].code] != n.bySession[k];
    }
    if session in s.bySession && !(up in s.byCode && s.byCode[up] == s.bySession[session]) {
      var c := s.records[s.bySession[session]].code;
      assert c in n.byCode && n.bySession[n.records[n.byCode[c]].sessionId] != n.byCode[c];
    }
  }

  // ----- runs -----

  datatype Op =
    | Create(evictAt: int, tokens: Tokens, now: int)
    | Claim(code: string, now: int, mobileKey: Result<string>)
  {
    function Starts(): int { if Create? then evictAt else now }
  }

  ghost function Step(s: State, op: Op): (o: Outcome)
    requires s.Valid()
    ensures o.state.Valid()
  {
    match op
    case Create(evictAt, tokens, now) => CreatePairing(s, evictAt, tokens, now)
    case Claim(code, now, mobileKey) => ClaimPairing(s, code, now, mobileKey)
  }

  ghost function Run(ttl: int, ops: seq<Op>): (s: State)
    ensures s.Valid()
  {
    if ops == [] then New(ttl) else Step(Run(ttl, ops[..|ops| - 1]), ops[|ops| - 1]).state
  }

  /** A pairing's names, keys and expiry never change, and a claim is never undone. */
  ghost predicate Kept(s: State, t: State) {
    |s.records| <= |t.records| &&
    forall id :: 0 <= id < |s.records| ==>
      var p, q := s.records[id], t.records[id];
      && q.code == p.code && q.sessionId == p.sessionId && q.pcKey == p.pcKey && q.expiresAt == p.expiresAt
      && (p.claimed ==> q == p)
  }

  lemma StepKeeps(s: State, op: Op)
    requires s.Valid()
    ensures Kept(s, Step(s, op).state)
  {
    hide NormalizeCode, Upper, DeadSessions;
  }

  lemma {:induction false} RunKeeps(ttl: int, ops: seq<Op>, n: nat)
    requires n <= |ops|
    ensures Kept(Run(ttl, ops[..n]), Run(ttl, ops))
    decreases |ops|
  {
    hide Step;
    if n == |ops| {
      assert ops[..n] == ops;
    } else {
      var before := ops[..|ops| - 1];
      assert before[..n] == ops[..n];
      RunKeeps(ttl, before, n);
      StepKeeps(Run(ttl, before), ops[|ops| - 1]);
    }
  }

  // ----- claimed once -----

  /** The record a successful claim hands out. */
  ghost function ClaimedBy(s: State, op: Op): Option<nat>
    requires s.Valid()
  {
    if op.Claim? && Step(s, op).result.Ok? then Some(s.byCode[NormalizeCode(op.code)]) else None
  }

  ghost function Claims(ttl: int, ops: seq<Op>, id: nat): nat {
    if ops == [] then 0
    else
      var before := ops[..|ops| - 1];
      Claims(ttl, before, id) + if ClaimedBy(Run(ttl, before), ops[|ops| - 1]) == Some(id) then 1 else 0
  }

  predicate IsClaimed(s: State, id: nat) { id < |s.records| && s.records[id].claimed }

  lemma StepClaims(s: State, op: Op, id: nat)
    requires s.Valid()
    ensures ClaimedBy(s, op) == Some(id) ==> !IsClaimed(s, id)
    ensures IsClaimed(Step(s, op).state, id) <==> IsClaimed(s, id) || ClaimedBy(s, op) == Some(id)
  {
    hide NormalizeCode, Upper, DeadSessions;
  }

  /** Whatever the tokens and the clock, a pairing is handed out at most once, and it is marked exactly then. */
  lemma {:induction false} ClaimedOnce(ttl: int, ops: seq<Op>, id: nat)
    ensures Claims(ttl, ops, id) == if IsClaimed(Run(ttl, ops), id) then 1 else 0
  {
    hide Step, ClaimedBy;
    if ops != [] {
      var before := ops[..|ops| - 1];
      ClaimedOnce(ttl, before, id);
      StepClaims(Run(ttl, before), ops[|ops| - 1], id);
    }
  }

  // ----- fresh tokens and a monotone clock -----

  /** The tokens, if they are drawn at all, lead to nothing yet. */
  ghost predicate Fresh(s: State, op: Op)
    requires s.Valid()
  {
    op.Create? && op.tokens.code.Ok? && op.tokens.session.Ok? ==>
      var e := Evict(s, op.evictAt);
      Upper(op.tokens.code.value) !in e.byCode && op.tokens.session.value !in e.bySession
  }

  ghost predicate FreshTokens(ttl: int, ops: seq<Op>) {
    forall i :: 0 <= i < |ops| ==> Fresh(Run(ttl, ops[..i]), ops[i])
  }

  predicate Monotone(ops: seq<Op>) {
    && (forall i :: 0 <= i < |ops| ==> ops[i].Starts() <= ops[i].now)
    && (forall i, j :: 0 <= i < j < |ops| ==> ops[i].now <= ops[j].Starts())
  }

  lemma StepAgrees(s: State, op: Op)
    requires s.Valid() && Agree(s) && Fresh(s, op)
    ensures Agree(Step(s, op).state)
  {
    hide Agree, Upper, NormalizeCode, Evict, Added;
    match op
    case Create(evictAt, tokens, now) =>
      EvictAgrees(s, evictAt);
      if tokens.code.Ok? && tokens.session.Ok? && tokens.pcKey.Ok? {
        AddedAgrees(Evict(s, evictAt), tokens.code.value, tokens.session.value, tokens.pcKey.value, now);
      }
    case Claim(code, now, mobileKey) => ClaimAgrees(s, code, now, mobileKey);
  }

  lemma {:induction false} RunAgrees(ttl: int, ops: seq<Op>)
    requires FreshTokens(ttl, ops)
    ensures Agree(Run(ttl, ops))
  {
    hide Step, Fresh;
    if ops != [] {
      var before := ops[..|ops| - 1];
      assert forall i :: 0 <= i < |before| ==> before[..i] == ops[..i];
      RunAgrees(ttl, before);
      StepAgrees(Run(ttl, before), ops[|ops| - 1]);
    }
  }

  /** Every record that has not expired hangs in both maps. */
  ghost predicate Hanging(s: State, now: int)
    requires s.Valid()
  {
    forall id :: 0 <= id < |s.records| && now <= s.records[id].expiresAt ==>
      var p := s.records[id];
      && p.code in s.byCode && s.byCode[p.code] == id && p.sessionId in s.bySession && s.bySession[p.sessionId] == id
  }

  lemma EvictHangs(s: State, before: int, now: int)
    requires s.Valid() && Agree(s) && Hanging(s, before) && before <= now
    ensures Hanging(Evict(s, now), now)
  {
  }

  lemma AddedHangs(s: State, code: string, session: string, pcKey: string, before: int, now: int)
    requires s.Valid() && Hanging(s, before) && before <= now && Upper(code) !in s.byCode && session !in s.bySession
    ensures Added(s, code, session, pcKey, now).Valid() && Hanging(Added(s, code, session, pcKey, now), now)
  {
    hide Upper;
  }

  lemma ClaimHangs(s: State, before: int, code: string, now: int, mobileKey: Result<string>)
    requires s.Valid() && Agree(s) && Hanging(s, before) && before <= now
    ensures Hanging(Step(s, Claim(code, now, mobileKey)).state, now)
  {
    hide NormalizeCode;
  }

  lemma StepHangs(s: State, before: int, op: Op)
    requires s.Valid() && Agree(s) && Hanging(s, before) && Fresh(s, op) && before <= op.Starts() <= op.now
    ensures Hanging(Step(s, op).state, op.now)
  {
    hide Agree, Upper, NormalizeCode, Evict, Added, ClaimPairing;
    match op
    case Create(evictAt, tokens, now) =>
      EvictAgrees(s, evictAt);
      EvictHangs(s, before, evictAt);
      if tokens.code.Ok? && tokens.session.Ok? && tokens.pcKey.Ok? {
        AddedHangs(Evict(s, evictAt), tokens.code.value, tokens.session.value, tokens.pcKey.value, evictAt, now);
      }
    case Claim(code, now, mobileKey) => ClaimHangs(s, before, code, now, mobileKey);
  }

  lemma HangingLater(s: State, before: int, now: int)
    requires s.Valid() && Hanging(s, before) && before <= now
    ensures Hanging(s, now)
  {
  }

  lemma PrefixOk(ttl: int, ops: seq<Op>)
    requires FreshTokens(ttl, ops) && Monotone(ops) && ops != []
    ensures
      var before, last := ops[..|ops| - 1], ops[|ops| - 1];
      && FreshTokens(ttl, before) && Monotone(before) && Fresh(Run(ttl, before), last)
      && last.Starts() <= last.now && (before != [] ==> before[|before| - 1].now <= last.Starts())
  {
    hide Run, Fresh;
    var before := ops[..|ops| - 1];
    assert forall i :: 0 <= i < |before| ==> before[..i] == ops[..i];
  }

  lemma {:induction false} RunHangs(ttl: int, ops: seq<Op>, now: int)
    requires FreshTokens(ttl, ops) && Monotone(ops) && (ops != [] ==> ops[|ops| - 1].now <= now)
    ensures Hanging(Run(ttl, ops), now)
  {
    hide Step, Fresh, Agree, FreshTokens, Monotone;
    if ops != [] {
      hide Hanging;
      var before, last := ops[..|ops| - 1], ops[|ops| - 1];
      PrefixOk(ttl, ops);
      RunAgrees(ttl, before);
      RunHangs(ttl, before, last.Starts());
      StepHangs(Run(ttl, before), last.Starts(), last);
      HangingLater(Run(ttl, ops), last.now, now);
    }
  }

  lemma {:induction false} UnclaimedHasNoKey(ttl: int, ops: seq<Op>, id: nat)
    requires id < |Run(ttl, ops).records| && !Run(ttl, ops).records[id].claimed
    ensures Run(ttl, ops).records[id].mobileKey == ""
  {
    hide NormalizeCode, Upper, DeadSessions;
    var before, last := ops[..|ops| - 1], ops[|ops| - 1];
    var s := Run(ttl, before);
    StepKeeps(s, last);
    if id < |s.records| {
      UnclaimedHasNoKey(ttl, before, id);
    }
  }

  /**
   With fresh tokens and a monotone clock, a pairing works until it expires, whatever happens to the others: its
   PC key opens its session; its code can be claimed exactly if it was not claimed before; the mobile key works
   once it was claimed, and before that no other non-empty key does.
   */
  lemma WorksUntilExpired(ttl: int, ops: seq<Op>, id: nat, now: int, code: string, mobileKey: string)
    requires FreshTokens(ttl, ops) && Monotone(ops) && (ops != [] ==> ops[|ops| - 1].now <= now)
    requires id < |Run(ttl, ops).records| && now <= Run(ttl, ops).records[id].expiresAt
    requires NormalizeCode(code) == Run(ttl, ops).records[id].code
    ensures
      var s := Run(ttl, ops);
      var p := s.records[id];
      && ValidateSessionKey(s, p.sessionId, p.pcKey, now) == Some(RolePC)
      && (ClaimPairing(s, code, now, Ok(mobileKey)).result.Ok? <==> !p.claimed)
      && (p.claimed && p.mobileKey != p.pcKey ==>
            ValidateSessionKey(s, p.sessionId, p.mobileKey, now) == Some(RoleMobile))
      && (!p.claimed ==> forall k :: k != "" && k != p.pcKey ==> ValidateSessionKey(s, p.sessionId, k, now) == None)
  {
    hide Run, NormalizeCode;
    RunHangs(ttl, ops, now);
    if !Run(ttl, ops).records[id].claimed { UnclaimedHasNoKey(ttl, ops, id); }
  }

  /** Once the clock has passed its expiry, a pairing is never handed out again and opens no session. */
  lemma ExpiredForGood(ttl: int, ops: seq<Op>, i: nat, j: nat, id: nat, now: int, key: string)
    requires Monotone(ops) && i <= j < |ops| && Expired(Run(ttl, ops[..i]), id, ops[i].Starts()) && ops[j].now <= now
    ensures ClaimedBy(Run(ttl, ops[..j]), ops[j]) != Some(id)
    ensures
      var s := Run(ttl, ops[..j + 1]);
      forall k :: k in s.bySession && s.bySession[k] == id ==> ValidateSessionKey(s, k, key, now) == None
  {
    hide Run, NormalizeCode, Upper, DeadSessions;
    assert ops[..j][..i] == ops[..i] && ops[..j + 1][..i] == ops[..i];
    RunKeeps(ttl, ops[..j], i);
    RunKeeps(ttl, ops[..j + 1], i);
    assert ops[i].Starts() <= ops[j].now;
  }
}
