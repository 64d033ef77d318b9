/** The pairing store as it is kept: two maps that share mutable records. */
module PairingService {
  import opened Common
  import opened Text
  import opened PairingStore

  class Record {
    /** Which record this is, counting from the first ever made. */
    ghost const id: nat
    const code: string
    const sessionId: string
    const pcKey: string
    const createdAt: int
    const expiresAt: int
    var mobileKey: string
    var claimed: bool

    constructor (ghost id: nat, code: string, sessionId: string, pcKey: string, now: int, ttl: int)
      ensures this.id == id && Model() == Pairing(code, sessionId, pcKey, "", now, now + ttl, false)
    {
      this.id := id;
      this.code, this.sessionId, this.pcKey := code, sessionId, pcKey;
      createdAt, expiresAt, mobileKey, claimed := now, now + ttl, "", false;
    }

    function Model(): Pairing
      reads this
    {
      Pairing(code, sessionId, pcKey, mobileKey, createdAt, expiresAt, claimed)
    }
  }

  ghost function Ids(m: map<string, Record>): map<string, nat> {
    map k | k in m :: m[k].id
  }

  lemma IdsPut(m: map<string, Record>, k: string, p: Record)
    ensures Ids(m[k := p]) == Ids(m)[k := p.id]
  {
  }

  lemma IdsDrop(m: map<string, Record>, gone: set<string>)
    ensures Ids(m - gone) == Ids(m) - gone
  {
  }

  /** The records as they stand, in the order in which they were made. */
  ghost predicate Filed(all: seq<Record>, m: map<string, Record>) {
    forall k :: k in m ==> m[k].id < |all| && all[m[k].id] == m[k]
  }

  function Alive(m: map<string, Record>, now: int): map<string, Record> {
    map c | c in m && now <= m[c].expiresAt :: m[c]
  }

  function Dead(m: map<string, Record>, now: int): set<string> {
    set c | c in m && now > m[c].expiresAt :: m[c].sessionId
  }

  /** What the loop leaves is what the specification evicts. */
  lemma EvictMatches(s: State, all: seq<Record>, byCode: map<string, Record>, bySession: map<string, Record>, now: int)
    requires s.byCode == Ids(byCode) && s.bySession == Ids(bySession) && s.Valid() && Filed(all, byCode)
    requires |s.records| == |all|
    requires forall i :: 0 <= i < |all| ==>
               s.records[i].sessionId == all[i].sessionId && s.records[i].expiresAt == all[i].expiresAt
    ensures Evict(s, now) == s.(byCode := Ids(Alive(byCode, now)), bySession := Ids(bySession - Dead(byCode, now)))
  {
    IdsDrop(bySession, Dead(byCode, now));
    forall c | c in byCode
      ensures Expired(s, s.byCode[c], now) <==> now > byCode[c].expiresAt
      ensures s.records[s.byCode[c]].sessionId == byCode[c].sessionId
    {
    }
    assert DeadSessions(s, now) == Dead(byCode, now);
    assert Evict(s, now).byCode == Ids(Alive(byCode, now));
  }

  class Store {
    const ttl: int
    var byCode: map<string, Record>
    var bySession: map<string, Record>

    /** Every record ever made; a record's ID is its place. */
    ghost var all: seq<Record>

    ghost predicate Valid()
      reads this
    {
      (forall i :: 0 <= i < |all| ==> all[i].id == i) && Filed(all, byCode) && Filed(all, bySession)
    }

    ghost function Records(): (r: seq<Pairing>)
      reads this, all
      ensures |r| == |all| && forall i :: 0 <= i < |all| ==> r[i] == all[i].Model()
    {
      seq(|all|, i requires 0 <= i < |all| reads this, all => all[i].Model())
    }

    ghost function Model(): (s: State)
      requires Valid()
      reads this, all
      ensures s.Valid()
    {
      State(ttl, Records(), Ids(byCode), Ids(bySession))
    }

    constructor (ttl: int)
      ensures Valid() && Model() == New(ttl)
    {
      this.ttl := ttl;
      byCode, bySession, all := map[], map[], [];
    }

    /** evictExpiredLocked: the codes are met in an arbitrary order. */
    method EvictExpired(now: int)
      requires Valid()
      modifies this
      ensures Valid() && all == old(all) && Model() == Evict(old(Model()), now)
    {
      hide Evict, Ids;
      EvictMatches(Model(), all, byCode, bySession, now);
      WalkExpired(now);
    }

    method WalkExpired(now: int)
      modifies this
      ensures all == old(all) && byCode == Alive(old(byCode), now)
              && bySession == old(bySession) - Dead(old(byCode), now)
    {
      var todo := byCode.Keys;
      ghost var dead: set<string> := {};
      while todo != {}
        invariant all == old(all) && todo <= byCode.Keys <= old(byCode).Keys
        invariant forall c :: c in byCode ==> byCode[c] == old(byCode)[c]
        invariant forall c :: c in old(byCode) && c !in todo ==> (c in byCode <==> now <= old(byCode)[c].expiresAt)
        invariant dead == set c | c in old(byCode) && c !in byCode :: old(byCode)[c].sessionId
        invariant bySession == old(bySession) - dead
        decreases todo
      {
        var c :| c in todo;
        var p := byCode[c];
        if now > p.expiresAt {
          byCode := byCode - {c};
          bySession := bySession - {p.sessionId};
          dead := dead + {p.sessionId};
        }
        todo := todo - {c};
      }
    }

    method CreatePairing(evictAt: int, t: Tokens, now: int) returns (r: Result<Pairing>)
      requires Valid()
      modifies this
      ensures Valid() && Outcome(Model(), r) == PairingStore.CreatePairing(old(Model()), evictAt, t, now)
    {
      hide Evict, Upper, Added;
      EvictExpired(evictAt);
      if t.code.Err? { return Err("generate pairing code: " + t.code.message); }
      if t.session.Err? { return Err("generate session id: " + t.session.message); }
      if t.pcKey.Err? { return Err("generate device key: " + t.pcKey.message); }
      r := Add(t.code.value, t.session.value, t.pcKey.value, now);
    }

    method Add(code: string, session: string, pcKey: string, now: int) returns (r: Result<Pairing>)
      requires Valid()
      modifies this
      ensures Valid() && Model() == Added(old(Model()), code, session, pcKey, now)
      ensures |Model().records| == |old(Model()).records| + 1 && r == Ok(Model().records[|old(Model()).records|])
    {
      hide Upper, Ids;
      var p := new Record(|all|, Upper(code), session, pcKey, now, ttl);
      IdsPut(byCode, p.code, p);
      IdsPut(bySession, session, p);
      byCode := byCode[p.code := p];
      bySession := bySession[p.sessionId := p];
      all := all + [p];
      assert Records() == old(Records()) + [p.Model()];
      r := Ok(p.Model());
    }

    method ClaimPairing(code: string, now: int, mobileKey: Result<string>) returns (r: Result<Pairing>)
      requires Valid()
      modifies this, all
      ensures Valid() && all == old(all)
              && Outcome(Model(), r) == PairingStore.ClaimPairing(old(Model()), code, now, mobileKey)
    {
      hide NormalizeCode, Marked, Dropped;
      var key := NormalizeCode(code);
      if key !in byCode { return Err("pairing not found"); }
      var p := byCode[key];
      if now > p.expiresAt {
        Drop(key, p.sessionId);
        return Err("pairing expired");
      }
      if p.claimed { return Err("pairing already claimed"); }
      if mobileKey.Err? { return Err("generate mobile key: " + mobileKey.message); }
      Mark(p, mobileKey.value);
      r := Ok(p.Model());
    }

    method Drop(code: string, session: string)
      requires Valid()
      modifies this
      ensures Valid() && all == old(all) && Model() == Dropped(old(Model()), code, session)
    {
      hide Ids;
      IdsDrop(byCode, {code});
      IdsDrop(bySession, {session});
      byCode := byCode - {code};
      bySession := bySession - {session};
    }

    /** The record changes under both of its names. */
    method Mark(p: Record, mobileKey: string)
      requires Valid() && p in all
      modifies p
      ensures Valid() && Model() == Marked(old(Model()), p.id, mobileKey)
    {
      hide Ids;
      p.mobileKey := mobileKey;
      p.claimed := true;
      assert Records() == Marked(old(Model()), p.id, mobileKey).records;
    }

    method ValidateSessionKey(sessionId: string, deviceKey: string, now: int) returns (role: Option<Role>)
      requires Valid()
      ensures role == PairingStore.ValidateSessionKey(Model(), sessionId, deviceKey, now)
    {
      if sessionId !in bySession { return None; }
      var p := bySession[sessionId];
      if now > p.expiresAt { return None; }
      if deviceKey == p.pcKey { return Some(RolePC); }
      if deviceKey == p.mobileKey { return Some(RoleMobile); }
      return None;
    }
  }
}
