/** The relay session: the queues and drop counters of all peers, changed in place. */
module RelaySession {
  import opened Common
  import opened Protocol
  import opened Relay

  /** What a registration put in its queue, which lines were routed to it, and lost marks from elsewhere. */
  datatype Log = Log(put: seq<Envelope>, terms: seq<Envelope>, extra: nat)

  function Routed(p: PeerState, size: nat, e: Envelope, now: int, drained: bool): (PeerState, bool) {
    if e.kind == TERM then (RouteTerm(p, size, e, now), true) else RouteControl(p, size, e, drained)
  }

  ghost predicate AllOk(views: map<string, PeerState>, size: nat) {
    forall p :: p in views ==> PeerOk(views[p], size)
  }

  lemma AllOkPut(views: map<string, PeerState>, size: nat, p: string, v: PeerState)
    requires AllOk(views, size) && PeerOk(v, size)
    ensures AllOk(views[p := v], size)
  {
    hide PeerOk;
  }

  lemma AllOkAt(views: map<string, PeerState>, size: nat, p: string)
    requires AllOk(views, size) && p in views
    ensures PeerOk(views[p], size)
  {
    hide PeerOk;
  }

  lemma AllOkDrop(views: map<string, PeerState>, size: nat, p: string)
    requires AllOk(views, size)
    ensures AllOk(views - {p}, size)
  {
    hide PeerOk;
  }

  lemma RoutedOk(p: PeerState, size: nat, e: Envelope, now: int, drained: bool)
    requires PeerOk(p, size) && e.Valid() && now > 0
    ensures PeerOk(Routed(p, size, e, now, drained).0, size)
  {
    hide PeerOk, RouteTerm, RouteControl;
    if e.kind == TERM { TermOk(p, size, e, now); } else { ControlOk(p, size, e, drained); }
  }

  lemma RoutedFacts(p: PeerState, size: nat, e: Envelope, now: int, drained: bool)
    ensures var (q, ok) := Routed(p, size, e, now, drained); !ok ==> q == p && e.kind != TERM
  {
  }

  function CountOf(dropped: map<string, nat>, p: string): nat {
    if p in dropped then dropped[p] else 0
  }

  /** The registrations that the session's fields and the log describe. */
  ghost function ViewsOf(peers: map<string, seq<Envelope>>, dropped: map<string, nat>, log: map<string, Log>)
    : (views: map<string, PeerState>)
    requires log.Keys == peers.Keys
    ensures views.Keys == peers.Keys
  {
    map p | p in peers :: PeerState(peers[p], CountOf(dropped, p), log[p].put, log[p].terms, log[p].extra)
  }

  lemma ViewsPut(peers: map<string, seq<Envelope>>, dropped: map<string, nat>, log: map<string, Log>,
                 dropped': map<string, nat>, p: string, queue: seq<Envelope>, l: Log)
    requires log.Keys == peers.Keys && forall q :: q != p ==> CountOf(dropped', q) == CountOf(dropped, q)
    ensures ViewsOf(peers[p := queue], dropped', log[p := l])
         == ViewsOf(peers, dropped, log)[p := PeerState(queue, CountOf(dropped', p), l.put, l.terms, l.extra)]
  {
  }

  lemma ViewsDrop(peers: map<string, seq<Envelope>>, dropped: map<string, nat>, log: map<string, Log>, p: string)
    requires log.Keys == peers.Keys
    ensures ViewsOf(peers - {p}, dropped - {p}, log - {p}) == ViewsOf(peers, dropped, log) - {p}
  {
  }

  lemma ViewAt(peers: map<string, seq<Envelope>>, dropped: map<string, nat>, log: map<string, Log>, p: string)
    requires log.Keys == peers.Keys && p in peers
    ensures ViewsOf(peers, dropped, log)[p]
         == PeerState(peers[p], CountOf(dropped, p), log[p].put, log[p].terms, log[p].extra)
  {
  }

  function QueuedOrCounted(p: PeerState, size: nat, e: Envelope): PeerState {
    if |p.queue| < size then Enqueue(p, e) else p.(dropped := p.dropped + 1)
  }

  lemma RouteTermParts(p: PeerState, size: nat, e: Envelope, now: int)
    ensures var q := EmitSummary(p, size, e, now);
            RouteTerm(p, size, e, now) == QueuedOrCounted(q.(terms := q.terms + [e]), size, e)
  {
    SameCounters(p, size, e, now);
  }

  /** A queue that takes no more: full, and nobody takes anything from it in time. */
  predicate Stuck(queue: seq<Envelope>, size: nat, drained: bool) {
    |queue| >= size && (!drained || queue == [])
  }

  /** The queue with a control packet; a full one has given up its oldest entry to the reader. */
  function WithPacket(queue: seq<Envelope>, size: nat, e: Envelope): seq<Envelope> {
    if |queue| < size || queue == [] then queue + [e] else queue[1..] + [e]
  }

  lemma NotServedIsStuck(p: PeerState, size: nat, e: Envelope, now: int, drained: bool)
    ensures !Routed(p, size, e, now, drained).1 ==> Stuck(p.queue, size, drained) && e.kind != TERM
    ensures Stuck(p.queue, size, drained) && e.kind != TERM ==> !Routed(p, size, e, now, drained).1
  {
    hide RouteTerm, RouteControl;
    ControlFate(p, size, e, drained);
  }

  lemma ServedQueue(p: PeerState, size: nat, e: Envelope, now: int, drained: bool)
    requires e.kind != TERM && Routed(p, size, e, now, drained).1
    ensures Routed(p, size, e, now, drained).0.queue == WithPacket(p.queue, size, e)
  {
    hide RouteTerm, RouteControl;
    ControlFate(p, size, e, drained);
  }

  lemma QueuesOf(peers: map<string, seq<Envelope>>, dropped: map<string, nat>, log: map<string, Log>)
    requires log.Keys == peers.Keys
    ensures forall p :: p in peers ==> ViewsOf(peers, dropped, log)[p].queue == peers[p]
  {
  }

  class Session {
    const queueSize: nat
    var peers: map<string, seq<Envelope>>
    var droppedTerm: map<string, nat>
    ghost var log: map<string, Log>

    ghost predicate Consistent()
      reads this
    {
      log.Keys == peers.Keys && droppedTerm.Keys <= peers.Keys
    }

    /** Every live registration. */
    ghost function Views(): map<string, PeerState>
      requires Consistent()
      reads this
    {
      ViewsOf(peers, droppedTerm, log)
    }

    ghost predicate Valid()
      reads this
    {
      Consistent() && AllOk(Views(), queueSize)
    }

    constructor (size: nat)
      ensures Valid() && Views() == map[] && queueSize == size
    {
      queueSize := size;
      peers, droppedTerm, log := map[], map[], map[];
    }

    /** Register replaces the queue but keeps the drop counter of the name. */
    method Register(peer: string)
      requires Valid()
      modifies this
      ensures Valid()
      ensures Views() == old(Views())[peer := Registered(CountOf(old(droppedTerm), peer))]
    {
      hide PeerOk, AllOk, ViewsOf;
      ghost var carried := CountOf(droppedTerm, peer);
      RegisteredOk(carried, queueSize);
      AllOkPut(Views(), queueSize, peer, Registered(carried));
      ViewsPut(peers, droppedTerm, log, droppedTerm, peer, [], Log([], [], carried));
      peers := peers[peer := []];
      log := log[peer := Log([], [], carried)];
    }

    method Unregister(peer: string)
      requires Valid()
      modifies this
      ensures Valid() && Views() == old(Views()) - {peer}
    {
      hide PeerOk, AllOk, ViewsOf;
      AllOkDrop(Views(), queueSize, peer);
      ViewsDrop(peers, droppedTerm, log, peer);
      if peer in peers {
        peers, droppedTerm, log := peers - {peer}, droppedTerm - {peer}, log - {peer};
      } else {
        assert Views() == Views() - {peer};
      }
    }

    /** The reader of a peer's queue takes the oldest envelope. */
    method Take(peer: string) returns (e: Option<Envelope>)
      requires Valid() && peer in peers
      modifies this
      ensures Valid() && Views() == old(Views())[peer := Receive(old(Views())[peer])]
      ensures e == if old(peers)[peer] == [] then None else Some(old(peers)[peer][0])
    {
      hide PeerOk, AllOk, ViewsOf;
      ghost var p := Views()[peer];
      AllOkAt(Views(), queueSize, peer);
      ViewAt(peers, droppedTerm, log, peer);
      ReceiveOk(p, queueSize);
      AllOkPut(Views(), queueSize, peer, Receive(p));
      e := None;
      var rest := peers[peer];
      if rest != [] {
        e, rest := Some(rest[0]), rest[1..];
      }
      ViewsPut(peers, droppedTerm, log, droppedTerm, peer, rest, log[peer]);
      assert log[peer := log[peer]] == log;
      peers := peers[peer := rest];
    }

    /** Puts an envelope in a queue that has room, and notes it. */
    method Put(target: string, e: Envelope, ghost extra: nat)
      requires Consistent() && target in peers
      modifies this`peers, this`log
      ensures Consistent() && peers.Keys == old(peers.Keys)
      ensures peers[target] == old(peers[target]) + [e] && log[target].terms == old(log[target].terms)
      ensures Views() == old(Views())[target := Enqueue(old(Views())[target], e).(extra := extra)]
    {
      hide ViewsOf;
      var queue := peers[target] + [e];
      ghost var l := log[target].(put := log[target].put + [e], extra := extra);
      ViewAt(peers, droppedTerm, log, target);
      ViewsPut(peers, droppedTerm, log, droppedTerm, target, queue, l);
      peers := peers[target := queue];
      log := log[target := l];
    }

    method SetCounter(target: string, n: nat)
      requires Consistent() && target in peers
      modifies this`droppedTerm
      ensures Consistent()
      ensures Views() == old(Views())[target := old(Views())[target].(dropped := n)]
    {
      hide ViewsOf;
      ViewAt(peers, droppedTerm, log, target);
      ViewsPut(peers, droppedTerm, log, droppedTerm[target := n], target, peers[target], log[target]);
      assert peers[target := peers[target]] == peers && log[target := log[target]] == log;
      droppedTerm := droppedTerm[target := n];
    }

    ghost method NoteTerm(target: string, e: Envelope)
      requires Consistent() && target in peers
      modifies this`log
      ensures Consistent()
      ensures Views() == old(Views())[target := old(Views())[target].(terms := old(Views())[target].terms + [e])]
    {
      hide ViewsOf;
      var l := log[target].(terms := log[target].terms + [e]);
      ViewAt(peers, droppedTerm, log, target);
      ViewsPut(peers, droppedTerm, log, droppedTerm, target, peers[target], l);
      assert peers[target := peers[target]] == peers;
      log := log[target := l];
    }

    /** tryEmitTermSummary */
    method TryEmitTermSummary(target: string, e: Envelope, now: int)
      requires Consistent() && target in peers
      modifies this
      ensures Consistent() && peers.Keys == old(peers.Keys)
      ensures Views() == old(Views())[target := EmitSummary(old(Views())[target], queueSize, e, now)]
    {
      hide ViewsOf, MakeSummary;
      ViewAt(peers, droppedTerm, log, target);
      assert Views()[target := Views()[target]] == Views();
      var dropped := CountOf(droppedTerm, target);
      var summary := MakeSummary(e, dropped, now);
      if dropped > 0 && summary.Some? && |peers[target]| < queueSize {
        Put(target, summary.value, log[target].extra);
        SetCounter(target, 0);
      }
    }

    /** The line goes into the queue if there is room; otherwise it is counted as dropped. */
    method QueueOrCount(target: string, e: Envelope)
      requires Consistent() && target in peers
      modifies this
      ensures Consistent() && peers.Keys == old(peers.Keys)
      ensures Views() == old(Views())[target := QueuedOrCounted(old(Views())[target], queueSize, e)]
    {
      hide ViewsOf;
      ViewAt(peers, droppedTerm, log, target);
      if |peers[target]| < queueSize {
        Put(target, e, log[target].extra);
      } else {
        SetCounter(target, CountOf(droppedTerm, target) + 1);
      }
    }

    method RouteLine(target: string, e: Envelope, now: int)
      requires Consistent() && target in peers
      modifies this
      ensures Consistent() && peers.Keys == old(peers.Keys)
      ensures Views() == old(Views())[target := RouteTerm(old(Views())[target], queueSize, e, now)]
    {
      hide ViewsOf, EmitSummary, QueuedOrCounted, RouteTerm;
      RouteTermParts(Views()[target], queueSize, e, now);
      TryEmitTermSummary(target, e, now);
      NoteTerm(target, e);
      QueueOrCount(target, e);
    }

    /** A full queue makes room when its reader takes an envelope before the timeout. */
    method RoutePacket(target: string, e: Envelope, drained: bool) returns (ok: bool)
      requires Valid() && target in peers
      modifies this
      ensures Consistent() && peers.Keys == old(peers.Keys)
      ensures Views() == old(Views())[target := RouteControl(old(Views())[target], queueSize, e, drained).0]
      ensures ok == RouteControl(old(Views())[target], queueSize, e, drained).1
    {
      hide ViewsOf, Marks, AllOk, PeerOk;
      ViewAt(peers, droppedTerm, log, target);
      assert Views()[target := Views()[target]] == Views();
      if |peers[target]| < queueSize {
        Put(target, e, log[target].extra + Marks(e));
        ok := true;
      } else if drained && peers[target] != [] {
        var _ := Take(target);
        ViewAt(peers, droppedTerm, log, target);
        Put(target, e, log[target].extra + Marks(e));
        ok := true;
      } else {
        ok := false;
      }
    }

    /**
     routeToPeer as one action; `drained` says whether a full queue gets room before the timeout. A target that
     has left in the meantime is no error.
     */
    method RouteToPeer(target: string, e: Envelope, now: int, drained: bool) returns (ok: bool)
      requires Valid() && e.Valid() && now > 0
      modifies this
      ensures Valid() && peers.Keys == old(peers.Keys)
      ensures target !in old(peers) ==> ok && Views() == old(Views())
      ensures target in old(peers) ==>
                && Views() == old(Views())[target := Routed(old(Views())[target], queueSize, e, now, drained).0]
                && ok == Routed(old(Views())[target], queueSize, e, now, drained).1
    {
      hide PeerOk, AllOk, ViewsOf, RouteTerm, RouteControl;
      if target !in peers { return true; }
      ghost var p := Views()[target];
      AllOkAt(Views(), queueSize, target);
      RoutedOk(p, queueSize, e, now, drained);
      AllOkPut(Views(), queueSize, target, Routed(p, queueSize, e, now, drained).0);
      ok := true;
      if e.kind == TERM {
        RouteLine(target, e, now);
      } else {
        ok := RoutePacket(target, e, drained);
      }
    }

    /**
     The loop of Route: every other peer in an arbitrary order, stopping at the first control packet that times out.
     `done` are the peers served.
     */
    method RouteAll(from: string, e: Envelope, now: int, drains: set<string>)
      returns (ok: bool, ghost done: set<string>)
      requires Valid() && e.Valid() && now > 0
      modifies this
      ensures Valid() && done <= old(peers.Keys) - {from} && peers.Keys == old(peers.Keys)
      ensures Views() == AfterRoute(old(Views()), queueSize, e, now, drains, done)
      ensures forall p :: p in done ==> Routed(old(Views())[p], queueSize, e, now, p in drains).1
      ensures ok <==> done == old(peers.Keys) - {from}
      ensures !ok ==>
                exists p :: p in old(peers) && p != from && !Routed(old(Views())[p], queueSize, e, now, p in drains).1
    {
      hide PeerOk, AllOk, Routed, ViewsOf;
      var targets := peers.Keys - {from};
      ghost var start := Views();
      done := {};
      while targets != {}
        invariant Valid() && targets <= peers.Keys && peers.Keys == start.Keys
        invariant from !in targets && done == start.Keys - {from} - targets
        invariant Views() == AfterRoute(start, queueSize, e, now, drains, done)
        invariant forall p :: p in done ==> Routed(start[p], queueSize, e, now, p in drains).1
        decreases targets
      {
        var target :| target in targets;
        RoutedFacts(start[target], queueSize, e, now, target in drains);
        var served := RouteToPeer(target, e, now, target in drains);
        if !served {
          assert Views() == AfterRoute(start, queueSize, e, now, drains, done);
          return false, done;
        }
        targets, done := targets - {target}, done + {target};
      }
      ok := true;
    }

    /**
     Route: it fails exactly if a control packet meets a queue of another peer that takes no more. Otherwise every
     other peer has taken its routing step, so a control packet is the newest entry of each of their queues.
     */
    method Route(from: string, e: Envelope, now: int, drains: set<string>) returns (ok: bool, ghost done: set<string>)
      requires Valid() && e.Valid() && now > 0
      modifies this
      ensures Valid() && done <= old(peers.Keys) - {from} && peers.Keys == old(peers.Keys)
      ensures Views() == AfterRoute(old(Views()), queueSize, e, now, drains, done)
      ensures ok <==> done == old(peers.Keys) - {from}
      ensures ok <==>
                e.kind == TERM
                || forall p :: p in old(peers) && p != from ==> !Stuck(old(peers)[p], queueSize, p in drains)
      ensures ok && e.kind != TERM ==>
                forall p :: p in old(peers) && p != from ==> peers[p] == WithPacket(old(peers)[p], queueSize, e)
      ensures from in old(peers) ==> peers[from] == old(peers)[from]
    {
      hide PeerOk, AllOk, Routed, ViewsOf, Stuck, WithPacket;
      ghost var was := Views();
      QueuesOf(peers, droppedTerm, log);
      ok, done := RouteAll(from, e, now, drains);
      QueuesOf(peers, droppedTerm, log);
      forall p | p in was
        ensures !Routed(was[p], queueSize, e, now, p in drains).1 <==>
                  e.kind != TERM && Stuck(was[p].queue, queueSize, p in drains)
        ensures e.kind != TERM && Routed(was[p], queueSize, e, now, p in drains).1 ==>
                  Routed(was[p], queueSize, e, now, p in drains).0.queue == WithPacket(was[p].queue, queueSize, e)
      {
        NotServedIsStuck(was[p], queueSize, e, now, p in drains);
        if e.kind != TERM && Routed(was[p], queueSize, e, now, p in drains).1 {
          ServedQueue(was[p], queueSize, e, now, p in drains);
        }
      }
    }
  }

  /** The registrations after an envelope reached the peers in `done`. */
  ghost function AfterRoute(views: map<string, PeerState>, size: nat, e: Envelope, now: int, drains: set<string>,
                            done: set<string>): map<string, PeerState>
  {
    map p | p in views :: if p in done then Routed(views[p], size, e, now, p in drains).0 else views[p]
  }

  /** A control packet that was served is in the peer's queue. */
  lemma ServedIsQueued(p: PeerState, size: nat, e: Envelope, now: int, drained: bool)
    requires e.kind != TERM && Routed(p, size, e, now, drained).1
    ensures var q := Routed(p, size, e, now, drained).0; q.queue != [] && q.queue[|q.queue| - 1] == e
  {
  }
}
