/**
 Signaling rooms: at most one connection per role, and a bounded backlog for a role that is absent.

 The same steps are taken with and without the bound of 128, so that the bounded server can be compared
 with one that forgets nothing. Connections are named by numbers.
 */
module SignalingRooms {
  import opened Common
  import opened Protocol

  const OFFER := "SIGNAL_OFFER"
  const ANSWER := "SIGNAL_ANSWER"
  const ICE := "SIGNAL_ICE"
  const MAX_PENDING: nat := 128

  datatype Role = PC | Mobile

  function Other(role: Role): Role { if role == PC then Mobile else PC }

  // ----- validation -----

  /** validateSignalType */
  function ValidateSignalType(role: Role, kind: string): Result<()> {
    match role
    case PC =>
      if kind == OFFER || kind == ICE then Ok(())
      else if kind == ANSWER then Err("pc cannot send SIGNAL_ANSWER")
      else Err("pc cannot send message type: " + kind)
    case Mobile =>
      if kind == ANSWER || kind == ICE then Ok(())
      else if kind == OFFER then Err("mobile cannot send SIGNAL_OFFER")
      else Err("mobile cannot send message type: " + kind)
  }

  function RequireMember(e: Envelope, name: string, undecodable: string, missing: string): Result<()> {
    if !e.payload.Members? then Err(undecodable)
    else if TextMember(e.payload, name) == "" then Err(missing)
    else Ok(())
  }

  /** validateSignalEnvelope */
  function ValidateSignalEnvelope(sid: string, role: Role, e: Envelope): Result<()> {
    if e.sid != sid then Err("sid mismatch: expected " + sid)
    else if ValidateSignalType(role, e.kind).Err? then ValidateSignalType(role, e.kind)
    else if e.kind == OFFER then RequireMember(e, "sdp", "invalid SIGNAL_OFFER payload", "offer sdp is required")
    else if e.kind == ANSWER then RequireMember(e, "sdp", "invalid SIGNAL_ANSWER payload", "answer sdp is required")
    else if e.kind == ICE then RequireMember(e, "candidate", "invalid SIGNAL_ICE payload", "ice candidate is required")
    else Err("unsupported signaling message type: " + e.kind)
  }

  /** The direction rules: offers come from the PC, answers from the phone, candidates from both. */
  predicate MaySend(role: Role, kind: string) {
    kind == ICE || (role == PC && kind == OFFER) || (role == Mobile && kind == ANSWER)
  }

  /** An envelope passes exactly when it belongs to the room, its direction is allowed and its member is there. */
  lemma DirectionRules(sid: string, role: Role, e: Envelope)
    ensures ValidateSignalEnvelope(sid, role, e).Ok? <==>
              e.sid == sid && MaySend(role, e.kind) && e.payload.Members?
              && TextMember(e.payload, if e.kind == ICE then "candidate" else "sdp") != ""
  {
    assert OFFER[7] != ANSWER[7] && OFFER[7] != ICE[7] && ANSWER[7] != ICE[7];
  }

  // ----- rooms -----

  datatype Room = Room(pc: Option<nat>, mobile: Option<nat>, forPC: seq<Envelope>, forMobile: seq<Envelope>)

  const EMPTY_ROOM := Room(None, None, [], [])

  type Rooms = map<string, Room>

  function ConnOf(rm: Room, role: Role): Option<nat> { if role == PC then rm.pc else rm.mobile }

  function PendingFor(rm: Room, role: Role): seq<Envelope> { if role == PC then rm.forPC else rm.forMobile }

  function SetConn(rm: Room, role: Role, conn: Option<nat>): Room {
    if role == PC then rm.(pc := conn) else rm.(mobile := conn)
  }

  function SetPending(rm: Room, role: Role, queue: seq<Envelope>): Room {
    if role == PC then rm.(forPC := queue) else rm.(forMobile := queue)
  }

  /** appendPending, or a plain append when nothing bounds the backlog. */
  function AppendPending(queue: seq<Envelope>, e: Envelope, bounded: bool): seq<Envelope> {
    (if bounded && |queue| >= MAX_PENDING then queue[1..] else queue) + [e]
  }

  function RoomAt(rooms: Rooms, sid: string): Room {
    if sid in rooms then rooms[sid] else EMPTY_ROOM
  }

  function Attach(rooms: Rooms, sid: string, role: Role, conn: nat): Rooms {
    rooms[sid := SetPending(SetConn(RoomAt(rooms, sid), role, Some(conn)), role, [])]
  }

  /** The backlog attachConn hands to the new connection. */
  function Handed(rooms: Rooms, sid: string, role: Role): seq<Envelope> {
    PendingFor(RoomAt(rooms, sid), role)
  }

  function Detach(rooms: Rooms, sid: string, role: Role, conn: nat): Rooms {
    if sid !in rooms then rooms
    else
      var rm := if ConnOf(rooms[sid], role) == Some(conn) then SetConn(rooms[sid], role, None) else rooms[sid];
      if rm.pc.None? && rm.mobile.None? then rooms - {sid} else rooms[sid := rm]
  }

  /** forwardOrQueue: queued when the other side is absent; otherwise written to it outside the lock. */
  function Forward(rooms: Rooms, sid: string, role: Role, e: Envelope, bounded: bool): Rooms {
    if sid !in rooms || ConnOf(rooms[sid], Other(role)).Some? then rooms
    else
      var rm := rooms[sid];
      rooms[sid := SetPending(rm, Other(role), AppendPending(PendingFor(rm, Other(role)), e, bounded))]
  }

  /** One turn of readLoop: reject or pass on. */
  function Read(rooms: Rooms, sid: string, role: Role, e: Envelope, bounded: bool): Rooms {
    if e.Valid() && ValidateSignalEnvelope(sid, role, e).Ok? then Forward(rooms, sid, role, e, bounded) else rooms
  }

  /** What the text of a failed write's error is does not matter here. */
  const WRITE_FAILED := "write failed"

  /** The ack readLoop sends: whether the envelope was accepted, and why not. */
  function Answered(rooms: Rooms, sid: string, role: Role, e: Envelope, written: bool): (bool, string) {
    if !e.Valid() then (false, "invalid envelope")
    else match ValidateSignalEnvelope(sid, role, e)
      case Err(message) => (false, message)
      case Ok(_) =>
        if sid !in rooms then (false, "room " + sid + " not found")
        else if ConnOf(rooms[sid], Other(role)).Some? && !written then (false, WRITE_FAILED)
        else (true, "accepted")
  }

  /**
   A positive ack means that the message is not lost: it was written to the other side, or it is the newest one
   waiting for it. A message acked negatively is queued for nobody.
   */
  lemma AckTellsTheTruth(rooms: Rooms, sid: string, role: Role, e: Envelope, written: bool)
    ensures
      var next := Read(rooms, sid, role, e, true);
      if Answered(rooms, sid, role, e, written).0 then
        && sid in rooms
        && if ConnOf(rooms[sid], Other(role)).Some? then written && next == rooms
           else var queue := PendingFor(next[sid], Other(role)); queue != [] && queue[|queue| - 1] == e
      else next == rooms
  {
    hide ValidateSignalEnvelope;
  }

  datatype Op =
    | OpAttach(sid: string, role: Role, conn: nat)
    | OpDetach(sid: string, role: Role, conn: nat)
    | OpRead(sid: string, role: Role, e: Envelope)

  function Apply(rooms: Rooms, op: Op, bounded: bool): Rooms {
    match op
    case OpAttach(sid, role, conn) => Attach(rooms, sid, role, conn)
    case OpDetach(sid, role, conn) => Detach(rooms, sid, role, conn)
    case OpRead(sid, role, e) => Read(rooms, sid, role, e, bounded)
  }

  function Run(ops: seq<Op>, bounded: bool): Rooms {
    if ops == [] then map[] else Apply(Run(ops[..|ops| - 1], bounded), ops[|ops| - 1], bounded)
  }

  // ----- what every reachable room satisfies -----

  predicate BacklogOk(rm: Room, sid: string, role: Role) {
    && (PendingFor(rm, role) != [] ==> ConnOf(rm, role).None?)
    && forall e :: e in PendingFor(rm, role) ==> e.sid == sid && e.Valid() && MaySend(Other(role), e.kind)
  }

  predicate RoomOk(rm: Room, sid: string) {
    (rm.pc.Some? || rm.mobile.Some?) && BacklogOk(rm, sid, PC) && BacklogOk(rm, sid, Mobile)
  }

  ghost predicate RoomsOk(rooms: Rooms) {
    forall sid :: sid in rooms ==> RoomOk(rooms[sid], sid)
  }

  lemma ForwardOk(rm: Room, sid: string, role: Role, e: Envelope, bounded: bool)
    requires RoomOk(rm, sid) && ConnOf(rm, Other(role)).None? && e.sid == sid && e.Valid() && MaySend(role, e.kind)
    ensures RoomOk(SetPending(rm, Other(role), AppendPending(PendingFor(rm, Other(role)), e, bounded)), sid)
  {
    var queue := PendingFor(rm, Other(role));
    assert forall x :: x in AppendPending(queue, e, bounded) ==> x in queue || x == e;
  }

  lemma ApplyOk(rooms: Rooms, op: Op, bounded: bool)
    requires RoomsOk(rooms)
    ensures RoomsOk(Apply(rooms, op, bounded))
  {
    hide Read;
    match op
    case OpAttach(sid, role, conn) =>
    case OpDetach(sid, role, conn) =>
    case OpRead(sid, role, e) => ReadOk(rooms, sid, role, e, bounded);
  }

  lemma ReadOk(rooms: Rooms, sid: string, role: Role, e: Envelope, bounded: bool)
    requires RoomsOk(rooms)
    ensures RoomsOk(Read(rooms, sid, role, e, bounded))
  {
    hide ValidateSignalEnvelope, AppendPending, RoomOk;
    DirectionRules(sid, role, e);
    if sid in rooms {
      assert RoomOk(rooms[sid], sid);
      if ConnOf(rooms[sid], Other(role)).None? && e.Valid() && ValidateSignalEnvelope(sid, role, e).Ok? {
        ForwardOk(rooms[sid], sid, role, e, bounded);
      }
    }
  }

  lemma {:induction false} RunOk(ops: seq<Op>, bounded: bool)
    ensures RoomsOk(Run(ops, bounded))
  {
    if ops != [] {
      RunOk(ops[..|ops| - 1], bounded);
      ApplyOk(Run(ops[..|ops| - 1], bounded), ops[|ops| - 1], bounded);
    }
  }

  // ----- the bound keeps the newest 128 -----

  function Newest(queue: seq<Envelope>): seq<Envelope> {
    if |queue| <= 128 then queue else queue[|queue| - 128..]
  }

  function Trim(rm: Room): Room {
    rm.(forPC := Newest(rm.forPC), forMobile := Newest(rm.forMobile))
  }

  function TrimAll(rooms: Rooms): Rooms {
    map sid | sid in rooms :: Trim(rooms[sid])
  }

  lemma AppendNewest(queue: seq<Envelope>, e: Envelope)
    ensures AppendPending(Newest(queue), e, true) == Newest(queue + [e])
  {
  }

  lemma ReadTrims(rooms: Rooms, sid: string, role: Role, e: Envelope)
    ensures Read(TrimAll(rooms), sid, role, e, true) == TrimAll(Read(rooms, sid, role, e, false))
  {
    hide ValidateSignalEnvelope, Newest, AppendPending, Envelope.Valid;
    if sid in rooms {
      var queue := PendingFor(rooms[sid], Other(role));
      AppendNewest(queue, e);
      assert AppendPending(queue, e, false) == queue + [e] by { AppendAll(queue, e); }
    }
  }

  lemma AppendAll(queue: seq<Envelope>, e: Envelope)
    ensures AppendPending(queue, e, false) == queue + [e]
  {
  }

  lemma ApplyTrims(rooms: Rooms, op: Op)
    ensures Apply(TrimAll(rooms), op, true) == TrimAll(Apply(rooms, op, false))
  {
    hide Read;
    assert Newest([]) == [];
    hide Newest;
    match op
    case OpAttach(sid, role, conn) =>
    case OpDetach(sid, role, conn) =>
    case OpRead(sid, role, e) => ReadTrims(rooms, sid, role, e);
  }

  /** The bounded server is the unbounded one with every backlog cut to its newest 128 messages. */
  lemma {:induction false} BoundedIsTrimmed(ops: seq<Op>)
    ensures Run(ops, true) == TrimAll(Run(ops, false))
  {
    if ops != [] {
      BoundedIsTrimmed(ops[..|ops| - 1]);
      ApplyTrims(Run(ops[..|ops| - 1], false), ops[|ops| - 1]);
    }
  }

  /** The messages for `role` that the room accepts in a stretch of operations. */
  function Accepted(ops: seq<Op>, sid: string, role: Role): seq<Envelope> {
    if ops == [] then []
    else
      var before, op := Accepted(ops[..|ops| - 1], sid, role), ops[|ops| - 1];
      if op.OpRead? && op.sid == sid && op.role == Other(role) && op.e.Valid()
         && ValidateSignalEnvelope(sid, op.role, op.e).Ok?
      then before + [op.e] else before
  }

  /** The room exists and the role is absent from it. */
  predicate Absent(rooms: Rooms, sid: string, role: Role) {
    sid in rooms && ConnOf(rooms[sid], role).None?
  }

  /** Where the present absence of the role began: after the operation that made it absent. */
  function Since(ops: seq<Op>, sid: string, role: Role): (n: nat)
    ensures n <= |ops|
  {
    if ops == [] then 0
    else
      var before := ops[..|ops| - 1];
      if Absent(Run(before, true), sid, role) then Since(before, sid, role) else |ops|
  }

  lemma BacklogGrows(rooms: Rooms, op: Op, sid: string, role: Role)
    requires RoomsOk(rooms) && Absent(rooms, sid, role) && Absent(Apply(rooms, op, false), sid, role)
    ensures
      var queue := PendingFor(rooms[sid], role);
      PendingFor(Apply(rooms, op, false)[sid], role)
        == if op.OpRead? && op.sid == sid && op.role == Other(role) && op.e.Valid()
              && ValidateSignalEnvelope(sid, op.role, op.e).Ok?
           then queue + [op.e] else queue
  {
    hide ValidateSignalEnvelope;
  }

  /** A role that becomes absent, because it leaves or because the other one opens the room, has no backlog yet. */
  lemma AbsenceStartsEmpty(rooms: Rooms, op: Op, sid: string, role: Role)
    requires RoomsOk(rooms) && !Absent(rooms, sid, role) && Absent(Apply(rooms, op, false), sid, role)
    ensures PendingFor(Apply(rooms, op, false)[sid], role) == []
  {
    hide ValidateSignalEnvelope, AppendPending;
    if sid in rooms { assert RoomOk(rooms[sid], sid); }
  }

  lemma SameAbsence(ops: seq<Op>, sid: string, role: Role)
    ensures Absent(Run(ops, true), sid, role) == Absent(Run(ops, false), sid, role)
  {
    BoundedIsTrimmed(ops);
  }

  lemma AcceptedSnoc(ops: seq<Op>, n: nat, sid: string, role: Role)
    requires n < |ops|
    ensures
      var op, before := ops[|ops| - 1], Accepted(ops[..|ops| - 1][n..], sid, role);
      Accepted(ops[n..], sid, role) ==
        if op.OpRead? && op.sid == sid && op.role == Other(role) && op.e.Valid()
           && ValidateSignalEnvelope(sid, op.role, op.e).Ok?
        then before + [op.e] else before
  {
    hide ValidateSignalEnvelope;
    assert ops[n..][..|ops[n..]| - 1] == ops[..|ops| - 1][n..];
  }

  /** Without the bound, the backlog of an absent role is all that was accepted for it since it became absent. */
  lemma {:induction false} BacklogIsAccepted(ops: seq<Op>, sid: string, role: Role)
    requires Absent(Run(ops, false), sid, role)
    ensures PendingFor(Run(ops, false)[sid], role) == Accepted(ops[Since(ops, sid, role)..], sid, role)
  {
    hide Apply, ValidateSignalEnvelope, RoomsOk, Accepted;
    assert ops != [];
    var before, op := ops[..|ops| - 1], ops[|ops| - 1];
    RunOk(before, false);
    SameAbsence(before, sid, role);
    if Absent(Run(before, false), sid, role) {
      BacklogIsAccepted(before, sid, role);
      BacklogGrows(Run(before, false), op, sid, role);
      AcceptedSnoc(ops, Since(before, sid, role), sid, role);
    } else {
      AbsenceStartsEmpty(Run(before, false), op, sid, role);
      assert ops[|ops|..] == [];
      NothingAccepted(sid, role);
    }
  }

  lemma NothingAccepted(sid: string, role: Role)
    ensures Accepted([], sid, role) == []
  {
  }

  /**
   In every reachable state: what is waiting for an absent role, and what the connection that ends the absence
   is handed, are the newest 128 of the messages accepted for the role since it became absent, in order; for a
   role that is connected, or whose room does not exist, there is nothing.
   */
  lemma AttachHandsBacklog(ops: seq<Op>, sid: string, role: Role)
    ensures
      Handed(Run(ops, true), sid, role) ==
        if Absent(Run(ops, true), sid, role) then Newest(Accepted(ops[Since(ops, sid, role)..], sid, role)) else []
  {
    hide Accepted, Newest, RoomsOk;
    SameAbsence(ops, sid, role);
    if Absent(Run(ops, true), sid, role) {
      BoundedIsTrimmed(ops);
      BacklogIsAccepted(ops, sid, role);
    } else {
      RunOk(ops, true);
      NothingWaits(Run(ops, true), sid, role);
    }
  }

  lemma NothingWaits(rooms: Rooms, sid: string, role: Role)
    requires RoomsOk(rooms) && !Absent(rooms, sid, role)
    ensures Handed(rooms, sid, role) == []
  {
    if sid in rooms { assert RoomOk(rooms[sid], sid); }
  }

  /** A connection that has been replaced cannot take the slot of its successor away by leaving late. */
  lemma StaleDetach(ops: seq<Op>, bounded: bool, sid: string, role: Role, conn: nat)
    requires sid in Run(ops, bounded) && ConnOf(Run(ops, bounded)[sid], role) != Some(conn)
    ensures Run(ops + [OpDetach(sid, role, conn)], bounded) == Run(ops, bounded)
  {
    RunOk(ops, bounded);
    assert (ops + [OpDetach(sid, role, conn)])[..|ops|] == ops;
    assert Run(ops, bounded)[sid := Run(ops, bounded)[sid]] == Run(ops, bounded);
  }

  lemma LastOp(ops: seq<Op>, op: Op, bounded: bool)
    ensures Run(ops + [op], bounded) == Apply(Run(ops, bounded), op, bounded)
  {
    assert (ops + [op])[..|ops|] == ops;
  }

  /** The newest connection holds the slot, whoever held it before; the other side and the other rooms stay. */
  lemma AttachTakesSlot(ops: seq<Op>, bounded: bool, sid: string, role: Role, conn: nat)
    ensures
      var before, after := Run(ops, bounded), Run(ops + [OpAttach(sid, role, conn)], bounded);
      && sid in after && ConnOf(after[sid], role) == Some(conn) && PendingFor(after[sid], role) == []
      && ConnOf(after[sid], Other(role)) == ConnOf(RoomAt(before, sid), Other(role))
      && PendingFor(after[sid], Other(role)) == PendingFor(RoomAt(before, sid), Other(role))
      && forall other :: other != sid ==> RoomAt(after, other) == RoomAt(before, other)
  {
    hide Run;
    LastOp(ops, OpAttach(sid, role, conn), bounded);
  }

  /** A connection that holds its slot gives it up by leaving; with nobody left the room and its backlog are gone. */
  lemma OwnDetach(ops: seq<Op>, bounded: bool, sid: string, role: Role, conn: nat)
    requires sid in Run(ops, bounded) && ConnOf(Run(ops, bounded)[sid], role) == Some(conn)
    ensures
      var before, after := Run(ops, bounded), Run(ops + [OpDetach(sid, role, conn)], bounded);
      && (sid in after <==> ConnOf(before[sid], Other(role)).Some?)
      && (sid in after ==> after[sid] == SetConn(before[sid], role, None) && ConnOf(after[sid], role) == None)
      && forall other :: other != sid ==> RoomAt(after, other) == RoomAt(before, other)
  {
    hide Run;
    LastOp(ops, OpDetach(sid, role, conn), bounded);
  }

  // ----- the server itself -----

  class Server {
    var rooms: Rooms

    constructor ()
      ensures rooms == map[]
    {
      rooms := map[];
    }

    /** attachConn: the displaced connection, the backlog, and whom to tell that the room is complete. */
    method AttachConn(sid: string, role: Role, conn: nat)
      returns (displaced: Option<nat>, pending: seq<Envelope>, ready: seq<nat>)
      modifies this
      ensures rooms == Attach(old(rooms), sid, role, conn)
      ensures displaced == ConnOf(RoomAt(old(rooms), sid), role)
      ensures pending == Handed(old(rooms), sid, role)
      ensures ready == if rooms[sid].pc.Some? && rooms[sid].mobile.Some?
                       then [rooms[sid].pc.value, rooms[sid].mobile.value] else []
    {
      var rm := if sid in rooms then rooms[sid] else EMPTY_ROOM;
      match role {
        case PC =>
          displaced, pending := rm.pc, rm.forPC;
          rm := rm.(pc := Some(conn), forPC := []);
        case Mobile =>
          displaced, pending := rm.mobile, rm.forMobile;
          rm := rm.(mobile := Some(conn), forMobile := []);
      }
      rooms := rooms[sid := rm];
      ready := if rm.pc.Some? && rm.mobile.Some? then [rm.pc.value, rm.mobile.value] else [];
    }

    method DetachConn(sid: string, role: Role, conn: nat)
      modifies this
      ensures rooms == Detach(old(rooms), sid, role, conn)
    {
      if sid !in rooms { return; }
      var rm := rooms[sid];
      if role == PC && rm.pc == Some(conn) {
        rm := rm.(pc := None);
      }
      if role == Mobile && rm.mobile == Some(conn) {
        rm := rm.(mobile := None);
      }
      if rm.pc.None? && rm.mobile.None? {
        rooms := rooms - {sid};
      } else {
        rooms := rooms[sid := rm];
      }
    }

    /** forwardOrQueue: the connection to write to, if the other side is there. */
    method ForwardOrQueue(sid: string, role: Role, e: Envelope) returns (target: Result<Option<nat>>)
      modifies this
      ensures rooms == Forward(old(rooms), sid, role, e, true)
      ensures sid !in old(rooms) ==> target == Err("room " + sid + " not found")
      ensures sid in old(rooms) ==> target == Ok(ConnOf(old(rooms)[sid], Other(role)))
    {
      if sid !in rooms {
        return Err("room " + sid + " not found");
      }
      var rm := rooms[sid];
      target := Ok(ConnOf(rm, Other(role)));
      if target.value.None? {
        var queue := AppendPending(PendingFor(rm, Other(role)), e, true);
        rooms := rooms[sid := SetPending(rm, Other(role), queue)];
      }
    }

    /** One turn of readLoop; `written` says whether a write to the other side succeeds. */
    method HandleEnvelope(sid: string, role: Role, e: Envelope, written: bool) returns (accepted: bool, message: string)
      modifies this
      ensures rooms == Read(old(rooms), sid, role, e, true)
      ensures (accepted, message) == Answered(old(rooms), sid, role, e, written)
    {
      hide ValidateSignalEnvelope;
      if !e.Valid() { return false, "invalid envelope"; }
      var verdict := ValidateSignalEnvelope(sid, role, e);
      if verdict.Err? { return false, verdict.message; }
      var target := ForwardOrQueue(sid, role, e);
      if target.Err? { return false, target.message; }
      if target.value.Some? && !written { return false, WRITE_FAILED; }
      return true, "accepted";
    }
  }
}
