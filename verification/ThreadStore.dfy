/**
 The thread store: an event log per thread with a cached summary, an index from jobs to threads, and
 the snapshot that survives a restart.
 */
module ThreadStore {
  import opened Common
  import opened Text

  /** Event data as decoded JSON: text, or something else. */
  datatype Value = Str(text: string) | NotText

  type Data = map<string, Value>

  datatype Event = Event(
    id: string, threadId: string, jobId: string, kind: string, role: string, title: string, body: string,
    data: Data, at: int)

  datatype Summary = Summary(
    id: string, sessionId: string, title: string, state: string, currentJobId: string,
    lastEventKind: string, lastEventText: string, updatedAt: int)

  datatype Record = Record(summary: Summary, events: seq<Event>)

  datatype Store = Store(threads: map<string, Record>, jobToThread: map<string, string>)

  const EMPTY := Store(map[], map[])
  const UNTITLED := "새 스레드"

  // ----- text -----

  function Clip(s: string, n: nat): string { if |s| > n then s[..n] else s }

  function FirstLine(lines: seq<string>): string {
    if lines == [] then ""
    else if TrimSpace(lines[0]) != "" then TrimSpace(lines[0])
    else FirstLine(lines[1..])
  }

  function NormalizeTitle(title: string): string {
    var t := TrimSpace(FirstLine(Lines(title)));
    if t == "" then UNTITLED else Clip(t, 72)
  }

  function FirstNonEmptyText(a: string, b: string): string {
    if TrimSpace(a) != "" then Clip(TrimSpace(a), 160) else Clip(TrimSpace(b), 160)
  }

  function HumanizeEventKind(kind: string): string {
    match kind
    case "prompt_submitted" => "프롬프트 제출"
    case "prompt_accepted" => "작업 시작"
    case "patch_ready" => "패치 준비 완료"
    case "patch_apply_requested" => "패치 적용 요청"
    case "patch_applied" => "패치 적용 결과"
    case "run_requested" => "실행 요청"
    case "run_finished" => "실행 결과"
    case _ => kind
  }

  function ValueFromData(data: Data, key: string, fallback: string): string {
    if key in data && data[key].Str? && TrimSpace(data[key].text) != "" then TrimSpace(data[key].text) else fallback
  }

  // ----- operations -----

  /** EnsureThread's effect; `generated` names a thread the caller left unnamed. */
  function ThreadIdOf(threadId: string, generated: string): string {
    if threadId == "" then generated else threadId
  }

  function EnsureThread(s: Store, threadId: string, sessionId: string, title: string, now: int): Store {
    if threadId !in s.threads then
      var summary := Summary(threadId, TrimSpace(sessionId), NormalizeTitle(title), "draft", "", "", "", now);
      s.(threads := s.threads[threadId := Record(summary, [])])
    else
      var r := s.threads[threadId];
      var title' := if r.summary.title == UNTITLED then NormalizeTitle(title) else r.summary.title;
      var session' := if r.summary.sessionId == "" then TrimSpace(sessionId) else r.summary.sessionId;
      s.(threads :=
        s.threads[threadId := r.(summary := r.summary.(title := title', sessionId := session', updatedAt := now))])
  }

  /** The event as it is stored, with the fields the caller left out. */
  function Complete(e: Event, threadId: string, eventId: string, now: int): Event {
    e.(id := if e.id == "" then eventId else e.id,
       threadId := if e.threadId == "" then threadId else e.threadId,
       at := if e.at == 0 then now else e.at,
       title := if e.title == "" then HumanizeEventKind(e.kind) else e.title)
  }

  function NextState(state: string, e: Event): string {
    match e.kind
    case "prompt_submitted" => "prompt_submitted"
    case "patch_ready" => "patch_ready"
    case "patch_applied" => ValueFromData(e.data, "status", "applied")
    case "run_finished" => ValueFromData(e.data, "status", "completed")
    case _ => state
  }

  /** What AppendEvent writes to the cached summary. */
  function Observe(s: Summary, e: Event): Summary {
    s.(updatedAt := e.at, lastEventKind := e.kind, lastEventText := FirstNonEmptyText(e.body, e.title),
       currentJobId := if e.jobId != "" then e.jobId else s.currentJobId, state := NextState(s.state, e))
  }

  /** AppendEvent; appending to an unknown thread is an error and changes nothing. */
  function AppendEvent(s: Store, threadId: string, e: Event): Store {
    if threadId !in s.threads then s
    else
      var r := s.threads[threadId];
      Store(s.threads[threadId := Record(Observe(r.summary, e), r.events + [e])],
            if e.jobId != "" then s.jobToThread[e.jobId := threadId] else s.jobToThread)
  }

  function AssignJob(s: Store, threadId: string, jobId: string): Store {
    if threadId == "" || jobId == "" then s
    else
      var threads :=
        if threadId !in s.threads then s.threads
        else
          var r := s.threads[threadId];
          s.threads[threadId := r.(summary := r.summary.(currentJobId := jobId))];
      Store(threads, s.jobToThread[jobId := threadId])
  }

  // ----- snapshot and load -----

  predicate Ascending(details: seq<Record>) {
    forall i, j :: 0 <= i < j < |details| ==> Less(details[i].summary.id, details[j].summary.id)
  }

  /** `details` lists every thread once, by ascending ID. */
  ghost predicate IsSnapshot(details: seq<Record>, threads: map<string, Record>) {
    && (forall d :: d in details ==> d.summary.id in threads && threads[d.summary.id] == d)
    && (forall id :: id in threads ==> threads[id] in details)
    && Ascending(details)
  }

  /** The index entries a thread's events give, in order. */
  function IndexEvents(jobs: map<string, string>, threadId: string, events: seq<Event>): map<string, string> {
    if events == [] then jobs
    else
      var before, e := IndexEvents(jobs, threadId, events[..|events| - 1]), events[|events| - 1];
      if e.jobId != "" then before[e.jobId := threadId] else before
  }

  function LoadOne(s: Store, d: Record): Store {
    var jobs := IndexEvents(s.jobToThread, d.summary.id, d.events);
    Store(s.threads[d.summary.id := d],
          if d.summary.currentJobId != "" then jobs[d.summary.currentJobId := d.summary.id] else jobs)
  }

  /** loadFromDisk, given the decoded snapshot. */
  function Load(details: seq<Record>): Store {
    if details == [] then EMPTY else LoadOne(Load(details[..|details| - 1]), details[|details| - 1])
  }

  /** The jobs a thread's record names. */
  function JobIds(events: seq<Event>): set<string> {
    if events == [] then {}
    else
      var before, e := JobIds(events[..|events| - 1]), events[|events| - 1];
      if e.jobId != "" then before + {e.jobId} else before
  }

  function Named(r: Record): set<string> {
    JobIds(r.events) + if r.summary.currentJobId != "" then {r.summary.currentJobId} else {}
  }

  /** Threads are filed under their own IDs. */
  ghost predicate Filed(threads: map<string, Record>) {
    forall id :: id in threads ==> threads[id].summary.id == id
  }

  ghost predicate Names(s: Store, id: string, j: string) {
    id in s.threads && j in Named(s.threads[id])
  }

  /** Exactly the jobs named by some record are indexed, each to the last thread, by ID, that names it. */
  ghost predicate Indexed(s: Store) {
    && (forall j :: j in s.jobToThread ==>
          Names(s, s.jobToThread[j], j) && forall id :: Names(s, id, j) ==> !Less(s.jobToThread[j], id))
    && (forall id, j :: Names(s, id, j) ==> j in s.jobToThread)
  }

  function AllTo(jobs: set<string>, threadId: string): map<string, string> {
    map j | j in jobs :: threadId
  }

  lemma AllToAdd(index: map<string, string>, jobs: set<string>, j: string, threadId: string)
    ensures index + AllTo(jobs + {j}, threadId) == (index + AllTo(jobs, threadId))[j := threadId]
  {
  }

  lemma {:induction false} IndexEventsIs(index: map<string, string>, threadId: string, events: seq<Event>)
    ensures IndexEvents(index, threadId, events) == index + AllTo(JobIds(events), threadId)
  {
    if events != [] {
      var before, e := events[..|events| - 1], events[|events| - 1];
      IndexEventsIs(index, threadId, before);
      AllToAdd(index, JobIds(before), e.jobId, threadId);
    }
  }

  lemma LoadOneIndex(s: Store, d: Record)
    ensures LoadOne(s, d).jobToThread == s.jobToThread + AllTo(Named(d), d.summary.id)
  {
    IndexEventsIs(s.jobToThread, d.summary.id, d.events);
    AllToAdd(s.jobToThread, JobIds(d.events), d.summary.currentJobId, d.summary.id);
    assert JobIds(d.events) + {} == JobIds(d.events);
  }

  /** The i-th thread of the listing names the job, and none after it does. */
  ghost predicate LastToName(details: seq<Record>, j: string, i: int) {
    0 <= i < |details| && j in Named(details[i]) && forall k :: i < k < |details| ==> j !in Named(details[k])
  }

  /** The loaded index has exactly the names the threads carry, each filed under the last thread that carries it. */
  lemma {:induction false} LoadNames(details: seq<Record>)
    ensures forall j :: j in Load(details).jobToThread ==>
              exists i :: LastToName(details, j, i) && Load(details).jobToThread[j] == details[i].summary.id
    ensures forall i, j :: 0 <= i < |details| && j in Named(details[i]) ==> j in Load(details).jobToThread
  {
    hide Named;
    if details != [] {
      var n := |details| - 1;
      var before, last := details[..n], details[n];
      LoadNames(before);
      LoadOneIndex(Load(before), last);
      assert Load(details) == LoadOne(Load(before), last);
      hide Load, LoadOne;
      forall j | j in Load(details).jobToThread
        ensures exists i :: LastToName(details, j, i) && Load(details).jobToThread[j] == details[i].summary.id
      {
        if j in Named(last) {
          assert LastToName(details, j, n);
        } else {
          var i :| LastToName(before, j, i) && Load(before).jobToThread[j] == before[i].summary.id;
          assert LastToName(details, j, i);
        }
      }
    }
  }

  lemma {:induction false} LoadThreads(details: seq<Record>, threads: map<string, Record>)
    requires forall d :: d in details ==> d.summary.id in threads && threads[d.summary.id] == d
    ensures forall id :: id in Load(details).threads ==> id in threads && Load(details).threads[id] == threads[id]
    ensures forall d :: d in details ==> d.summary.id in Load(details).threads
  {
    if details != [] {
      var before, d := details[..|details| - 1], details[|details| - 1];
      LoadThreads(before, threads);
      assert forall x :: x in details ==> x in before || x == d;
    }
  }

  /** Snapshot then load, in whatever order the threads are listed: threads, summaries and event order come back. */
  lemma SnapshotLoadThreads(s: Store, details: seq<Record>)
    requires Filed(s.threads) && IsSnapshot(details, s.threads)
    ensures Load(details).threads == s.threads
  {
    LoadThreads(details, s.threads);
  }

  /** Loading files each job under the last thread, by ID, that names it. */
  lemma LoadIsIndexed(s: Store, details: seq<Record>)
    requires Filed(s.threads) && IsSnapshot(details, s.threads)
    ensures Load(details).threads == s.threads && Indexed(Load(details))
  {
    hide Named, Load;
    SnapshotLoadThreads(s, details);
    LoadNames(details);
    var t := Load(details);
    forall j | j in t.jobToThread
      ensures Names(t, t.jobToThread[j], j) && forall id :: Names(t, id, j) ==> !Less(t.jobToThread[j], id)
    {
      var i :| LastToName(details, j, i) && t.jobToThread[j] == details[i].summary.id;
      assert details[i] in details;
      forall id | Names(t, id, j) ensures !Less(t.jobToThread[j], id) { NotAfterLast(s, details, j, i, id); }
    }
    forall id, j | Names(t, id, j) ensures j in t.jobToThread {
      assert s.threads[id] in details;
    }
  }

  lemma NotAfterLast(s: Store, details: seq<Record>, j: string, i: int, id: string)
    requires Filed(s.threads) && IsSnapshot(details, s.threads) && LastToName(details, j, i) && Names(s, id, j)
    ensures !Less(details[i].summary.id, id)
  {
    hide Named, Less;
    var k :| 0 <= k < |details| && details[k] == s.threads[id];
    assert details[k].summary.id == id;
    if k < i { LessStrict(id, details[i].summary.id); } else { NotBelowItself(id); }
  }

  lemma NotBelowItself(id: string)
    ensures !Less(id, id)
  {
    if Less(id, id) { LessStrict(id, id); }
  }

  /** Two indexes of the same threads that both follow the records are the same. */
  lemma IndexIsUnique(s: Store, t: Store)
    requires s.threads == t.threads && Indexed(s) && Indexed(t)
    ensures s == t
  {
    hide Named, Less;
    forall j | j in s.jobToThread && j in t.jobToThread ensures s.jobToThread[j] == t.jobToThread[j] {
      assert Names(s, t.jobToThread[j], j) && Names(t, s.jobToThread[j], j);
      LessTotal(s.jobToThread[j], t.jobToThread[j]);
    }
    forall j ensures j in s.jobToThread <==> j in t.jobToThread {
      if j in s.jobToThread { assert Names(t, s.jobToThread[j], j); }
      if j in t.jobToThread { assert Names(s, t.jobToThread[j], j); }
    }
    assert s.jobToThread == t.jobToThread;
  }

  /** Reloading restores the whole store exactly when its index follows the records. */
  lemma SnapshotLoadIndex(s: Store, details: seq<Record>)
    requires Filed(s.threads) && IsSnapshot(details, s.threads)
    ensures Load(details) == s <==> Indexed(s)
  {
    hide Named, Load, Indexed;
    LoadIsIndexed(s, details);
    if Indexed(s) { IndexIsUnique(s, Load(details)); }
  }

  /** Two threads; the job is logged first in the one, then in the other. */
  function MovedJob(first: string, second: string, j: string): Store {
    var both := EnsureThread(EnsureThread(EMPTY, second, "", "", 0), first, "", "", 0);
    var e := Event("", "", j, "run_requested", "", "", "", map[], 0);
    AppendEvent(AppendEvent(both, first, e), second, e)
  }

  lemma MovedJobStands(first: string, second: string, j: string)
    requires first != second && j != ""
    ensures
      var s := MovedJob(first, second, j);
      Filed(s.threads) && s.jobToThread == map[j := second] && Names(s, first, j)
  {
    hide NormalizeTitle, FirstNonEmptyText, JobIds;
  }

  /** A job that moved to a thread with a smaller ID is back in the old thread after a restart. */
  lemma MovedJobReturns(a: string, b: string, j: string, details: seq<Record>)
    requires Less(a, b) && j != ""
    ensures
      var s := MovedJob(b, a, j);
      s.jobToThread == map[j := a] && (IsSnapshot(details, s.threads) ==> Load(details) != s)
  {
    hide Less, Load, MovedJob, Named, IsSnapshot;
    LessStrict(a, b);
    MovedJobStands(b, a, j);
    var s := MovedJob(b, a, j);
    assert Names(s, b, j) && Less(s.jobToThread[j], b);
    if IsSnapshot(details, s.threads) { SnapshotLoadIndex(s, details); }
  }

  /** A job assigned without an event of its own is forgotten by a restart once another job is assigned. */
  lemma AssignmentAloneIsLost(id: string, one: string, two: string)
    requires id != "" && one != "" && two != "" && one != two
    ensures
      var s := AssignJob(AssignJob(EnsureThread(EMPTY, id, "", "", 0), id, one), id, two);
      Filed(s.threads) && IsSnapshot([s.threads[id]], s.threads) && Load([s.threads[id]]) != s
  {
    hide NormalizeTitle, Load;
    var s := AssignJob(AssignJob(EnsureThread(EMPTY, id, "", "", 0), id, one), id, two);
    assert s.threads.Keys == {id} && Named(s.threads[id]) == {two};
    assert one in s.jobToThread && !Names(s, s.jobToThread[one], one);
    SnapshotLoadIndex(s, [s.threads[id]]);
  }

  // ----- the cached summary -----

  datatype Digest = Digest(state: string, kind: string, text: string)

  /** What the log alone says: a left fold from a draft. */
  function Replay(events: seq<Event>): Digest {
    if events == [] then Digest("draft", "", "")
    else
      var before, e := Replay(events[..|events| - 1]), events[|events| - 1];
      Digest(NextState(before.state, e), e.kind, FirstNonEmptyText(e.body, e.title))
  }

  predicate Faithful(r: Record) {
    Digest(r.summary.state, r.summary.lastEventKind, r.summary.lastEventText) == Replay(r.events)
  }

  ghost predicate AllFaithful(threads: map<string, Record>) {
    forall id :: id in threads ==> Faithful(threads[id])
  }

  datatype Op =
    | OpEnsure(threadId: string, sessionId: string, title: string, generated: string, now: int)
    | OpAppend(threadId: string, e: Event, eventId: string, now: int)
    | OpAssign(threadId: string, jobId: string)
    | OpReload(details: seq<Record>)

  /** One operation; a reload is of a snapshot of the current threads. */
  ghost function Apply(s: Store, op: Op): Store {
    match op
    case OpEnsure(threadId, sessionId, title, generated, now) =>
      EnsureThread(s, ThreadIdOf(threadId, generated), sessionId, title, now)
    case OpAppend(threadId, e, eventId, now) => AppendEvent(s, threadId, Complete(e, threadId, eventId, now))
    case OpAssign(threadId, jobId) => AssignJob(s, threadId, jobId)
    case OpReload(details) => if IsSnapshot(details, s.threads) then Load(details) else s
  }

  ghost function Run(ops: seq<Op>): Store {
    if ops == [] then EMPTY else Apply(Run(ops[..|ops| - 1]), ops[|ops| - 1])
  }

  lemma ObserveFaithful(r: Record, e: Event)
    requires Faithful(r)
    ensures Faithful(Record(Observe(r.summary, e), r.events + [e]))
  {
    hide NextState, FirstNonEmptyText;
    assert (r.events + [e])[..|r.events|] == r.events;
  }

  lemma ApplyFaithful(s: Store, op: Op)
    requires Filed(s.threads) && AllFaithful(s.threads)
    ensures Filed(Apply(s, op).threads) && AllFaithful(Apply(s, op).threads)
  {
    hide Faithful, Complete, NormalizeTitle;
    match op
    case OpEnsure(threadId, sessionId, title, generated, now) =>
      EnsureFaithful(s, ThreadIdOf(threadId, generated), sessionId, title, now);
    case OpAppend(threadId, e, eventId, now) =>
      if threadId in s.threads {
        ObserveFaithful(s.threads[threadId], Complete(e, threadId, eventId, now));
      }
    case OpAssign(threadId, jobId) => AssignFaithful(s, threadId, jobId);
    case OpReload(details) =>
      if IsSnapshot(details, s.threads) {
        SnapshotLoadThreads(s, details);
      }
  }

  lemma EnsureFaithful(s: Store, threadId: string, sessionId: string, title: string, now: int)
    requires Filed(s.threads) && AllFaithful(s.threads)
    ensures var t := EnsureThread(s, threadId, sessionId, title, now).threads; Filed(t) && AllFaithful(t)
  {
    hide NormalizeTitle, TrimSpace;
  }

  lemma AssignFaithful(s: Store, threadId: string, jobId: string)
    requires Filed(s.threads) && AllFaithful(s.threads)
    ensures Filed(AssignJob(s, threadId, jobId).threads) && AllFaithful(AssignJob(s, threadId, jobId).threads)
  {
  }

  lemma {:induction false} RunFaithful(ops: seq<Op>)
    ensures Filed(Run(ops).threads) && AllFaithful(Run(ops).threads)
  {
    if ops != [] {
      RunFaithful(ops[..|ops| - 1]);
      ApplyFaithful(Run(ops[..|ops| - 1]), ops[|ops| - 1]);
    }
  }

  /** Through any mix of operations and reloads the cached summary of a thread is the replay of its log. */
  lemma SummaryIsReplay(ops: seq<Op>, id: string)
    requires id in Run(ops).threads
    ensures
      var r := Run(ops).threads[id];
      && r.summary.id == id
      && Digest(r.summary.state, r.summary.lastEventKind, r.summary.lastEventText) == Replay(r.events)
  {
    RunFaithful(ops);
    assert Faithful(Run(ops).threads[id]);
  }

  predicate IsMilestone(kind: string) {
    kind == "prompt_submitted" || kind == "patch_ready" || kind == "patch_applied" || kind == "run_finished"
  }

  /** The i-th event sets the state of its thread, and no later one does. */
  ghost predicate LastMilestone(events: seq<Event>, i: int) {
    && 0 <= i < |events| && IsMilestone(events[i].kind)
    && forall k :: i < k < |events| ==> !IsMilestone(events[k].kind)
  }

  /** The status an event's data gives, if it is text that is not blank. */
  function GivenStatus(e: Event): Option<string> {
    if "status" in e.data && e.data["status"].Str? && TrimSpace(e.data["status"].text) != ""
    then Some(TrimSpace(e.data["status"].text)) else None
  }

  ghost predicate StateSetBy(state: string, e: Event) {
    && (e.kind == "prompt_submitted" ==> state == "prompt_submitted")
    && (e.kind == "patch_ready" ==> state == "patch_ready")
    && (e.kind == "patch_applied" ==> state == if GivenStatus(e).Some? then GivenStatus(e).value else "applied")
    && (e.kind == "run_finished" ==> state == if GivenStatus(e).Some? then GivenStatus(e).value else "completed")
  }

  lemma NextStateOf(state: string, e: Event)
    ensures if IsMilestone(e.kind) then StateSetBy(NextState(state, e), e) else NextState(state, e) == state
  {
    hide TrimSpace;
  }

  lemma {:induction false} ReplayState(events: seq<Event>, i: int)
    ensures LastMilestone(events, i) ==> StateSetBy(Replay(events).state, events[i])
    ensures (forall e :: e in events ==> !IsMilestone(e.kind)) ==> Replay(events).state == "draft"
    decreases |events|
  {
    hide NextState, StateSetBy, FirstNonEmptyText, IsMilestone;
    if events != [] {
      var n := |events| - 1;
      ReplayState(events[..n], i);
      NextStateOf(Replay(events[..n]).state, events[n]);
    }
  }

  /** A text cut to its first 160 characters. */
  predicate IsCut(cut: string, text: string) {
    cut <= text && (cut == text || |cut| == 160) && |cut| <= 160
  }

  /**
   Through any mix of operations and reloads: the state of a thread is the one its last milestone sets, or "draft";
   and the last kind and text are those of the last event, the title standing in for a blank body.
   */
  lemma SummaryMeans(ops: seq<Op>, id: string, i: int)
    requires id in Run(ops).threads
    ensures
      var r := Run(ops).threads[id];
      var n := |r.events|;
      && (LastMilestone(r.events, i) ==> StateSetBy(r.summary.state, r.events[i]))
      && ((forall e :: e in r.events ==> !IsMilestone(e.kind)) ==> r.summary.state == "draft")
      && (n > 0 ==> r.summary.lastEventKind == r.events[n - 1].kind)
      && (n > 0 ==> IsCut(r.summary.lastEventText,
                          TrimSpace(if TrimSpace(r.events[n - 1].body) != "" then r.events[n - 1].body
                                    else r.events[n - 1].title)))
  {
    hide Run, TrimSpace, NextState, StateSetBy, IsMilestone;
    SummaryIsReplay(ops, id);
    ReplayState(Run(ops).threads[id].events, i);
  }

  /** An event is stored with what its maker gave it and with what was missing filled in; the thread is as new as it. */
  lemma AppendStores(s: Store, id: string, e: Event, eventId: string, now: int)
    requires id in s.threads
    ensures
      var t := AppendEvent(s, id, Complete(e, id, eventId, now));
      && t.threads.Keys == s.threads.Keys
      && (forall other :: other in s.threads && other != id ==> t.threads[other] == s.threads[other])
      && |t.threads[id].events| == |s.threads[id].events| + 1
      && t.threads[id].events[..|s.threads[id].events|] == s.threads[id].events
      && var c := t.threads[id].events[|s.threads[id].events|];
         && c.id == (if e.id != "" then e.id else eventId)
         && c.threadId == (if e.threadId != "" then e.threadId else id)
         && c.at == (if e.at != 0 then e.at else now)
         && (e.title != "" ==> c.title == e.title)
         && c.jobId == e.jobId && c.kind == e.kind && c.role == e.role && c.body == e.body && c.data == e.data
         && t.threads[id].summary.updatedAt == c.at
         && t.threads[id].summary.title == s.threads[id].summary.title
         && t.threads[id].summary.sessionId == s.threads[id].summary.sessionId
  {
    hide HumanizeEventKind, NextState, FirstNonEmptyText;
  }

  lemma {:induction false} FirstLineIs(lines: seq<string>, i: nat)
    requires i < |lines| && TrimSpace(lines[i]) != "" && forall k :: 0 <= k < i ==> TrimSpace(lines[k]) == ""
    ensures FirstLine(lines) == TrimSpace(lines[i])
  {
    if i > 0 { FirstLineIs(lines[1..], i - 1); }
  }

  lemma {:induction false} TrimmedTwice(s: string)
    ensures TrimSpace(TrimSpace(s)) == TrimSpace(s)
  {
    hide IsSpace;
    var t := TrimLeft(s);
    TrimLeftShortens(s);
    TrimRightKeepsFirst(t);
    TrimRightStops(t);
  }

  lemma {:induction false} TrimRightKeepsFirst(s: string)
    ensures TrimRight(s) <= s
  {
    if s != "" && IsSpace(s[|s| - 1]) { TrimRightKeepsFirst(s[..|s| - 1]); }
  }

  lemma {:induction false} TrimRightStops(s: string)
    ensures var t := TrimRight(s); t != "" ==> !IsSpace(t[|t| - 1])
  {
    if s != "" && IsSpace(s[|s| - 1]) { TrimRightStops(s[..|s| - 1]); }
  }

  /** A thread is titled by the first line of the prompt that is not blank, cut to 72 characters. */
  lemma TitleIs(title: string, i: nat)
    requires i < |Lines(title)| && TrimSpace(Lines(title)[i]) != ""
    requires forall k :: 0 <= k < i ==> TrimSpace(Lines(title)[k]) == ""
    ensures
      var t := TrimSpace(Lines(title)[i]);
      NormalizeTitle(title) == if |t| <= 72 then t else t[..72]
  {
    hide Lines, TrimSpace, FirstLine;
    FirstLineIs(Lines(title), i);
    TrimmedTwice(Lines(title)[i]);
  }

  /** Opening a thread makes a draft, or fills in what is missing; logs, states and jobs are left alone. */
  lemma EnsureLeavesAlone(s: Store, id: string, sessionId: string, title: string, now: int)
    ensures
      var t := EnsureThread(s, id, sessionId, title, now);
      && t.jobToThread == s.jobToThread && t.threads.Keys == s.threads.Keys + {id}
      && (forall other :: other in s.threads && other != id ==> t.threads[other] == s.threads[other])
      && var r := t.threads[id];
         if id !in s.threads then
           && r.events == [] && r.summary.id == id && r.summary.state == "draft" && r.summary.currentJobId == ""
           && r.summary.sessionId == TrimSpace(sessionId) && r.summary.title == NormalizeTitle(title)
         else
           var old' := s.threads[id];
           && r.events == old'.events && r.summary.state == old'.summary.state
           && r.summary.currentJobId == old'.summary.currentJobId
           && r.summary.lastEventKind == old'.summary.lastEventKind
           && r.summary.lastEventText == old'.summary.lastEventText
           && (old'.summary.title != UNTITLED ==> r.summary.title == old'.summary.title)
           && (old'.summary.title == UNTITLED ==> r.summary.title == NormalizeTitle(title))
           && (old'.summary.sessionId != "" ==> r.summary.sessionId == old'.summary.sessionId)
           && (old'.summary.sessionId == "" ==> r.summary.sessionId == TrimSpace(sessionId))
  {
    hide NormalizeTitle, TrimSpace;
  }

  // ----- the store itself -----

  /** The first name in sorted order. */
  method Least(ids: set<string>) returns (id: string)
    requires ids != {}
    ensures id in ids && forall other :: other in ids && other != id ==> Less(id, other)
  {
    hide Less;
    id :| id in ids;
    var todo := ids - {id};
    while todo != {}
      invariant todo <= ids && id in ids && id !in todo
      invariant forall other :: other in ids && other !in todo && other != id ==> Less(id, other)
      decreases todo
    {
      var next :| next in todo;
      LessTotal(id, next);
      if Less(next, id) {
        forall other | other in ids && other !in todo && other != id ensures Less(next, other) {
          LessTransitive(next, id, other);
        }
        id := next;
      }
      todo := todo - {next};
    }
  }

  class LiveStore {
    var threads: map<string, Record>
    var jobToThread: map<string, string>

    ghost function Model(): Store
      reads this
    {
      Store(threads, jobToThread)
    }

    constructor ()
      ensures Model() == EMPTY
    {
      threads, jobToThread := map[], map[];
    }

    method Ensure(threadId: string, sessionId: string, title: string, generated: string, now: int) returns (r: Summary)
      modifies this
      ensures Model() == EnsureThread(old(Model()), ThreadIdOf(threadId, generated), sessionId, title, now)
      ensures ThreadIdOf(threadId, generated) in threads && r == threads[ThreadIdOf(threadId, generated)].summary
    {
      hide NormalizeTitle, TrimSpace;
      var id := if threadId == "" then generated else threadId;
      if id !in threads {
        r := Summary(id, TrimSpace(sessionId), NormalizeTitle(title), "draft", "", "", "", now);
        threads := threads[id := Record(r, [])];
      } else {
        var record := threads[id];
        r := record.summary;
        if r.title == UNTITLED {
          r := r.(title := NormalizeTitle(title));
        }
        if r.sessionId == "" {
          r := r.(sessionId := TrimSpace(sessionId));
        }
        r := r.(updatedAt := now);
        threads := threads[id := record.(summary := r)];
      }
    }

    method Append(threadId: string, e: Event, eventId: string, now: int) returns (r: Result<Summary>)
      modifies this
      ensures Model() == AppendEvent(old(Model()), threadId, Complete(e, threadId, eventId, now))
      ensures r.Ok? <==> threadId in old(threads)
      ensures r.Ok? ==> r.value == threads[threadId].summary
    {
      hide Complete, FirstNonEmptyText, ValueFromData;
      if threadId !in threads {
        return Err("thread " + threadId + " not found");
      }
      var event := Complete(e, threadId, eventId, now);
      var record := threads[threadId];
      var summary := record.summary.(updatedAt := event.at, lastEventKind := event.kind,
                                     lastEventText := FirstNonEmptyText(event.body, event.title));
      if event.jobId != "" {
        summary := summary.(currentJobId := event.jobId);
        jobToThread := jobToThread[event.jobId := threadId];
      }
      if event.kind == "prompt_submitted" {
        summary := summary.(state := "prompt_submitted");
      } else if event.kind == "patch_ready" {
        summary := summary.(state := "patch_ready");
      } else if event.kind == "patch_applied" {
        summary := summary.(state := ValueFromData(event.data, "status", "applied"));
      } else if event.kind == "run_finished" {
        summary := summary.(state := ValueFromData(event.data, "status", "completed"));
      }
      threads := threads[threadId := Record(summary, record.events + [event])];
      r := Ok(summary);
    }

    method Assign(threadId: string, jobId: string)
      modifies this
      ensures Model() == AssignJob(old(Model()), threadId, jobId)
    {
      if threadId == "" || jobId == "" { return; }
      if threadId in threads {
        var record := threads[threadId];
        threads := threads[threadId := record.(summary := record.summary.(currentJobId := jobId))];
      }
      jobToThread := jobToThread[jobId := threadId];
    }

    /** snapshotLocked: the threads by ascending ID. */
    method Snapshot() returns (details: seq<Record>)
      requires Filed(threads)
      ensures IsSnapshot(details, threads) && |details| == |threads|
    {
      hide Less;
      details := [];
      var todo := threads.Keys;
      while todo != {}
        invariant todo <= threads.Keys && |details| + |todo| == |threads|
        invariant forall d :: d in details ==> d.summary.id in threads && threads[d.summary.id] == d
        invariant forall id :: id in threads && id !in todo ==> threads[id] in details
        invariant Ascending(details)
        invariant forall d, id :: d in details && id in todo ==> Less(d.summary.id, id)
        decreases todo
      {
        var id := Least(todo);
        details := details + [threads[id]];
        todo := todo - {id};
      }
    }

    /** loadFromDisk: threads and index are rebuilt, thread by thread and event by event. */
    method LoadFrom(details: seq<Record>)
      modifies this
      ensures Model() == Load(details)
    {
      hide LoadOne;
      threads, jobToThread := map[], map[];
      for i := 0 to |details|
        invariant Model() == Load(details[..i])
      {
        assert details[..i + 1][..i] == details[..i];
        LoadThread(details[i]);
      }
      assert details[..|details|] == details;
    }

    method LoadThread(d: Record)
      modifies this
      ensures Model() == LoadOne(old(Model()), d)
    {
      var id, events := d.summary.id, d.events;
      for i := 0 to |events|
        invariant threads == old(threads)
        invariant jobToThread == IndexEvents(old(jobToThread), id, events[..i])
      {
        assert events[..i + 1][..i] == events[..i];
        if events[i].jobId != "" {
          jobToThread := jobToThread[events[i].jobId := id];
        }
      }
      assert events[..|events|] == events;
      if d.summary.currentJobId != "" {
        jobToThread := jobToThread[d.summary.currentJobId := id];
      }
      threads := threads[id := d];
    }
  }
}
