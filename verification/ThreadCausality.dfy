/** What the thread logs say about jobs, over every run of the orchestrator and for any adapter. */
module ThreadCausality {
  import opened Common
  import opened Text
  import opened Protocol
  import opened ThreadStore
  import opened Orchestrator

  // ----- the log of one job -----

  /** The kinds of a job's events, in order. */
  function JobLog(events: seq<Event>, j: string): seq<string> {
    if events == [] then []
    else
      var before, e := JobLog(events[..|events| - 1], j), events[|events| - 1];
      if e.jobId == j then before + [e.kind] else before
  }

  /** Requests with their results: an apply request is followed by its result, a run by its result or by nothing. */
  predicate Blocks(kinds: seq<string>) {
    var n := |kinds|;
    n == 0
    || (kinds[n - 1] == "run_requested" && Blocks(kinds[..n - 1]))
    || (n >= 2 && kinds[n - 1] == "run_finished" && kinds[n - 2] == "run_requested" && Blocks(kinds[..n - 2]))
    || (n >= 2 && kinds[n - 1] == "patch_applied" && kinds[n - 2] == "patch_apply_requested" && Blocks(kinds[..n - 2]))
  }

  /** A job is accepted, then ready, and only then asked for anything. */
  predicate Started(kinds: seq<string>) {
    |kinds| >= 2 && kinds[0] == "prompt_accepted" && kinds[1] == "patch_ready" && Blocks(kinds[2..])
  }

  function Count(kinds: seq<string>, kind: string): nat {
    if kinds == [] then 0 else Count(kinds[..|kinds| - 1], kind) + if kinds[|kinds| - 1] == kind then 1 else 0
  }

  lemma {:induction false} BlocksMatch(kinds: seq<string>)
    requires Blocks(kinds)
    ensures Count(kinds, "patch_applied") == Count(kinds, "patch_apply_requested")
    ensures Count(kinds, "run_finished") <= Count(kinds, "run_requested")
  {
    var n := |kinds|;
    if n > 0 {
      if kinds[n - 1] == "run_requested" {
        BlocksMatch(kinds[..n - 1]);
      } else {
        assert kinds[..n - 1][..n - 2] == kinds[..n - 2];
        BlocksMatch(kinds[..n - 2]);
      }
    }
  }

  /** At every moment no more results than requests of either kind have been logged. */
  lemma {:induction false} BlocksPrefix(kinds: seq<string>, i: nat)
    requires Blocks(kinds) && i <= |kinds|
    ensures Count(kinds[..i], "patch_applied") <= Count(kinds[..i], "patch_apply_requested")
    ensures Count(kinds[..i], "run_finished") <= Count(kinds[..i], "run_requested")
    decreases |kinds|
  {
    var n := |kinds|;
    assert kinds[..n] == kinds;
    if i == n {
      BlocksMatch(kinds);
    } else if kinds[n - 1] == "run_requested" {
      assert kinds[..n - 1][..i] == kinds[..i];
      BlocksPrefix(kinds[..n - 1], i);
    } else if i <= n - 2 {
      assert kinds[..n - 2][..i] == kinds[..i];
      BlocksPrefix(kinds[..n - 2], i);
    } else {
      BlocksMatch(kinds[..n - 2]);
      assert kinds[..i][..n - 2] == kinds[..n - 2];
    }
  }

  // ----- the invariant -----

  ghost predicate ThreadOk(s: Store, id: string, r: Record) {
    && r.summary.id == id
    && (r.summary.currentJobId == "" || r.summary.currentJobId in JobIds(r.events))
    && forall j :: j in JobIds(r.events) ==> j in s.jobToThread && s.jobToThread[j] == id
  }

  ghost predicate JobFiled(s: Store, j: string) {
    && j in s.jobToThread && j != "" && s.jobToThread[j] in s.threads
    && j in JobIds(s.threads[s.jobToThread[j]].events)
  }

  function LogOf(s: Store, j: string): seq<string>
    requires j in s.jobToThread && s.jobToThread[j] in s.threads
  {
    JobLog(s.threads[s.jobToThread[j]].events, j)
  }

  ghost predicate ThreadsOk(s: Store) {
    forall id :: id in s.threads ==> ThreadOk(s, id, s.threads[id])
  }

  ghost predicate JobsFiled(s: Store) {
    forall j :: j in s.jobToThread ==> JobFiled(s, j)
  }

  ghost predicate JobStarted(s: Store, j: string) {
    JobFiled(s, j) && Started(LogOf(s, j))
  }

  /** Everything about the logs, except that the log of `open` may be in the middle of a handler. */
  ghost predicate LogsBut(s: Store, open: string) {
    && ThreadsOk(s) && JobsFiled(s)
    && forall j :: j in s.jobToThread && j != open ==> JobStarted(s, j)
  }

  ghost predicate LogsOk(s: Store) { LogsBut(s, "") }

  /** The jobs the running process knows are in the thread that the index says. */
  ghost predicate JobsOk(s: State) {
    forall j :: j in s.jobs ==>
      j in s.store.jobToThread && s.jobs[j].id == j && s.jobs[j].threadId == s.store.jobToThread[j]
  }

  ghost predicate Inv(s: State) { LogsOk(s.store) && JobsOk(s) }

  lemma OthersStarted(s: Store, j: string)
    requires LogsOk(s)
    ensures LogsBut(s, j)
  {
    hide ThreadsOk, JobStarted;
    forall k | k in s.jobToThread ensures k != "" { assert JobFiled(s, k); }
  }

  lemma Closed(s: Store, j: string)
    requires LogsBut(s, j) && JobStarted(s, j)
    ensures LogsOk(s)
  {
    hide ThreadsOk, JobsFiled, JobStarted;
  }

  // ----- one event -----

  lemma {:induction false} NotNamedNotLogged(events: seq<Event>, j: string)
    requires j != ""
    ensures j !in JobIds(events) ==> JobLog(events, j) == []
  {
    if events != [] { NotNamedNotLogged(events[..|events| - 1], j); }
  }

  lemma LogSnoc(events: seq<Event>, e: Event, j: string)
    ensures JobLog(events + [e], j) == if e.jobId == j then JobLog(events, j) + [e.kind] else JobLog(events, j)
  {
    assert (events + [e])[..|events|] == events;
  }

  lemma IdsSnoc(events: seq<Event>, e: Event)
    ensures JobIds(events + [e]) == if e.jobId != "" then JobIds(events) + {e.jobId} else JobIds(events)
  {
    assert (events + [e])[..|events|] == events;
  }

  /** The record of the thread after an event, as far as jobs are concerned. */
  lemma AppendRecord(s: Store, id: string, e: Event)
    requires id in s.threads
    ensures
      var t := AppendEvent(s, id, e);
      && id in t.threads && t.threads == s.threads[id := t.threads[id]]
      && t.jobToThread == (if e.jobId != "" then s.jobToThread[e.jobId := id] else s.jobToThread)
      && var r, q := s.threads[id], t.threads[id];
         && q.summary.id == r.summary.id
         && q.summary.currentJobId == (if e.jobId != "" then e.jobId else r.summary.currentJobId)
         && JobIds(q.events) == (if e.jobId != "" then JobIds(r.events) + {e.jobId} else JobIds(r.events))
         && forall j :: JobLog(q.events, j) ==
              if e.jobId == j then JobLog(r.events, j) + [e.kind] else JobLog(r.events, j)
  {
    hide NextState, FirstNonEmptyText, JobIds, JobLog;
    var r := s.threads[id];
    IdsSnoc(r.events, e);
    forall j ensures JobLog(r.events + [e], j) ==
        if e.jobId == j then JobLog(r.events, j) + [e.kind] else JobLog(r.events, j) {
      LogSnoc(r.events, e, j);
    }
  }

  /** `t` is `s` with one more event, of kind `kind`, for the job `j` in thread `id`; the job may be new. */
  ghost predicate Extended(s: Store, t: Store, id: string, j: string, kind: string) {
    && id in s.threads && id in t.threads && j != ""
    && (j in s.jobToThread ==> s.jobToThread[j] == id)
    && t.jobToThread == s.jobToThread[j := id] && t.threads == s.threads[id := t.threads[id]]
    && var r, q := s.threads[id], t.threads[id];
       && q.summary.id == r.summary.id && q.summary.currentJobId == j
       && JobIds(q.events) == JobIds(r.events) + {j}
       && forall k :: JobLog(q.events, k) == if k == j then JobLog(r.events, k) + [kind] else JobLog(r.events, k)
  }

  lemma ExtendedThreads(s: Store, t: Store, id: string, j: string, kind: string)
    requires ThreadsOk(s) && Extended(s, t, id, j, kind)
    ensures ThreadsOk(t)
  {
    hide JobIds, JobLog;
    forall other | other in t.threads ensures ThreadOk(t, other, t.threads[other]) {
      assert ThreadOk(s, other, s.threads[other]);
    }
  }

  lemma ExtendedJob(s: Store, t: Store, id: string, j: string, kind: string, k: string)
    requires JobFiled(s, k) && Extended(s, t, id, j, kind)
    ensures JobFiled(t, k) && LogOf(t, k) == if k == j then LogOf(s, k) + [kind] else LogOf(s, k)
  {
    hide JobIds, JobLog;
  }

  lemma ExtendedNew(s: Store, t: Store, id: string, j: string, kind: string)
    requires ThreadsOk(s) && Extended(s, t, id, j, kind)
    ensures JobFiled(t, j) && t.jobToThread.Keys == s.jobToThread.Keys + {j}
    ensures j !in s.jobToThread ==> LogOf(t, j) == [kind]
  {
    hide JobIds, JobLog;
    if j !in s.jobToThread {
      assert ThreadOk(s, id, s.threads[id]);
      NotNamedNotLogged(s.threads[id].events, j);
    }
  }

  /** The event extends that job's log and no other. */
  lemma ExtendedOk(s: Store, t: Store, id: string, j: string, kind: string)
    requires LogsBut(s, j) && Extended(s, t, id, j, kind)
    ensures LogsBut(t, j) && JobFiled(t, j)
    ensures j in s.jobToThread ==> JobFiled(s, j) && LogOf(t, j) == LogOf(s, j) + [kind]
    ensures j !in s.jobToThread ==> LogOf(t, j) == [kind]
  {
    hide ThreadsOk, Extended, LogOf, JobIds, Started;
    ExtendedThreads(s, t, id, j, kind);
    ExtendedNew(s, t, id, j, kind);
    forall k | k in s.jobToThread
      ensures JobFiled(t, k) && LogOf(t, k) == if k == j then LogOf(s, k) + [kind] else LogOf(s, k)
    {
      assert JobFiled(s, k);
      ExtendedJob(s, t, id, j, kind, k);
    }
    forall k | k in s.jobToThread && k != j ensures JobStarted(t, k) {
      assert JobStarted(s, k);
    }
  }

  lemma AppendJob(s: Store, j: string, e: Event)
    requires LogsBut(s, j) && JobFiled(s, j) && e.jobId == j
    ensures
      var t := AppendEvent(s, s.jobToThread[j], e);
      LogsBut(t, j) && JobFiled(t, j) && t.jobToThread == s.jobToThread && LogOf(t, j) == LogOf(s, j) + [e.kind]
  {
    hide AppendEvent, JobIds, JobLog, LogsBut, LogOf;
    var id := s.jobToThread[j];
    AppendRecord(s, id, e);
    assert s.jobToThread == s.jobToThread[j := id];
    ExtendedOk(s, AppendEvent(s, id, e), id, j, e.kind);
  }

  /** The same for an event that a handler posts for a job it knows. */
  lemma PostJob(s: State, at: Stamp, j: string, e: Event)
    requires LogsBut(s.store, j) && JobsOk(s) && JobFiled(s.store, j) && e.jobId == j
    ensures
      var t := Post(s, at, s.store.jobToThread[j], e);
      && LogsBut(t.store, j) && JobsOk(t) && JobFiled(t.store, j) && t.jobs == s.jobs
      && t.store.jobToThread == s.store.jobToThread && LogOf(t.store, j) == LogOf(s.store, j) + [e.kind]
  {
    hide AppendEvent, LogsBut, LogOf, HumanizeEventKind;
    AppendJob(s.store, j, Complete(e, s.store.jobToThread[j], at.eventId, at.now));
  }

  /** Same jobs in the same threads with the same logs; new threads are empty. */
  ghost predicate SameLogs(s: Store, t: Store) {
    && t.jobToThread == s.jobToThread && s.threads.Keys <= t.threads.Keys
    && forall id :: id in t.threads ==>
         var r := t.threads[id];
         if id in s.threads then
           && SameJobs(r.events, s.threads[id].events) && r.summary.id == s.threads[id].summary.id
           && r.summary.currentJobId == s.threads[id].summary.currentJobId
         else r.events == [] && r.summary.id == id && r.summary.currentJobId == ""
  }

  ghost predicate SameJobs(a: seq<Event>, b: seq<Event>) {
    JobIds(a) == JobIds(b) && forall j :: j != "" ==> JobLog(a, j) == JobLog(b, j)
  }

  lemma NoIds()
    ensures JobIds([]) == {}
  {
  }

  lemma SameLogsJob(s: Store, t: Store, j: string)
    requires JobFiled(s, j) && SameLogs(s, t)
    ensures JobFiled(t, j) && LogOf(t, j) == LogOf(s, j)
  {
    hide JobIds, JobLog;
  }

  lemma SameLogsThreads(s: Store, t: Store)
    requires ThreadsOk(s) && SameLogs(s, t)
    ensures ThreadsOk(t) && t.jobToThread == s.jobToThread
  {
    hide JobIds, JobLog;
    NoIds();
    forall id | id in t.threads ensures ThreadOk(t, id, t.threads[id]) {
      if id in s.threads { assert ThreadOk(s, id, s.threads[id]); }
    }
  }

  lemma SameLogsOk(s: Store, t: Store)
    requires LogsOk(s) && SameLogs(s, t)
    ensures LogsOk(t)
  {
    hide JobIds, LogOf, SameLogs, ThreadsOk, Started;
    SameLogsThreads(s, t);
    forall j | j in s.jobToThread ensures JobFiled(t, j) && JobStarted(t, j) {
      assert JobFiled(s, j) && j != "";
      assert JobStarted(s, j);
      SameLogsJob(s, t, j);
    }
  }

  lemma AppendPlain(s: Store, id: string, e: Event)
    requires LogsOk(s) && id in s.threads && e.jobId == ""
    ensures
      var t := AppendEvent(s, id, e);
      LogsOk(t) && t.jobToThread == s.jobToThread && id in t.threads
  {
    hide AppendEvent, JobIds, JobLog, LogsOk;
    AppendRecord(s, id, e);
    SameLogsOk(s, AppendEvent(s, id, e));
  }

  /** An event that belongs to no job leaves every job's log alone. */
  lemma PostPlain(s: State, at: Stamp, id: string, e: Event)
    requires Inv(s) && id in s.store.threads && e.jobId == ""
    ensures var t := Post(s, at, id, e); Inv(t) && t.store.jobToThread == s.store.jobToThread && id in t.store.threads
  {
    hide AppendEvent, LogsOk, HumanizeEventKind;
    AppendPlain(s.store, id, Complete(e, id, at.eventId, at.now));
  }

  lemma OpenThreadOk(s: State, e: Envelope, w: World, id: string, prompt: string)
    requires Inv(s)
    ensures
      var t := OpenThread(s, e, w, id, prompt);
      Inv(t) && t.store.jobToThread == s.store.jobToThread && id in t.store.threads
  {
    hide NormalizeTitle, LogsOk, JobIds, JobLog;
    var t := OpenThread(s, e, w, id, prompt);
    assert SameLogs(s.store, t.store) by { FiledThreads(s.store); }
    SameLogsOk(s.store, t.store);
  }

  lemma FiledThreads(s: Store)
    requires LogsOk(s)
    ensures forall id :: id in s.threads ==> s.threads[id].summary.id == id
  {
    forall id | id in s.threads ensures s.threads[id].summary.id == id {
      assert ThreadOk(s, id, s.threads[id]);
    }
  }

  lemma AssignedThreads(s: Store, id: string, j: string)
    requires id in s.threads && id != "" && j != ""
    ensures
      var t := AssignJob(s, id, j);
      && id in t.threads && t.threads == s.threads[id := t.threads[id]]
      && t.threads[id].events == s.threads[id].events && t.threads[id].summary.id == s.threads[id].summary.id
      && t.jobToThread == s.jobToThread[j := id]
  {
  }

  /** Assigning a fresh job and appending its first event is one extension. */
  lemma FirstEventExtends(s: Store, id: string, j: string, first: Event)
    requires id in s.threads && id != "" && j !in s.jobToThread && j != "" && first.jobId == j
    ensures Extended(s, AppendEvent(AssignJob(s, id, j), id, first), id, j, first.kind)
  {
    hide AppendEvent, AssignJob, JobIds, JobLog;
    AssignedThreads(s, id, j);
    AppendRecord(AssignJob(s, id, j), id, first);
  }

  /** A fresh job, once its first event is posted. */
  lemma RecordJobOk(s: State, e: Envelope, w: World, id: string, prompt: string,
                    taskId: string, files: seq<FilePatch>, first: Event)
    requires Inv(s) && id in s.store.threads && id != "" && w.jobId !in s.store.jobToThread && w.jobId != ""
    requires first.jobId == w.jobId
    ensures
      var t := Post(RecordJob(s, e, w, id, prompt, taskId, files), w.second, id, first);
      && LogsBut(t.store, w.jobId) && JobsOk(t) && JobFiled(t.store, w.jobId)
      && t.store.jobToThread[w.jobId] == id && LogOf(t.store, w.jobId) == [first.kind]
  {
    hide AppendEvent, AssignJob, LogsOk, LogsBut, LogOf, Extended, HumanizeEventKind, PatchFilePaths;
    var c := Complete(first, id, w.second.eventId, w.second.now);
    OthersStarted(s.store, w.jobId);
    FirstEventExtends(s.store, id, w.jobId, c);
    ExtendedOk(s.store, AppendEvent(AssignJob(s.store, id, w.jobId), id, c), id, w.jobId, c.kind);
    ExtendedIndex(s.store, AppendEvent(AssignJob(s.store, id, w.jobId), id, c), id, w.jobId, c.kind);
  }

  lemma ExtendedIndex(s: Store, t: Store, id: string, j: string, kind: string)
    requires Extended(s, t, id, j, kind)
    ensures t.jobToThread == s.jobToThread[j := id]
  {
  }

  // ----- the handlers -----

  lemma StartedGrows(kinds: seq<string>)
    requires Started(kinds)
    ensures Started(kinds + ["run_requested"])
    ensures Started(kinds + ["run_requested"] + ["run_finished"])
    ensures Started(kinds + ["patch_apply_requested"] + ["patch_applied"])
  {
    var body := kinds[2..];
    var run := body + ["run_requested"];
    assert (kinds + ["run_requested"])[2..] == run && run[..|body|] == body;
    var ran := body + ["run_requested", "run_finished"];
    assert (kinds + ["run_requested"] + ["run_finished"])[2..] == ran && ran[..|body|] == body;
    var applied := body + ["patch_apply_requested", "patch_applied"];
    assert (kinds + ["patch_apply_requested"] + ["patch_applied"])[2..] == applied && applied[..|body|] == body;
  }

  /** Fresh names from the clock, and every thread has a name. */
  predicate WorldOk(s: State, w: World) {
    w.jobId !in s.store.jobToThread && w.jobId != "" && w.threadId != ""
  }

  lemma StartJobOk(s: State, e: Envelope, w: World, id: string, prompt: string, taskId: string, patch: Patch)
    requires Inv(s) && id in s.store.threads && id != "" && WorldOk(s, w)
    ensures
      var t := StartJob(s, e, w, id, prompt, taskId, patch);
      && Inv(t) && JobFiled(t.store, w.jobId) && t.store.jobToThread[w.jobId] == id
      && LogOf(t.store, w.jobId) == ["prompt_accepted"] + ["patch_ready"]
  {
    hide Post, RecordJob, LogsOk, LogsBut, LogOf, JobIds, JobsOk;
    var accepted, ready := Accepted(w.jobId, taskId), Ready(w.jobId, patch.summary);
    RecordJobOk(s, e, w, id, prompt, taskId, patch.files, accepted);
    var t := Post(RecordJob(s, e, w, id, prompt, taskId, patch.files), w.second, id, accepted);
    PostJob(t, w.third, w.jobId, ready);
    JustStarted(["prompt_accepted"] + ["patch_ready"]);
    Closed(Post(t, w.third, id, ready).store, w.jobId);
  }

  lemma JustStarted(kinds: seq<string>)
    requires kinds == ["prompt_accepted"] + ["patch_ready"]
    ensures Started(kinds)
  {
  }

  lemma SubmitOk(s: State, e: Envelope, w: World, id: string, prompt: string)
    requires Inv(s) && WorldOk(s, w) && id in s.store.threads && id != ""
    ensures Inv(SubmitPrompt(s, e, w, id, prompt).state)
  {
    hide Inv, Post, StartJob;
    CounterAside(s);
    if w.context.Ok? {
      var submitted := Submitted(prompt, w.context.value);
      PostPlain(s, w.first, id, submitted);
      var s1 := Post(s, w.first, id, submitted);
      CounterAside(s1);
      if w.task.Ok? && w.patch.Ok? && w.patch.value.Some? {
        var patch := w.patch.value.value;
        StartJobOk(s1, e, w, id, prompt, w.task.value, patch);
        CounterAside(StartJob(s1, e, w, id, prompt, w.task.value, patch));
      }
    }
  }

  /** The counter has nothing to do with the logs. */
  lemma CounterAside(s: State)
    ensures forall n: nat :: Inv(s.(seqNo := n)) == Inv(s)
  {
    hide LogsOk;
  }

  lemma PromptOk(s: State, e: Envelope, w: World)
    requires Inv(s) && WorldOk(s, w)
    ensures Inv(HandlePromptSubmit(s, e, w).state)
  {
    hide Inv, OpenThread, SubmitPrompt;
    CounterAside(s);
    if e.payload.Members? && TextMember(e.payload, "prompt") != "" {
      var prompt := TextMember(e.payload, "prompt");
      var id := ThreadIdOf(TextMember(e.payload, "threadId"), w.threadId);
      OpenThreadOk(s, e, w, id, prompt);
      SubmitOk(OpenThread(s, e, w, id, prompt), e, w, id, prompt);
    }
  }

  /** A prompt the adapter answers with a patch makes a job, whose log is the acceptance and the patch. */
  lemma PromptStartsJob(s: State, e: Envelope, w: World)
    requires Inv(s) && WorldOk(s, w) && e.Valid() && e.kind == "PROMPT_SUBMIT" && e.payload.Members?
    requires TextMember(e.payload, "prompt") != ""
    requires w.context.Ok? && w.task.Ok? && w.patch.Ok? && w.patch.value.Some?
    ensures
      var o := HandleEnvelope(s, e, w);
      && o.error.None? && JobFiled(o.state.store, w.jobId)
      && o.state.store.jobToThread[w.jobId] == ThreadIdOf(TextMember(e.payload, "threadId"), w.threadId)
      && LogOf(o.state.store, w.jobId) == ["prompt_accepted"] + ["patch_ready"]
  {
    hide Inv, Post, OpenThread, StartJob, JobIds, LogOf;
    var prompt := TextMember(e.payload, "prompt");
    var id := ThreadIdOf(TextMember(e.payload, "threadId"), w.threadId);
    OpenThreadOk(s, e, w, id, prompt);
    var s1 := OpenThread(s, e, w, id, prompt);
    var submitted := Submitted(prompt, w.context.value);
    PostPlain(s1, w.first, id, submitted);
    StartJobOk(Post(s1, w.first, id, submitted), e, w, id, prompt, w.task.value, w.patch.value.value);
  }

  lemma FiledJob(s: Store, j: string)
    requires LogsOk(s) && j in s.jobToThread
    ensures JobFiled(s, j) && Started(LogOf(s, j))
  {
    hide ThreadsOk, Started;
    assert JobFiled(s, j) && j != "";
    assert JobStarted(s, j);
  }

  lemma KnownJob(s: State, j: string)
    requires Inv(s) && j in s.jobs
    ensures s.jobs[j].id == j && j in s.store.jobToThread && s.jobs[j].threadId == s.store.jobToThread[j]
    ensures LogsOk(s.store) && JobsOk(s) && LogsBut(s.store, j) && JobFiled(s.store, j) && Started(LogOf(s.store, j))
  {
    hide LogsOk, LogsBut, JobIds, Started;
    FiledJob(s.store, j);
    OthersStarted(s.store, j);
  }

  lemma SetJobStateOk(s: State, j: string, state: string)
    requires JobsOk(s)
    ensures JobsOk(SetJobState(s, j, state)) && SetJobState(s, j, state).store == s.store
  {
  }

  lemma ApplyOk(s: State, e: Envelope, w: World)
    requires Inv(s)
    ensures Inv(HandlePatchApply(s, e, w).state)
  {
    hide LogsOk, LogsBut, JobsOk, Post, SetJobState, LogOf, Started, JobIds;
    CounterAside(s);
    if e.payload.Members? && TextMember(e.payload, "jobId") in s.jobs {
      var j, mode := TextMember(e.payload, "jobId"), TextMember(e.payload, "mode");
      KnownJob(s, j);
      StartedGrows(LogOf(s.store, j));
      var id, asked := s.jobs[j].threadId, ApplyRequested(j, mode);
      PostJob(s, w.first, j, asked);
      var s1 := Post(s, w.first, id, asked);
      match w.apply {
        case Err(message) =>
          var failed := Applied(j, "패치 적용 실패", "failed", message);
          PostJob(s1, w.second, j, failed);
          Closed(Post(s1, w.second, id, failed).store, j);
          CounterAside(Post(s1, w.second, id, failed));
        case Ok((status, message)) =>
          var done := Applied(j, "패치 적용 결과", status, message);
          var s2 := SetJobState(s1, j, "applied");
          SetJobStateOk(s1, j, "applied");
          PostJob(s2, w.second, j, done);
          Closed(Post(s2, w.second, id, done).store, j);
          CounterAside(Post(s2, w.second, id, done));
      }
    }
  }

  lemma RunJobOk(s: State, e: Envelope, w: World, j: string, profileId: string)
    requires Inv(s) && j in s.jobs && profileId in w.profiles
    ensures Inv(RunJob(s, e, w, j, profileId).state)
  {
    hide LogsOk, LogsBut, JobsOk, Post, SetJobState, LogOf, Started, JobIds, FirstNonEmptyText;
    KnownJob(s, j);
    StartedGrows(LogOf(s.store, j));
    var id, asked := s.jobs[j].threadId, RunRequested(j, profileId, w.profiles[profileId]);
    PostJob(s, w.first, j, asked);
    var s1 := Post(s, w.first, id, asked);
    Closed(s1.store, j);
    CounterAside(s1);
    if w.run.Ok? && w.runResult.Ok? && w.runResult.value.Some? {
      var done := RunFinished(j, profileId, w.runResult.value.value);
      var s2 := SetJobState(s1, j, "completed");
      SetJobStateOk(s1, j, "completed");
      PostJob(s2, w.second, j, done);
      Closed(Post(s2, w.second, id, done).store, j);
      CounterAside(Post(s2, w.second, id, done));
    }
  }

  lemma RunProfileOk(s: State, e: Envelope, w: World)
    requires Inv(s)
    ensures Inv(HandleRunProfile(s, e, w).state)
  {
    hide Inv, RunJob;
    CounterAside(s);
    if e.payload.Members? && TextMember(e.payload, "jobId") in s.jobs
       && TextMember(e.payload, "profileId") in w.profiles {
      RunJobOk(s, e, w, TextMember(e.payload, "jobId"), TextMember(e.payload, "profileId"));
    }
  }

  lemma HandleOk(s: State, e: Envelope, w: World)
    requires Inv(s) && WorldOk(s, w)
    ensures Inv(HandleEnvelope(s, e, w).state)
  {
    hide Inv, HandlePromptSubmit, HandlePatchApply, HandleRunProfile, Envelope.Problem;
    CounterAside(s);
    PromptOk(s, e, w);
    ApplyOk(s, e, w);
    RunProfileOk(s, e, w);
  }

  // ----- every run, restarts included -----

  ghost predicate FreshNames(inputs: seq<Input>) {
    forall i :: 0 <= i < |inputs| && inputs[i].Request? ==> WorldOk(After(inputs[..i]), inputs[i].w)
  }

  lemma LogsAreIndexed(s: Store)
    requires LogsOk(s)
    ensures ThreadStore.Filed(s.threads) && Indexed(s)
  {
    hide JobIds, Started, Less;
    forall id | id in s.threads
      ensures s.threads[id].summary.id == id && Named(s.threads[id]) == JobIds(s.threads[id].events)
    {
      assert ThreadOk(s, id, s.threads[id]);
    }
    forall j | j in s.jobToThread ensures Names(s, s.jobToThread[j], j) { assert JobFiled(s, j); }
    forall id, j | Names(s, id, j) ensures j in s.jobToThread && s.jobToThread[j] == id && !Less(id, id) {
      assert ThreadOk(s, id, s.threads[id]);
      NotBelowItself(id);
    }
  }

  lemma NextOk(s: State, i: Input)
    requires Inv(s) && (i.Request? ==> WorldOk(s, i.w))
    ensures Inv(Next(s, i))
  {
    hide LogsOk, HandleEnvelope, Load, Indexed, ThreadStore.Filed, IsSnapshot;
    if i.Request? {
      HandleOk(s, i.e, i.w);
    } else if Restarts(s, i) {
      LogsAreIndexed(s.store);
      SnapshotLoadIndex(s.store, i.details);
    }
  }

  lemma {:induction false} RunOk(inputs: seq<Input>)
    requires FreshNames(inputs)
    ensures Inv(After(inputs))
  {
    hide Inv, Next, WorldOk;
    if inputs == [] {
      NothingLogged();
    } else {
      var before := inputs[..|inputs| - 1];
      assert forall i :: 0 <= i < |before| ==> before[..i] == inputs[..i];
      RunOk(before);
      NextOk(After(before), inputs[|inputs| - 1]);
    }
  }

  lemma NothingLogged()
    ensures Inv(START)
  {
  }

  /** No thread but its own says anything about a job. */
  lemma NowhereElse(s: Store, j: string, id: string)
    requires LogsOk(s) && j in s.jobToThread && id in s.threads && id != s.jobToThread[j]
    ensures JobLog(s.threads[id].events, j) == []
  {
    hide JobIds, JobLog, JobStarted;
    assert JobFiled(s, j);
    assert ThreadOk(s, id, s.threads[id]);
    NotNamedNotLogged(s.threads[id].events, j);
  }

  /** What a job's log looks like after it was started. */
  ghost predicate Matched(log: seq<string>) {
    && Started(log)
    && var body := log[2..];
       && Count(body, "patch_applied") == Count(body, "patch_apply_requested")
       && forall i :: 0 <= i <= |body| ==>
            && Count(body[..i], "patch_applied") <= Count(body[..i], "patch_apply_requested")
            && Count(body[..i], "run_finished") <= Count(body[..i], "run_requested")
  }

  lemma StartedIsMatched(log: seq<string>)
    requires Started(log)
    ensures Matched(log)
  {
    hide Blocks, Count;
    var body := log[2..];
    BlocksMatch(body);
    forall i | 0 <= i <= |body|
      ensures Count(body[..i], "patch_applied") <= Count(body[..i], "patch_apply_requested")
      ensures Count(body[..i], "run_finished") <= Count(body[..i], "run_requested")
    {
      BlocksPrefix(body, i);
    }
  }

  /**
   For any adapter behaviour and any restarts: a job the store names lives in one thread; its log there starts with
   prompt_accepted and patch_ready; results of applying match the requests one for one, failures included, and each
   run result has its own earlier request; no other thread mentions the job; and a process that knows the job has
   it in that thread.
   */
  lemma CausalLogs(inputs: seq<Input>, j: string)
    requires FreshNames(inputs) && j in After(inputs).store.jobToThread
    ensures
      var s := After(inputs);
      var home := s.store.jobToThread[j];
      && home in s.store.threads
      && Matched(LogOf(s.store, j))
      && (forall id :: id in s.store.threads && id != home ==> JobLog(s.store.threads[id].events, j) == [])
      && (j in s.jobs ==> s.jobs[j].threadId == home)
  {
    hide After, LogsOk, Started, JobIds, JobLog, Matched;
    RunOk(inputs);
    var s := After(inputs);
    FiledJob(s.store, j);
    StartedIsMatched(LogOf(s.store, j));
    forall id | id in s.store.threads && id != s.store.jobToThread[j]
      ensures JobLog(s.store.threads[id].events, j) == []
    {
      NowhereElse(s.store, j, id);
    }
  }

  /** A restart loses nothing of the store: any snapshot of a reachable store loads back to it, index included. */
  lemma RestartRestoresStore(inputs: seq<Input>, details: seq<Record>)
    requires FreshNames(inputs) && IsSnapshot(details, After(inputs).store.threads)
    ensures Load(details) == After(inputs).store
  {
    hide After, Indexed, Load, LogsOk, ThreadStore.Filed, IsSnapshot;
    RunOk(inputs);
    LogsAreIndexed(After(inputs).store);
    SnapshotLoadIndex(After(inputs).store, details);
  }
}
