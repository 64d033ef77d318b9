/** What each command does: what the phone is told, what the thread logs, and what the job becomes. */
module Responses {
  import opened Common
  import opened Protocol
  import opened ThreadStore
  import opened Orchestrator

  // ----- logs -----

  function Log(s: Store, id: string): seq<Event> {
    if id in s.threads then s.threads[id].events else []
  }

  predicate Entry(e: Event, jobId: string, kind: string, body: string) {
    e.jobId == jobId && e.kind == kind && e.body == body
  }

  /** The text an event's data holds under a key. */
  function Told(e: Event, key: string): Option<string> {
    if key in e.data && e.data[key].Str? then Some(e.data[key].text) else None
  }

  /** The log has grown by `n` events; what was there stays. */
  predicate Grown(before: seq<Event>, after: seq<Event>, n: nat) {
    |after| == |before| + n && after[..|before|] == before
  }

  /** Posting adds the event to its thread as it was made, and touches no other. */
  lemma PostAppends(s: State, at: Stamp, id: string, e: Event)
    requires id in s.store.threads
    ensures
      var t := Post(s, at, id, e);
      && id in t.store.threads && t.jobs == s.jobs && t.seqNo == s.seqNo
      && Grown(Log(s.store, id), Log(t.store, id), 1)
      && (forall other :: other != id ==> Log(t.store, other) == Log(s.store, other))
      && var c := Log(t.store, id)[|Log(s.store, id)|];
         Entry(c, e.jobId, e.kind, e.body) && c.data == e.data
  {
    hide NextState, FirstNonEmptyText, HumanizeEventKind;
  }

  lemma GrownTwice(a: seq<Event>, b: seq<Event>, c: seq<Event>, m: nat, n: nat)
    requires Grown(a, b, m) && Grown(b, c, n)
    ensures Grown(a, c, m + n) && forall i :: 0 <= i < |b| ==> c[i] == b[i]
  {
    assert c[..|a|] == c[..|b|][..|a|];
  }

  /** The first reply: an ack for this request. */
  predicate Acked(e: Envelope, o: Outcome, accepted: bool, message: string) {
    && o.replies != [] && o.replies[0].kind == "CMD_ACK" && o.replies[0].body == Ack(e.rid, accepted, message)
    && forall r :: r in o.replies ==> r.sid == e.sid
  }

  // ----- which handler -----

  lemma Dispatch(s: State, e: Envelope, w: World)
    requires e.Valid()
    ensures e.kind == "PROMPT_SUBMIT" ==> HandleEnvelope(s, e, w) == HandlePromptSubmit(s, e, w)
    ensures e.kind == "PATCH_APPLY" ==> HandleEnvelope(s, e, w) == HandlePatchApply(s, e, w)
    ensures e.kind == "RUN_PROFILE" ==> HandleEnvelope(s, e, w) == HandleRunProfile(s, e, w)
    ensures e.kind == "OPEN_LOCATION" ==> HandleEnvelope(s, e, w) == HandleOpenLocation(s, e, w)
  {
    hide HandlePromptSubmit, HandlePatchApply, HandleRunProfile, HandleOpenLocation, AckFail;
  }

  // ----- applying a patch -----

  /** What the adapter says about applying a patch; an error is a failure with its text. */
  function ApplyVerdict(w: World): (string, string) {
    match w.apply
    case Err(message) => ("failed", message)
    case Ok(verdict) => verdict
  }

  ghost predicate PatchApplied(s: State, e: Envelope, w: World, o: Outcome, jobId: string)
    requires jobId in s.jobs && e.payload.Members?
  {
    var job, (status, message) := s.jobs[jobId], ApplyVerdict(w);
    var before, after := Log(s.store, job.threadId), Log(o.state.store, job.threadId);
    && o.error == (if w.apply.Err? then Some(message) else None)
    && Acked(e, o, w.apply.Ok?, if w.apply.Err? then message else "patch apply queued")
    && |o.replies| == 2 && o.replies[1].kind == "PATCH_RESULT"
    && o.replies[1].body == PatchResult(jobId, status, message)
    && o.state.jobs == (if w.apply.Err? then s.jobs else s.jobs[jobId := job.(state := "applied")])
    && Grown(before, after, 2)
    && Entry(after[|before|], job.id, "patch_apply_requested", "mode=" + TextMember(e.payload, "mode"))
    && Entry(after[|before| + 1], job.id, "patch_applied", message)
    && Told(after[|before| + 1], "status") == Some(status)
    && forall other :: other != job.threadId ==> Log(o.state.store, other) == Log(s.store, other)
  }

  lemma ApplyResponds(s: State, e: Envelope, w: World, jobId: string)
    requires e.Valid() && e.payload.Members? && jobId == TextMember(e.payload, "jobId") && jobId in s.jobs
    requires s.jobs[jobId].threadId in s.store.threads
    ensures PatchApplied(s, e, w, HandlePatchApply(s, e, w), jobId)
  {
    hide Post, Log, Grown, NewId, Envelope.Valid;
    var job := s.jobs[jobId];
    var id, asked := job.threadId, ApplyRequested(job.id, TextMember(e.payload, "mode"));
    PostAppends(s, w.first, id, asked);
    var s1 := Post(s, w.first, id, asked);
    var s2, done := s1, Applied(job.id, "패치 적용 실패", "failed", ApplyVerdict(w).1);
    if w.apply.Ok? {
      s2, done := SetJobState(s1, jobId, "applied"), Applied(job.id, "패치 적용 결과", w.apply.value.0, w.apply.value.1);
    }
    PostAppends(s2, w.second, id, done);
    GrownTwice(Log(s.store, id), Log(s1.store, id), Log(Post(s2, w.second, id, done).store, id), 1, 1);
    GrownLength(Log(s.store, id), Log(s1.store, id), 1);
  }

  lemma GrownLength(a: seq<Event>, b: seq<Event>, n: nat)
    requires Grown(a, b, n)
    ensures |b| == |a| + n
  {
  }

  /**
   A request to apply a known job's patch: the adapter's verdict is what the phone is told, what the error is and what
   the thread logs after the request; only a success changes the job, and no other thread changes.
   */
  lemma PatchResultIsLogged(s: State, e: Envelope, w: World)
    requires e.Valid() && e.kind == "PATCH_APPLY" && e.payload.Members? && TextMember(e.payload, "jobId") in s.jobs
    requires s.jobs[TextMember(e.payload, "jobId")].threadId in s.store.threads
    ensures PatchApplied(s, e, w, HandleEnvelope(s, e, w), TextMember(e.payload, "jobId"))
  {
    hide HandlePatchApply, HandleEnvelope, PatchApplied;
    Dispatch(s, e, w);
    ApplyResponds(s, e, w, TextMember(e.payload, "jobId"));
  }

  // ----- running a profile -----

  /** Why a run gives no result, if it gives none: what the ack says, and the error. */
  function RunFault(w: World): Option<(string, string)> {
    if w.run.Err? then Some(("run profile execution failed", w.run.message))
    else if w.runResult.Err? then Some(("failed to fetch run result", w.runResult.message))
    else if w.runResult.value.None? then Some(("run result is empty", "run result is nil"))
    else None
  }

  /** The outcome of a fault: a negative ack alone, and the error. */
  predicate Faulted(e: Envelope, o: Outcome, fault: (string, string)) {
    |o.replies| == 1 && Acked(e, o, false, fault.0) && o.error == Some(fault.1)
  }

  ghost predicate ProfileRun(s: State, e: Envelope, w: World, o: Outcome, jobId: string, profileId: string)
    requires jobId in s.jobs
  {
    var job := s.jobs[jobId];
    var before, after := Log(s.store, job.threadId), Log(o.state.store, job.threadId);
    && |after| > |before| && after[..|before|] == before
    && after[|before|].jobId == job.id && after[|before|].kind == "run_requested"
    && Told(after[|before|], "profileId") == Some(profileId)
    && (forall other :: other != job.threadId ==> Log(o.state.store, other) == Log(s.store, other))
    && if RunFault(w).Some? then |after| == |before| + 1 && Faulted(e, o, RunFault(w).value) && o.state.jobs == s.jobs
       else RunTold(s, e, w, o, jobId, after)
  }

  /** The result the adapter gave is told and logged, with the patch's files where the run names none. */
  ghost predicate RunTold(s: State, e: Envelope, w: World, o: Outcome, jobId: string, log: seq<Event>)
    requires jobId in s.jobs && RunFault(w).None?
  {
    var job, run := s.jobs[jobId], w.runResult.value.value;
    var files := if run.changedFiles != [] then run.changedFiles else job.patchFiles;
    && |log| == |Log(s.store, job.threadId)| + 2
    && o.error == None && Acked(e, o, true, "run started")
    && |o.replies| == 2 && o.replies[1].kind == "RUN_RESULT"
    && o.replies[1].body == RunResult(jobId, run.(changedFiles := files))
    && o.state.jobs == s.jobs[jobId := job.(state := "completed")]
    && log[|log| - 1].jobId == job.id && log[|log| - 1].kind == "run_finished"
    && Told(log[|log| - 1], "status") == Some(run.status) && Told(log[|log| - 1], "summary") == Some(run.summary)
    && Told(log[|log| - 1], "output") == Some(run.output)
  }

  lemma RunFails(s: State, e: Envelope, w: World, jobId: string, profileId: string)
    requires e.Valid() && jobId in s.jobs && profileId in w.profiles && s.jobs[jobId].threadId in s.store.threads
    requires RunFault(w).Some?
    ensures ProfileRun(s, e, w, RunJob(s, e, w, jobId, profileId), jobId, profileId)
  {
    hide Post, Log, NewId, FirstNonEmptyText;
    var job := s.jobs[jobId];
    PostAppends(s, w.first, job.threadId, RunRequested(job.id, profileId, w.profiles[profileId]));
  }

  lemma RunSucceeds(s: State, e: Envelope, w: World, jobId: string, profileId: string)
    requires e.Valid() && jobId in s.jobs && profileId in w.profiles && s.jobs[jobId].threadId in s.store.threads
    requires RunFault(w).None?
    ensures ProfileRun(s, e, w, RunJob(s, e, w, jobId, profileId), jobId, profileId)
  {
    hide Post, Log, NewId, FirstNonEmptyText;
    var job, run := s.jobs[jobId], w.runResult.value.value;
    var id, asked := job.threadId, RunRequested(job.id, profileId, w.profiles[profileId]);
    PostAppends(s, w.first, id, asked);
    var s1 := Post(s, w.first, id, asked);
    var s2, done := SetJobState(s1, jobId, "completed"), RunFinished(job.id, profileId, run);
    PostAppends(s2, w.second, id, done);
    var t := Post(s2, w.second, id, done);
    GrownTwice(Log(s.store, id), Log(s1.store, id), Log(t.store, id), 1, 1);
    var files := if run.changedFiles != [] then run.changedFiles else job.patchFiles;
    assert WithFiles(run, job) == run.(changedFiles := files);
  }

  /**
   A request to run a profile for a known job: the request is logged; the adapter's result, if there is one, is what the
   phone is told and what the thread ends with, and completes the job; otherwise the adapter's reason is the error.
   */
  lemma RunResultIsLogged(s: State, e: Envelope, w: World, jobId: string, profileId: string)
    requires e.Valid() && e.kind == "RUN_PROFILE" && e.payload.Members?
    requires jobId == TextMember(e.payload, "jobId") && profileId == TextMember(e.payload, "profileId")
    requires jobId in s.jobs && profileId in w.profiles && s.jobs[jobId].threadId in s.store.threads
    ensures ProfileRun(s, e, w, HandleEnvelope(s, e, w), jobId, profileId)
  {
    hide HandleEnvelope, ProfileRun, RunJob, AckFail;
    Dispatch(s, e, w);
    if RunFault(w).Some? {
      RunFails(s, e, w, jobId, profileId);
    } else {
      RunSucceeds(s, e, w, jobId, profileId);
    }
  }

  // ----- submitting a prompt -----

  /** Why a prompt gives no job, if it gives none: what the ack says, and the error. */
  function PromptFault(w: World): Option<(string, string)> {
    if w.context.Err? then Some(("adapter get context failed", w.context.message))
    else if w.task.Err? then Some(("adapter submit task failed", w.task.message))
    else if w.patch.Err? then Some(("adapter get patch failed", w.patch.message))
    else if w.patch.value.None? then Some(("patch is not ready", "patch is nil"))
    else None
  }

  ghost predicate PromptDropped(s: State, e: Envelope, w: World, o: Outcome, id: string, prompt: string)
    requires PromptFault(w).Some?
  {
    var before, after := Log(s.store, id), Log(o.state.store, id);
    && Faulted(e, o, PromptFault(w).value) && o.state.jobs == s.jobs
    && if w.context.Err? then after == before
       else Grown(before, after, 1) && Entry(after[|before|], "", "prompt_submitted", prompt)
  }

  predicate PromptReplied(e: Envelope, w: World, o: Outcome, id: string)
    requires PromptFault(w).None?
  {
    && o.error == None && |o.replies| == 3 && Acked(e, o, true, "accepted")
    && o.replies[1].kind == "PROMPT_ACK" && o.replies[1].body == PromptAck(id, w.jobId, true, "task started")
    && o.replies[2].kind == "PATCH_READY" && o.replies[2].body == PatchReady(w.jobId, w.patch.value.value)
  }

  ghost predicate PromptLogged(s: State, e: Envelope, w: World, t: State, id: string, prompt: string)
    requires PromptFault(w).None?
  {
    var before, after, patch := Log(s.store, id), Log(t.store, id), w.patch.value.value;
    && t.jobs == s.jobs[w.jobId :=
         Job(w.jobId, id, e.sid, w.task.value, prompt, "patch_ready", PatchFilePaths(patch.files))]
    && Grown(before, after, 3)
    && Entry(after[|before|], "", "prompt_submitted", prompt)
    && after[|before| + 1].jobId == w.jobId && after[|before| + 1].kind == "prompt_accepted"
    && Told(after[|before| + 1], "taskId") == Some(w.task.value)
    && Entry(after[|before| + 2], w.jobId, "patch_ready", patch.summary)
  }

  lemma OpenKeepsLogs(s: State, e: Envelope, w: World, id: string, prompt: string)
    ensures
      var t := OpenThread(s, e, w, id, prompt);
      && id in t.store.threads && t.jobs == s.jobs
      && forall other :: Log(t.store, other) == Log(s.store, other)
  {
    hide NormalizeTitle;
  }

  lemma PromptFails(s: State, e: Envelope, w: World, id: string, prompt: string)
    requires e.Valid() && id in s.store.threads && PromptFault(w).Some?
    ensures PromptDropped(s, e, w, SubmitPrompt(s, e, w, id, prompt), id, prompt)
  {
    hide Post, Log, NewId, StartJob, PromptDone;
    if w.context.Ok? { PostAppends(s, w.first, id, Submitted(prompt, w.context.value)); }
  }

  lemma RecordKeepsLogs(s: State, e: Envelope, w: World, id: string, prompt: string, taskId: string,
                        files: seq<FilePatch>)
    requires id in s.store.threads
    ensures
      var t := RecordJob(s, e, w, id, prompt, taskId, files);
      id in t.store.threads && Log(t.store, id) == Log(s.store, id)
  {
    hide PatchFilePaths;
  }

  lemma StartLogs(s: State, e: Envelope, w: World, id: string, prompt: string)
    requires id in s.store.threads && PromptFault(w).None?
    ensures
      var s1 := Post(s, w.first, id, Submitted(prompt, w.context.value));
      PromptLogged(s, e, w, StartJob(s1, e, w, id, prompt, w.task.value, w.patch.value.value), id, prompt)
  {
    hide Post, Log, AssignJob, PatchFilePaths;
    var patch, task := w.patch.value.value, w.task.value;
    var submitted, accepted := Submitted(prompt, w.context.value), Accepted(w.jobId, task);
    var ready := Ready(w.jobId, patch.summary);
    PostAppends(s, w.first, id, submitted);
    var s1 := Post(s, w.first, id, submitted);
    RecordKeepsLogs(s1, e, w, id, prompt, task, patch.files);
    var s2 := RecordJob(s1, e, w, id, prompt, task, patch.files);
    PostAppends(s2, w.second, id, accepted);
    var s3 := Post(s2, w.second, id, accepted);
    PostAppends(s3, w.third, id, ready);
    var s4 := Post(s3, w.third, id, ready);
    GrownTwice(Log(s.store, id), Log(s1.store, id), Log(s3.store, id), 1, 1);
    GrownTwice(Log(s.store, id), Log(s3.store, id), Log(s4.store, id), 2, 1);
  }

  lemma DoneReplies(s: State, e: Envelope, w: World, id: string)
    requires PromptFault(w).None?
    ensures PromptReplied(e, w, PromptDone(s, e, w, id, w.patch.value.value), id)
    ensures PromptDone(s, e, w, id, w.patch.value.value).state == s.(seqNo := s.seqNo + 3)
  {
    hide NewId;
  }

  lemma PromptSucceeds(s: State, e: Envelope, w: World, id: string, prompt: string)
    requires id in s.store.threads && PromptFault(w).None?
    ensures
      var o := SubmitPrompt(s, e, w, id, prompt);
      PromptReplied(e, w, o, id) && PromptLogged(s, e, w, o.state, id, prompt)
  {
    hide Post, Log, StartJob, PromptDone, PromptReplied, Submitted, Grown, Entry, Told, PatchFilePaths;
    StartLogs(s, e, w, id, prompt);
    var s1 := Post(s, w.first, id, Submitted(prompt, w.context.value));
    DoneReplies(StartJob(s1, e, w, id, prompt, w.task.value, w.patch.value.value), e, w, id);
  }

  /**
   A prompt: the phone is told the thread, the job and the adapter's patch; the thread logs the prompt, its acceptance
   and the patch; the job remembers session, task ID, prompt and the patch's files. If the adapter fails, its
   reason is the error, there is no job, and at most the prompt is logged.
   */
  lemma PromptIsAnswered(s: State, e: Envelope, w: World, id: string, prompt: string)
    requires e.Valid() && e.kind == "PROMPT_SUBMIT" && e.payload.Members?
    requires prompt == TextMember(e.payload, "prompt") && prompt != ""
    requires id == if TextMember(e.payload, "threadId") != "" then TextMember(e.payload, "threadId") else w.threadId
    ensures
      var o := HandleEnvelope(s, e, w);
      if PromptFault(w).Some? then PromptDropped(s, e, w, o, id, prompt)
      else PromptReplied(e, w, o, id) && PromptLogged(s, e, w, o.state, id, prompt)
  {
    hide HandleEnvelope, OpenThread, SubmitPrompt, AckFail, Log, PatchFilePaths;
    Dispatch(s, e, w);
    var s1 := OpenThread(s, e, w, id, prompt);
    OpenKeepsLogs(s, e, w, id, prompt);
    if PromptFault(w).Some? {
      PromptFails(s1, e, w, id, prompt);
    } else {
      PromptSucceeds(s1, e, w, id, prompt);
    }
  }

  // ----- the rest -----

  /** Opening a location is only acked; the adapter's reason is the error. */
  lemma LocationIsOnlyAcked(s: State, e: Envelope, w: World)
    requires e.Valid() && e.kind == "OPEN_LOCATION" && e.payload.Members?
    ensures
      var o := HandleEnvelope(s, e, w);
      && o.state == s.(seqNo := s.seqNo + 1)
      && if w.open.Err? then Faulted(e, o, ("open location failed", w.open.message))
         else |o.replies| == 1 && Acked(e, o, true, "location opened") && o.error == None
  {
    hide HandleEnvelope, NewId;
    Dispatch(s, e, w);
  }

  /** Why a command is refused before anything is done, if it is: what the ack says, and the error. */
  function Refusal(s: State, e: Envelope, w: World): Option<(string, string)> {
    if !e.Valid() then Some(("invalid envelope: " + e.Problem(), e.Problem()))
    else if e.kind == "PROMPT_SUBMIT" then
      if !e.payload.Members? then Some(("invalid prompt payload", "decode payload"))
      else if TextMember(e.payload, "prompt") == "" then Some(("prompt is required", "prompt is required"))
      else None
    else if e.kind == "PATCH_APPLY" then
      if !e.payload.Members? then Some(("invalid patch apply payload", "decode payload"))
      else if TextMember(e.payload, "jobId") !in s.jobs then UnknownJob(e) else None
    else if e.kind == "RUN_PROFILE" then
      if !e.payload.Members? then Some(("invalid run profile payload", "decode payload"))
      else if TextMember(e.payload, "jobId") !in s.jobs then UnknownJob(e)
      else if TextMember(e.payload, "profileId") !in w.profiles then
        Some(("unknown run profile", "profile " + TextMember(e.payload, "profileId") + " not found"))
      else None
    else if e.kind == "OPEN_LOCATION" then
      if !e.payload.Members? then Some(("invalid open location payload", "decode payload")) else None
    else Some(("unsupported message type", "unsupported message type"))
  }

  function UnknownJob(e: Envelope): Option<(string, string)>
    requires e.payload.Members?
  {
    Some(("job not found", "job " + TextMember(e.payload, "jobId") + " not found"))
  }

  /** The ack of a refusal names the session and the request, or stands in for what the envelope leaves out. */
  predicate Refused(s: State, e: Envelope, w: World, o: Outcome, fault: (string, string)) {
    && o.state == s.(seqNo := s.seqNo + 1) && o.error == Some(fault.1) && |o.replies| == 1
    && o.replies[0].sid == (if e.sid != "" then e.sid else "unknown")
    && o.replies[0].body == Ack(if e.rid != "" then e.rid else "rid_" + w.nanos, false, fault.0)
  }

  lemma FailIsRefusal(s: State, e: Envelope, w: World, message: string, error: string)
    ensures Refused(s, e, w, AckFail(s, e, w, message, error), (message, error))
  {
    assert NewId("rid", w.nanos) == "rid_" + w.nanos;
  }

  /** A refused command has no effect but its negative ack. */
  lemma RefusedChangesNothing(s: State, e: Envelope, w: World)
    requires Refusal(s, e, w).Some?
    ensures Refused(s, e, w, HandleEnvelope(s, e, w), Refusal(s, e, w).value)
  {
    hide AckFail, OpenThread, SubmitPrompt, RunJob, Post, Refused, Envelope.Problem;
    var fault := Refusal(s, e, w).value;
    FailIsRefusal(s, e, w, fault.0, fault.1);
  }
}
