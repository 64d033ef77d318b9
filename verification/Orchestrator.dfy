/**
 The orchestrator: each command envelope is handled as one step against an adapter whose answers are
 arbitrary, and the thread store records what happened.
 */
module Orchestrator {
  import opened Common
  import opened Protocol
  import opened ThreadStore

  datatype Job = Job(id: string, threadId: string, sessionId: string, taskId: string, prompt: string, state: string,
                     patchFiles: seq<string>)

  datatype State = State(store: Store, jobs: map<string, Job>, seqNo: nat)

  const START := State(EMPTY, map[], 0)
  const CMD_ACK := "CMD_ACK"

  /** A changed file as the adapter describes it; `rest` is passed on untouched. */
  datatype FilePatch = FilePatch(path: string, rest: string)

  datatype Patch = Patch(summary: string, files: seq<FilePatch>)

  datatype RunInfo = RunInfo(profileId: string, status: string, summary: string, topErrors: seq<string>,
                             excerpt: string, output: string, changedFiles: seq<string>)

  datatype Body =
    | Ack(requestRid: string, accepted: bool, message: string)
    | PromptAck(threadId: string, jobId: string, accepted: bool, message: string)
    | PatchReady(jobId: string, patch: Patch)
    | PatchResult(jobId: string, status: string, message: string)
    | RunResult(jobId: string, run: RunInfo)

  datatype Reply = Reply(sid: string, rid: string, seqNo: nat, kind: string, body: Body)

  datatype Outcome = Outcome(state: State, replies: seq<Reply>, error: Option<string>)

  datatype Profile = Profile(title: string, command: string)

  /** What the clock says when an event is stored. */
  datatype Stamp = Stamp(eventId: string, now: int)

  /** What the adapter, the clock and the configuration answer while one envelope is handled. */
  datatype World = World(
    context: Result<Data>, task: Result<string>, patch: Result<Option<Patch>>,
    apply: Result<(string, string)>, run: Result<string>, runResult: Result<Option<RunInfo>>, open: Result<()>,
    profiles: map<string, Profile>, jobId: string, threadId: string, nanos: string, now: int,
    first: Stamp, second: Stamp, third: Stamp)

  // ----- events -----

  function NewEvent(jobId: string, kind: string, role: string, title: string, body: string, data: Data): Event {
    Event("", "", jobId, kind, role, title, body, data, 0)
  }

  function Post(s: State, at: Stamp, threadId: string, e: Event): State {
    s.(store := AppendEvent(s.store, threadId, Complete(e, threadId, at.eventId, at.now)))
  }

  function Submitted(prompt: string, context: Data): Event {
    NewEvent("", "prompt_submitted", "user", "프롬프트 제출", prompt, context)
  }

  function Accepted(jobId: string, taskId: string): Event {
    NewEvent(jobId, "prompt_accepted", "system", "작업 시작", "프롬프트를 받아 패치를 생성합니다.",
             map["taskId" := Str(taskId), "message" := Str("task started")])
  }

  function Ready(jobId: string, summary: string): Event {
    NewEvent(jobId, "patch_ready", "assistant", "패치 준비 완료", summary,
             map["jobId" := Str(jobId), "summary" := Str(summary), "fileCount" := NotText, "files" := NotText])
  }

  function ApplyRequested(jobId: string, mode: string): Event {
    NewEvent(jobId, "patch_apply_requested", "user", "패치 적용 요청", "mode=" + mode,
             map["mode" := Str(mode), "selectedCount" := NotText])
  }

  function Applied(jobId: string, title: string, status: string, message: string): Event {
    NewEvent(jobId, "patch_applied", "system", title, message, map["status" := Str(status), "message" := Str(message)])
  }

  function RunRequested(jobId: string, profileId: string, profile: Profile): Event {
    NewEvent(jobId, "run_requested", "user", "실행 요청", FirstNonEmptyText(profile.title, profileId),
             map["profileId" := Str(profileId), "label" := Str(profile.title), "command" := Str(profile.command)])
  }

  function RunFinished(jobId: string, profileId: string, r: RunInfo): Event {
    NewEvent(jobId, "run_finished", "system", "실행 결과", FirstNonEmptyText(r.summary, r.excerpt),
             map["profileId" := Str(profileId), "status" := Str(r.status), "summary" := Str(r.summary),
                 "excerpt" := Str(r.excerpt), "output" := Str(r.output),
                 "topErrors" := NotText, "changedFiles" := NotText])
  }

  // ----- the files of a patch -----

  /** patchFilePaths: the non-empty paths, each once, in the order of their first appearance. */
  function PatchFilePaths(files: seq<FilePatch>): seq<string> {
    if files == [] then []
    else
      var before, path := PatchFilePaths(files[..|files| - 1]), files[|files| - 1].path;
      if path == "" || path in before then before else before + [path]
  }

  predicate NoRepeats(paths: seq<string>) {
    forall i, j :: 0 <= i < j < |paths| ==> paths[i] != paths[j]
  }

  /** Exactly the non-empty paths, none twice. */
  lemma {:induction false} PathsOfPatch(files: seq<FilePatch>)
    ensures NoRepeats(PatchFilePaths(files))
    ensures forall p :: p in PatchFilePaths(files) <==> p != "" && exists f :: f in files && f.path == p
  {
    if files != [] {
      var before, last := files[..|files| - 1], files[|files| - 1];
      PathsOfPatch(before);
      assert forall f :: f in files <==> f in before || f == last;
    }
  }

  /** The files seen so far settle the beginning of the list: paths come in the order of first appearance. */
  lemma {:induction false} PathsInOrder(files: seq<FilePatch>, n: nat)
    requires n <= |files|
    ensures PatchFilePaths(files[..n]) <= PatchFilePaths(files)
    decreases |files|
  {
    if n == |files| {
      assert files[..n] == files;
    } else {
      assert files[..|files| - 1][..n] == files[..n];
      PathsInOrder(files[..|files| - 1], n);
    }
  }

  // ----- replies -----

  function NewId(prefix: string, nanos: string): string { prefix + "_" + nanos }

  function CmdAck(sid: string, seqNo: nat, requestRid: string, accepted: bool, message: string): Reply {
    Reply(sid, requestRid + "_ack", seqNo, CMD_ACK, Ack(requestRid, accepted, message))
  }

  /** ackFail: a negative ack alone, with substitutes for a missing session or request ID. */
  function AckFail(s: State, e: Envelope, w: World, message: string, error: string): Outcome {
    var sid, rid := if e.sid == "" then "unknown" else e.sid, if e.rid == "" then NewId("rid", w.nanos) else e.rid;
    Outcome(s.(seqNo := s.seqNo + 1), [CmdAck(sid, s.seqNo + 1, rid, false, message)], Some(error))
  }

  // ----- handlers: the new state, the replies and the error of each branch -----

  /** The thread exists; no job is involved yet. */
  function OpenThread(s: State, e: Envelope, w: World, threadId: string, prompt: string): State {
    s.(store := EnsureThread(s.store, threadId, e.sid, prompt, w.now))
  }

  function RecordJob(s: State, e: Envelope, w: World, threadId: string,
                     prompt: string, taskId: string, files: seq<FilePatch>)
    : State
  {
    var job := Job(w.jobId, threadId, e.sid, taskId, prompt, "patch_ready", PatchFilePaths(files));
    s.(jobs := s.jobs[w.jobId := job], store := AssignJob(s.store, threadId, w.jobId))
  }

  /** The job is recorded, assigned to its thread, accepted and ready. */
  function StartJob(s: State, e: Envelope, w: World, threadId: string, prompt: string, taskId: string, patch: Patch)
    : State
  {
    var s1 := RecordJob(s, e, w, threadId, prompt, taskId, patch.files);
    Post(Post(s1, w.second, threadId, Accepted(w.jobId, taskId)), w.third, threadId, Ready(w.jobId, patch.summary))
  }

  function HandlePromptSubmit(s: State, e: Envelope, w: World): Outcome {
    if !e.payload.Members? then AckFail(s, e, w, "invalid prompt payload", "decode payload")
    else
      var prompt := TextMember(e.payload, "prompt");
      if prompt == "" then AckFail(s, e, w, "prompt is required", "prompt is required")
      else
        var threadId := ThreadIdOf(TextMember(e.payload, "threadId"), w.threadId);
        SubmitPrompt(OpenThread(s, e, w, threadId, prompt), e, w, threadId, prompt)
  }

  /** The rest of the handler, once the thread is there. */
  function SubmitPrompt(s: State, e: Envelope, w: World, threadId: string, prompt: string): Outcome {
    if w.context.Err? then AckFail(s, e, w, "adapter get context failed", w.context.message)
    else
      var s1 := Post(s, w.first, threadId, Submitted(prompt, w.context.value));
      if w.task.Err? then AckFail(s1, e, w, "adapter submit task failed", w.task.message)
      else if w.patch.Err? then AckFail(s1, e, w, "adapter get patch failed", w.patch.message)
      else if w.patch.value.None? then AckFail(s1, e, w, "patch is not ready", "patch is nil")
      else
        var patch := w.patch.value.value;
        PromptDone(StartJob(s1, e, w, threadId, prompt, w.task.value, patch), e, w, threadId, patch)
  }

  function PromptDone(s: State, e: Envelope, w: World, threadId: string, patch: Patch): Outcome {
    Outcome(s.(seqNo := s.seqNo + 3),
            [CmdAck(e.sid, s.seqNo + 1, e.rid, true, "accepted"),
             Reply(e.sid, NewId("prompt_ack", w.nanos), s.seqNo + 2, "PROMPT_ACK",
                   PromptAck(threadId, w.jobId, true, "task started")),
             Reply(e.sid, NewId("patch_ready", w.nanos), s.seqNo + 3, "PATCH_READY", PatchReady(w.jobId, patch))],
            None)
  }

  function SetJobState(s: State, jobId: string, state: string): State {
    if jobId in s.jobs then s.(jobs := s.jobs[jobId := s.jobs[jobId].(state := state)]) else s
  }

  function HandlePatchApply(s: State, e: Envelope, w: World): Outcome {
    if !e.payload.Members? then AckFail(s, e, w, "invalid patch apply payload", "decode payload")
    else
      var jobId := TextMember(e.payload, "jobId");
      if jobId !in s.jobs then AckFail(s, e, w, "job not found", "job " + jobId + " not found")
      else
        var job := s.jobs[jobId];
        var s1 := Post(s, w.first, job.threadId, ApplyRequested(job.id, TextMember(e.payload, "mode")));
        match w.apply
        case Err(message) =>
          ApplyFailed(
            Post(s1, w.second, job.threadId, Applied(job.id, "패치 적용 실패", "failed", message)), e, w, jobId, message)
        case Ok((status, message)) =>
          ApplyDone(Post(SetJobState(s1, jobId, "applied"), w.second, job.threadId,
                         Applied(job.id, "패치 적용 결과", status, message)), e, w, jobId, status, message)
  }

  function ApplyFailed(s: State, e: Envelope, w: World, jobId: string, message: string): Outcome {
    Outcome(s.(seqNo := s.seqNo + 2),
            [CmdAck(e.sid, s.seqNo + 1, e.rid, false, message),
             Reply(e.sid, NewId("patch_result", w.nanos), s.seqNo + 2, "PATCH_RESULT",
                   PatchResult(jobId, "failed", message))],
            Some(message))
  }

  function ApplyDone(s: State, e: Envelope, w: World, jobId: string, status: string, message: string): Outcome {
    Outcome(s.(seqNo := s.seqNo + 2),
            [CmdAck(e.sid, s.seqNo + 1, e.rid, true, "patch apply queued"),
             Reply(e.sid, NewId("patch_result", w.nanos), s.seqNo + 2, "PATCH_RESULT",
                   PatchResult(jobId, status, message))],
            None)
  }

  /** The changed files of a run: its own, or those of the patch when it names none. */
  function WithFiles(r: RunInfo, job: Job): RunInfo {
    if r.changedFiles == [] then r.(changedFiles := job.patchFiles) else r
  }

  function HandleRunProfile(s: State, e: Envelope, w: World): Outcome {
    if !e.payload.Members? then AckFail(s, e, w, "invalid run profile payload", "decode payload")
    else
      var jobId, profileId := TextMember(e.payload, "jobId"), TextMember(e.payload, "profileId");
      if jobId !in s.jobs then AckFail(s, e, w, "job not found", "job " + jobId + " not found")
      else if profileId !in w.profiles then
        AckFail(s, e, w, "unknown run profile", "profile " + profileId + " not found")
      else RunJob(s, e, w, jobId, profileId)
  }

  /** The rest of the handler, for a known job and profile. */
  function RunJob(s: State, e: Envelope, w: World, jobId: string, profileId: string): Outcome
    requires jobId in s.jobs && profileId in w.profiles
  {
    var job := s.jobs[jobId];
    var s1 := Post(s, w.first, job.threadId, RunRequested(job.id, profileId, w.profiles[profileId]));
    if w.run.Err? then AckFail(s1, e, w, "run profile execution failed", w.run.message)
    else if w.runResult.Err? then AckFail(s1, e, w, "failed to fetch run result", w.runResult.message)
    else if w.runResult.value.None? then AckFail(s1, e, w, "run result is empty", "run result is nil")
    else
      var result := w.runResult.value.value;
      RunDone(Post(SetJobState(s1, jobId, "completed"), w.second, job.threadId,
                   RunFinished(job.id, profileId, result)), e, w, jobId, WithFiles(result, job))
  }

  function RunDone(s: State, e: Envelope, w: World, jobId: string, result: RunInfo): Outcome {
    Outcome(s.(seqNo := s.seqNo + 2),
            [CmdAck(e.sid, s.seqNo + 1, e.rid, true, "run started"),
             Reply(e.sid, NewId("run_result", w.nanos), s.seqNo + 2, "RUN_RESULT", RunResult(jobId, result))],
            None)
  }

  function HandleOpenLocation(s: State, e: Envelope, w: World): Outcome {
    if !e.payload.Members? then AckFail(s, e, w, "invalid open location payload", "decode payload")
    else if w.open.Err? then AckFail(s, e, w, "open location failed", w.open.message)
    else OpenDone(s, e)
  }

  function OpenDone(s: State, e: Envelope): Outcome {
    Outcome(s.(seqNo := s.seqNo + 1), [CmdAck(e.sid, s.seqNo + 1, e.rid, true, "location opened")], None)
  }

  function HandleEnvelope(s: State, e: Envelope, w: World): Outcome {
    if !e.Valid() then AckFail(s, e, w, "invalid envelope: " + e.Problem(), e.Problem())
    else match e.kind
      case "PROMPT_SUBMIT" => HandlePromptSubmit(s, e, w)
      case "PATCH_APPLY" => HandlePatchApply(s, e, w)
      case "RUN_PROFILE" => HandleRunProfile(s, e, w)
      case "OPEN_LOCATION" => HandleOpenLocation(s, e, w)
      case _ => AckFail(s, e, w, "unsupported message type", "unsupported message type")
  }

  // ----- what every response is -----

  /** One CMD_ACK, placed first, for this request, accepted exactly when no error is returned. */
  predicate Acknowledged(e: Envelope, o: Outcome) {
    && o.replies != []
    && o.replies[0].kind == CMD_ACK && o.replies[0].body.Ack?
    && (e.rid != "" ==> o.replies[0].body.requestRid == e.rid)
    && (o.replies[0].body.accepted <==> o.error.None?)
    && forall i :: 1 <= i < |o.replies| ==> o.replies[i].kind != CMD_ACK && !o.replies[i].body.Ack?
  }

  /** The replies draw consecutive numbers and the counter ends at the last one. */
  predicate Numbered(seqNo: nat, o: Outcome) {
    && o.state.seqNo == seqNo + |o.replies|
    && forall i :: 0 <= i < |o.replies| ==> o.replies[i].seqNo == seqNo + 1 + i
  }

  /** Every reply is an envelope that its own validation lets through, so building it cannot fail. */
  predicate Deliverable(o: Outcome) {
    forall r :: r in o.replies ==> r.sid != "" && r.rid != "" && r.kind != ""
  }

  ghost predicate Answers(s: State, e: Envelope, o: Outcome) {
    Acknowledged(e, o) && Numbered(s.seqNo, o) && (e.sid != "" ==> Deliverable(o))
  }

  lemma AckFailAnswers(s: State, e: Envelope, w: World, message: string, error: string)
    ensures Answers(s, e, AckFail(s, e, w, message, error))
  {
  }

  lemma PromptDoneAnswers(s: State, e: Envelope, w: World, threadId: string, patch: Patch)
    ensures Answers(s, e, PromptDone(s, e, w, threadId, patch))
  {
  }

  lemma ApplyFailedAnswers(s: State, e: Envelope, w: World, jobId: string, message: string)
    ensures Answers(s, e, ApplyFailed(s, e, w, jobId, message))
  {
  }

  lemma ApplyDoneAnswers(s: State, e: Envelope, w: World, jobId: string, status: string, message: string)
    ensures Answers(s, e, ApplyDone(s, e, w, jobId, status, message))
  {
  }

  lemma RunDoneAnswers(s: State, e: Envelope, w: World, jobId: string, result: RunInfo)
    ensures Answers(s, e, RunDone(s, e, w, jobId, result))
  {
  }

  lemma OpenDoneAnswers(s: State, e: Envelope)
    ensures Answers(s, e, OpenDone(s, e))
  {
  }

  lemma SameCounter(s: State, t: State, e: Envelope, o: Outcome)
    requires t.seqNo == s.seqNo && Answers(t, e, o)
    ensures Answers(s, e, o)
  {
  }

  /** Every refusal of this request answers it, from whatever state with this counter. */
  lemma FailAnswers(s: State, e: Envelope, w: World)
    ensures forall t: State, message, error :: t.seqNo == s.seqNo ==> Answers(s, e, AckFail(t, e, w, message, error))
  {
    hide Answers, AckFail;
    forall t: State, message, error | t.seqNo == s.seqNo ensures Answers(s, e, AckFail(t, e, w, message, error)) {
      AckFailAnswers(t, e, w, message, error);
      SameCounter(s, t, e, AckFail(t, e, w, message, error));
    }
  }

  /** Only replies draw numbers. */
  lemma NothingElseDraws()
    ensures forall s, at, id, e :: Post(s, at, id, e).seqNo == s.seqNo && Post(s, at, id, e).jobs == s.jobs
    ensures forall s, jobId, state :: SetJobState(s, jobId, state).seqNo == s.seqNo
    ensures forall s, e, w, id, prompt :: OpenThread(s, e, w, id, prompt).seqNo == s.seqNo
    ensures forall s, e, w, id, prompt, task, patch :: StartJob(s, e, w, id, prompt, task, patch).seqNo == s.seqNo
  {
    hide EnsureThread, AppendEvent, AssignJob, Complete, Accepted, Ready;
  }

  lemma PromptAnswers(s: State, e: Envelope, w: World)
    ensures Answers(s, e, HandlePromptSubmit(s, e, w))
  {
    hide AckFail, Answers, OpenThread, SubmitPrompt;
    NothingElseDraws();
    FailAnswers(s, e, w);
    if e.payload.Members? {
      var prompt := TextMember(e.payload, "prompt");
      var id := ThreadIdOf(TextMember(e.payload, "threadId"), w.threadId);
      var s1 := OpenThread(s, e, w, id, prompt);
      SubmitAnswers(s1, e, w, id, prompt);
      SameCounter(s, s1, e, SubmitPrompt(s1, e, w, id, prompt));
    }
  }

  lemma SubmitAnswers(s: State, e: Envelope, w: World, id: string, prompt: string)
    ensures Answers(s, e, SubmitPrompt(s, e, w, id, prompt))
  {
    hide AckFail, Answers, PromptDone, Post, StartJob, Submitted;
    NothingElseDraws();
    FailAnswers(s, e, w);
    if w.context.Ok? && w.task.Ok? && w.patch.Ok? && w.patch.value.Some? {
      var patch := w.patch.value.value;
      var s1 := Post(s, w.first, id, Submitted(prompt, w.context.value));
      var t := StartJob(s1, e, w, id, prompt, w.task.value, patch);
      PromptDoneAnswers(t, e, w, id, patch);
      SameCounter(s, t, e, PromptDone(t, e, w, id, patch));
    }
  }

  lemma ApplyAnswers(s: State, e: Envelope, w: World)
    ensures Answers(s, e, HandlePatchApply(s, e, w))
  {
    hide AckFail, Answers, ApplyFailed, ApplyDone, Post, SetJobState, ApplyRequested, Applied;
    NothingElseDraws();
    FailAnswers(s, e, w);
    if e.payload.Members? && TextMember(e.payload, "jobId") in s.jobs {
      var jobId := TextMember(e.payload, "jobId");
      var job := s.jobs[jobId];
      var s1 := Post(s, w.first, job.threadId, ApplyRequested(job.id, TextMember(e.payload, "mode")));
      match w.apply
      case Err(message) =>
        var t := Post(s1, w.second, job.threadId, Applied(job.id, "패치 적용 실패", "failed", message));
        ApplyFailedAnswers(t, e, w, jobId, message);
        SameCounter(s, t, e, ApplyFailed(t, e, w, jobId, message));
      case Ok((status, message)) =>
        var t := Post(SetJobState(s1, jobId, "applied"), w.second, job.threadId,
                      Applied(job.id, "패치 적용 결과", status, message));
        ApplyDoneAnswers(t, e, w, jobId, status, message);
        SameCounter(s, t, e, ApplyDone(t, e, w, jobId, status, message));
    }
  }

  lemma RunAnswers(s: State, e: Envelope, w: World)
    ensures Answers(s, e, HandleRunProfile(s, e, w))
  {
    hide AckFail, Answers, RunJob;
    FailAnswers(s, e, w);
    if e.payload.Members? && TextMember(e.payload, "jobId") in s.jobs
       && TextMember(e.payload, "profileId") in w.profiles {
      RunJobAnswers(s, e, w, TextMember(e.payload, "jobId"), TextMember(e.payload, "profileId"));
    }
  }

  lemma RunJobAnswers(s: State, e: Envelope, w: World, jobId: string, profileId: string)
    requires jobId in s.jobs && profileId in w.profiles
    ensures Answers(s, e, RunJob(s, e, w, jobId, profileId))
  {
    hide AckFail, Answers, RunDone, Post, SetJobState, RunRequested, RunFinished, WithFiles;
    NothingElseDraws();
    FailAnswers(s, e, w);
    if w.runResult.Ok? && w.runResult.value.Some? {
      var job, result := s.jobs[jobId], w.runResult.value.value;
      var s1 := Post(s, w.first, job.threadId, RunRequested(job.id, profileId, w.profiles[profileId]));
      var t := Post(SetJobState(s1, jobId, "completed"), w.second, job.threadId,
                    RunFinished(job.id, profileId, result));
      RunDoneAnswers(t, e, w, jobId, WithFiles(result, job));
      SameCounter(s, t, e, RunDone(t, e, w, jobId, WithFiles(result, job)));
    }
  }

  /**
   On every branch of every handler: one ack, first, echoing the request, accepted exactly when the handler
   returns no error; consecutive numbers; and no reply that could not be built.
   */
  lemma OneAckFirst(s: State, e: Envelope, w: World)
    ensures Acknowledged(e, HandleEnvelope(s, e, w)) && Numbered(s.seqNo, HandleEnvelope(s, e, w))
    ensures Deliverable(HandleEnvelope(s, e, w))
  {
    hide AckFail, HandlePromptSubmit, HandlePatchApply, HandleRunProfile, OpenDone;
    hide Acknowledged, Numbered, Deliverable, Envelope.Problem;
    FailAnswers(s, e, w);
    PromptAnswers(s, e, w);
    ApplyAnswers(s, e, w);
    RunAnswers(s, e, w);
    OpenDoneAnswers(s, e);
    assert Answers(s, e, HandleEnvelope(s, e, w));
    if e.sid == "" { NamelessIsDeliverable(s, e, w, "invalid envelope: " + e.Problem(), e.Problem()); }
  }

  lemma NamelessIsDeliverable(s: State, e: Envelope, w: World, message: string, error: string)
    ensures Deliverable(AckFail(s, e, w, message, error))
  {
    assert forall rid: string :: (rid + "_ack")[|rid|] == '_';
  }

  // ----- runs -----

  /** A request, or a restart of the process from the snapshot on disk. */
  datatype Input = Request(e: Envelope, w: World) | Restart(details: seq<Record>)

  ghost predicate Restarts(s: State, i: Input) {
    i.Restart? && IsSnapshot(i.details, s.store.threads)
  }

  /** The store is loaded again; jobs and the counter are not saved. */
  ghost function Next(s: State, i: Input): State {
    if i.Request? then HandleEnvelope(s, i.e, i.w).state
    else if Restarts(s, i) then State(Load(i.details), map[], 0)
    else s
  }

  ghost function After(inputs: seq<Input>): State {
    if inputs == [] then START else Next(After(inputs[..|inputs| - 1]), inputs[|inputs| - 1])
  }

  /** All replies of the running process, in order. */
  ghost function Emitted(inputs: seq<Input>): seq<Reply> {
    if inputs == [] then []
    else
      var before, last := inputs[..|inputs| - 1], inputs[|inputs| - 1];
      if last.Request? then Emitted(before) + HandleEnvelope(After(before), last.e, last.w).replies
      else if Restarts(After(before), last) then [] else Emitted(before)
  }

  /** With handlers run one at a time, the n-th reply a process ever emits carries the number n. */
  lemma {:induction false} SequenceNumbersRise(inputs: seq<Input>)
    ensures |Emitted(inputs)| == After(inputs).seqNo
    ensures forall i :: 0 <= i < |Emitted(inputs)| ==> Emitted(inputs)[i].seqNo == i + 1
  {
    hide HandleEnvelope, Load, IsSnapshot;
    if inputs != [] {
      var before, last := inputs[..|inputs| - 1], inputs[|inputs| - 1];
      SequenceNumbersRise(before);
      if last.Request? { OneAckFirst(After(before), last.e, last.w); }
    }
  }
}
