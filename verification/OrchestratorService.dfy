/** The orchestrator as it runs: jobs, the sequence counter and the thread store updated between adapter calls. */
module OrchestratorService {
  import opened Common
  import opened Protocol
  import opened ThreadStore
  import opened Orchestrator

  lemma StoreStaysFiled(s: Store, id: string, e: Event, jobId: string, sessionId: string, title: string, now: int)
    requires Filed(s.threads)
    ensures Filed(EnsureThread(s, id, sessionId, title, now).threads)
    ensures Filed(AppendEvent(s, id, e).threads)
    ensures Filed(AssignJob(s, id, jobId).threads)
  {
    hide NormalizeTitle, FirstNonEmptyText, NextState;
  }

  lemma {:induction false} LoadedIsFiled(details: seq<Record>)
    ensures Filed(Load(details).threads)
  {
    if details != [] { LoadedIsFiled(details[..|details| - 1]); }
  }

  class Service {
    const store: LiveStore
    const profiles: map<string, Profile>
    var jobs: map<string, Job>
    var seqNo: nat

    ghost function Model(): State
      reads this, store
    {
      State(store.Model(), jobs, seqNo)
    }

    ghost predicate Valid()
      reads this, store
    {
      Filed(store.threads)
    }

    constructor (profiles: map<string, Profile>)
      ensures Valid() && Model() == START && this.profiles == profiles && fresh(store)
    {
      this.profiles := profiles;
      store := new LiveStore();
      jobs, seqNo := map[], 0;
    }

    /** A new process over the snapshot on disk: jobs and counter start afresh. */
    constructor Resume(profiles: map<string, Profile>, details: seq<Record>)
      ensures Valid() && Model() == State(Load(details), map[], 0) && this.profiles == profiles && fresh(store)
    {
      this.profiles := profiles;
      var loaded := new LiveStore();
      loaded.LoadFrom(details);
      LoadedIsFiled(details);
      store := loaded;
      jobs, seqNo := map[], 0;
    }

    method NextSeq() returns (n: nat)
      modifies this
      ensures n == old(seqNo) + 1 && Model() == old(Model()).(seqNo := n)
    {
      seqNo := seqNo + 1;
      n := seqNo;
    }

    method AppendTo(at: Stamp, threadId: string, e: Event)
      requires Valid()
      modifies store
      ensures Valid() && Model() == Post(old(Model()), at, threadId, e)
    {
      hide AppendEvent, Complete;
      StoreStaysFiled(store.Model(), threadId, Complete(e, threadId, at.eventId, at.now), "", "", "", 0);
      var _ := store.Append(threadId, e, at.eventId, at.now);
    }

    method SetState(jobId: string, state: string)
      modifies this
      ensures Model() == SetJobState(old(Model()), jobId, state)
    {
      if jobId in jobs {
        jobs := jobs[jobId := jobs[jobId].(state := state)];
      }
    }

    /** patchFilePaths, with the set of paths seen. */
    method CollectPaths(files: seq<FilePatch>) returns (paths: seq<string>)
      ensures paths == PatchFilePaths(files)
    {
      paths := [];
      var seen: set<string> := {};
      for i := 0 to |files|
        invariant paths == PatchFilePaths(files[..i])
        invariant forall p :: p in seen <==> p in paths
      {
        assert files[..i + 1][..i] == files[..i];
        var path := files[i].path;
        if path != "" && path !in seen {
          seen := seen + {path};
          paths := paths + [path];
        }
      }
      assert files[..|files|] == files;
    }

    method Refuse(e: Envelope, w: World, message: string, error: string)
      returns (replies: seq<Reply>, failure: Option<string>)
      modifies this
      ensures Outcome(Model(), replies, failure) == AckFail(old(Model()), e, w, message, error)
    {
      hide CmdAck;
      var sid, rid := e.sid, e.rid;
      if sid == "" { sid := "unknown"; }
      if rid == "" { rid := NewId("rid", w.nanos); }
      var n := NextSeq();
      replies, failure := [CmdAck(sid, n, rid, false, message)], Some(error);
    }

    method PromptSubmit(e: Envelope, w: World) returns (replies: seq<Reply>, failure: Option<string>)
      requires Valid()
      modifies this, store
      ensures Valid() && Outcome(Model(), replies, failure) == HandlePromptSubmit(old(Model()), e, w)
    {
      hide AckFail, OpenThread, SubmitPrompt, Filed;
      if !e.payload.Members? {
        replies, failure := Refuse(e, w, "invalid prompt payload", "decode payload");
        return;
      }
      var prompt := TextMember(e.payload, "prompt");
      if prompt == "" {
        replies, failure := Refuse(e, w, "prompt is required", "prompt is required");
        return;
      }
      var id := EnsureFor(e, w, prompt);
      replies, failure := Submit(e, w, id, prompt);
    }

    method Submit(e: Envelope, w: World, id: string, prompt: string)
      returns (replies: seq<Reply>, failure: Option<string>)
      requires Valid()
      modifies this, store
      ensures Valid() && Outcome(Model(), replies, failure) == SubmitPrompt(old(Model()), e, w, id, prompt)
    {
      hide AckFail, Post, RecordJob, PromptDone, Submitted, Accepted, Ready, Filed;
      if w.context.Err? {
        replies, failure := Refuse(e, w, "adapter get context failed", w.context.message);
        return;
      }
      AppendTo(w.first, id, Submitted(prompt, w.context.value));
      if w.task.Err? {
        replies, failure := Refuse(e, w, "adapter submit task failed", w.task.message);
        return;
      }
      if w.patch.Err? {
        replies, failure := Refuse(e, w, "adapter get patch failed", w.patch.message);
        return;
      }
      if w.patch.value.None? {
        replies, failure := Refuse(e, w, "patch is not ready", "patch is nil");
        return;
      }
      var patch := w.patch.value.value;
      RecordFor(e, w, id, prompt, w.task.value, patch.files);
      AppendTo(w.second, id, Accepted(w.jobId, w.task.value));
      AppendTo(w.third, id, Ready(w.jobId, patch.summary));
      replies := AnswerPrompt(e, w, id, patch);
      failure := None;
    }

    method AnswerPrompt(e: Envelope, w: World, id: string, patch: Patch) returns (replies: seq<Reply>)
      modifies this
      ensures Outcome(Model(), replies, None) == PromptDone(old(Model()), e, w, id, patch)
    {
      hide CmdAck, NewId;
      var n := NextSeq();
      var ack := CmdAck(e.sid, n, e.rid, true, "accepted");
      n := NextSeq();
      var promptAck := Reply(e.sid, NewId("prompt_ack", w.nanos), n, "PROMPT_ACK",
                             PromptAck(id, w.jobId, true, "task started"));
      n := NextSeq();
      var ready := Reply(e.sid, NewId("patch_ready", w.nanos), n, "PATCH_READY", PatchReady(w.jobId, patch));
      replies := [ack, promptAck, ready];
    }

    method EnsureFor(e: Envelope, w: World, prompt: string) returns (id: string)
      requires Valid() && e.payload.Members?
      modifies store
      ensures Valid() && id == ThreadIdOf(TextMember(e.payload, "threadId"), w.threadId)
      ensures Model() == OpenThread(old(Model()), e, w, id, prompt)
    {
      hide EnsureThread;
      ghost var name := ThreadIdOf(TextMember(e.payload, "threadId"), w.threadId);
      StoreStaysFiled(store.Model(), name, Submitted("", map[]), "", e.sid, prompt, w.now);
      var summary := store.Ensure(TextMember(e.payload, "threadId"), e.sid, prompt, w.threadId, w.now);
      id := summary.id;
    }

    method RecordFor(e: Envelope, w: World, id: string, prompt: string, taskId: string, files: seq<FilePatch>)
      requires Valid()
      modifies this, store
      ensures Valid() && Model() == RecordJob(old(Model()), e, w, id, prompt, taskId, files)
    {
      hide AssignJob;
      StoreStaysFiled(store.Model(), id, Submitted("", map[]), w.jobId, "", "", 0);
      var paths := CollectPaths(files);
      jobs := jobs[w.jobId := Job(w.jobId, id, e.sid, taskId, prompt, "patch_ready", paths)];
      store.Assign(id, w.jobId);
    }

    method PatchApply(e: Envelope, w: World) returns (replies: seq<Reply>, failure: Option<string>)
      requires Valid()
      modifies this, store
      ensures Valid() && Outcome(Model(), replies, failure) == HandlePatchApply(old(Model()), e, w)
    {
      hide AckFail, Post, ApplyRequested, Applied, Filed, SetJobState, CmdAck, NewId;
      if !e.payload.Members? {
        replies, failure := Refuse(e, w, "invalid patch apply payload", "decode payload");
        return;
      }
      var jobId := TextMember(e.payload, "jobId");
      if jobId !in jobs {
        replies, failure := Refuse(e, w, "job not found", "job " + jobId + " not found");
        return;
      }
      var job := jobs[jobId];
      AppendTo(w.first, job.threadId, ApplyRequested(job.id, TextMember(e.payload, "mode")));
      match w.apply {
        case Err(message) =>
          AppendTo(w.second, job.threadId, Applied(job.id, "패치 적용 실패", "failed", message));
          var n := NextSeq();
          var ack := CmdAck(e.sid, n, e.rid, false, message);
          n := NextSeq();
          var result := Reply(e.sid, NewId("patch_result", w.nanos), n, "PATCH_RESULT",
                              PatchResult(jobId, "failed", message));
          replies, failure := [ack, result], Some(message);
        case Ok((status, message)) =>
          SetState(jobId, "applied");
          AppendTo(w.second, job.threadId, Applied(job.id, "패치 적용 결과", status, message));
          var n := NextSeq();
          var ack := CmdAck(e.sid, n, e.rid, true, "patch apply queued");
          n := NextSeq();
          var result := Reply(e.sid, NewId("patch_result", w.nanos), n, "PATCH_RESULT",
                              PatchResult(jobId, status, message));
          replies, failure := [ack, result], None;
      }
    }

    method RunProfile(e: Envelope, w: World) returns (replies: seq<Reply>, failure: Option<string>)
      requires Valid() && w.profiles == profiles
      modifies this, store
      ensures Valid() && Outcome(Model(), replies, failure) == HandleRunProfile(old(Model()), e, w)
    {
      hide AckFail, RunJob, Filed;
      if !e.payload.Members? {
        replies, failure := Refuse(e, w, "invalid run profile payload", "decode payload");
        return;
      }
      var jobId, profileId := TextMember(e.payload, "jobId"), TextMember(e.payload, "profileId");
      if jobId !in jobs {
        replies, failure := Refuse(e, w, "job not found", "job " + jobId + " not found");
        return;
      }
      if profileId !in profiles {
        replies, failure := Refuse(e, w, "unknown run profile", "profile " + profileId + " not found");
        return;
      }
      replies, failure := Execute(e, w, jobId, profileId);
    }

    method Execute(e: Envelope, w: World, jobId: string, profileId: string)
      returns (replies: seq<Reply>, failure: Option<string>)
      requires Valid() && jobId in jobs && profileId in profiles && w.profiles == profiles
      modifies this, store
      ensures Valid() && Outcome(Model(), replies, failure) == RunJob(old(Model()), e, w, jobId, profileId)
    {
      hide AckFail, Post, RunRequested, RunFinished, Filed, SetJobState, CmdAck, NewId;
      var job := jobs[jobId];
      AppendTo(w.first, job.threadId, RunRequested(job.id, profileId, profiles[profileId]));
      if w.run.Err? {
        replies, failure := Refuse(e, w, "run profile execution failed", w.run.message);
        return;
      }
      if w.runResult.Err? {
        replies, failure := Refuse(e, w, "failed to fetch run result", w.runResult.message);
        return;
      }
      if w.runResult.value.None? {
        replies, failure := Refuse(e, w, "run result is empty", "run result is nil");
        return;
      }
      var result := w.runResult.value.value;
      var changed := result.changedFiles;
      if |changed| == 0 { changed := changed + job.patchFiles; }
      assert result.(changedFiles := changed) == WithFiles(result, job);
      SetState(jobId, "completed");
      AppendTo(w.second, job.threadId, RunFinished(job.id, profileId, result));
      var n := NextSeq();
      var ack := CmdAck(e.sid, n, e.rid, true, "run started");
      n := NextSeq();
      var reply := Reply(e.sid, NewId("run_result", w.nanos), n, "RUN_RESULT",
                         RunResult(jobId, result.(changedFiles := changed)));
      replies, failure := [ack, reply], None;
    }

    method OpenLocation(e: Envelope, w: World) returns (replies: seq<Reply>, failure: Option<string>)
      modifies this
      ensures Outcome(Model(), replies, failure) == HandleOpenLocation(old(Model()), e, w)
    {
      hide AckFail, CmdAck;
      if !e.payload.Members? {
        replies, failure := Refuse(e, w, "invalid open location payload", "decode payload");
      } else if w.open.Err? {
        replies, failure := Refuse(e, w, "open location failed", w.open.message);
      } else {
        var n := NextSeq();
        replies, failure := [CmdAck(e.sid, n, e.rid, true, "location opened")], None;
      }
    }

    /** One envelope, whatever it holds: the state, the replies and the error are those of the pure step. */
    method Handle(e: Envelope, w: World) returns (replies: seq<Reply>, failure: Option<string>)
      requires Valid() && w.profiles == profiles
      modifies this, store
      ensures Valid() && Outcome(Model(), replies, failure) == HandleEnvelope(old(Model()), e, w)
    {
      hide HandlePromptSubmit, HandlePatchApply, HandleRunProfile, HandleOpenLocation, AckFail, Filed;
      if !e.Valid() {
        replies, failure := Refuse(e, w, "invalid envelope: " + e.Problem(), e.Problem());
        return;
      }
      match e.kind {
        case "PROMPT_SUBMIT" => replies, failure := PromptSubmit(e, w);
        case "PATCH_APPLY" => replies, failure := PatchApply(e, w);
        case "RUN_PROFILE" => replies, failure := RunProfile(e, w);
        case "OPEN_LOCATION" => replies, failure := OpenLocation(e, w);
        case _ => replies, failure := Refuse(e, w, "unsupported message type", "unsupported message type");
      }
    }
  }
}
