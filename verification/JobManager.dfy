/**
 The fix-job manager: attempts reserved across awaits, the job state machine and its event
 log. Every step is a run of the code between two awaits; the worktree, the evidence file
 and the fix worker answer in any order.
 */
module JobManager {
  import opened Prelude
  import opened Policy
  import opened Integrity

  const ACCEPTANCE_DIRECTORY := "packages/resolution-tools/test/acceptance"

  type Call = nat

  /** The attempt limit, and the digest that hashes are taken with. */
  datatype Settings = Settings(maxAttempts: nat, hash: string -> string)

  datatype JobId = JobId(stamp: nat, ordinal: nat)

  datatype JobState = Queued | Running | Completed(summary: string) | Failed(message: string) | Cancelled

  datatype JobRecord = JobRecord(
    jobId: JobId,
    caseId: CaseId,
    issue: string,
    allowedScope: string,
    protectedTests: seq<Entry>,          // history: the acceptance trees of worktree and repository at the start
    independentTests: seq<Entry>,
    protectedHash: string,
    independentHash: string,
    attempt: nat,
    state: JobState,
    events: seq<string>)

  datatype StartInput = StartInput(caseId: CaseId, evidence: Evidence, issue: string, allowedScope: string)

  /** What a start() call awaits; `Finishing` is the way to its finally block. */
  datatype Phase = CreatingWorktree | SavingEvidence | StartingWorker | Finishing

  datatype InFlight = InFlight(input: StartInput, jobId: JobId, phase: Phase)

  datatype State = State(
    jobs: map<JobId, JobRecord>,
    order: seq<JobId>,                   // the insertion order of `jobs`
    pending: map<CaseId, int>,
    running: set<JobId>,
    ordinal: nat,
    starts: map<Call, InFlight>,
    cancels: map<Call, JobId>,           // cancel() calls awaiting the worker
    unsettled: set<JobId>,               // workers whose completion has not settled
    launched: set<JobId>,                // history: jobs whose run was ever registered
    startedWith: map<JobId, Evidence>)   // history: the evidence a job was started with

  const INITIAL := State(map[], [], map[], {}, 0, map[], map[], {}, {}, map[])

  datatype Step =
    | Begin(call: Call, input: StartInput, stamp: nat)
    | WorktreeReady(call: Call, protectedTests: seq<Entry>, independentTests: seq<Entry>)
    | EvidenceSaved(call: Call)
    | WorkerStarted(call: Call)
    | StartFails(call: Call)
    | Finally(call: Call)
    | RecordEvent(id: JobId, event: string)
    | Completes(id: JobId, summary: string)
    | Fails(id: JobId, message: string)
    | CancelBegins(cancel: Call, id: JobId)
    | CancelSettles(cancel: Call, ok: bool)

  /** hashDirectory on the acceptance directory of a worktree or repository. */
  function TestsHash(hash: string -> string, tests: seq<Entry>): string {
    DirectoryHash(hash, ACCEPTANCE_DIRECTORY, tests)
  }

  // ---------------------------------------------------------------- transitions

  function Attempts(jobs: map<JobId, JobRecord>, order: seq<JobId>, c: CaseId): seq<nat> {
    if order == [] then []
    else
      var id := order[|order| - 1];
      Attempts(jobs, order[..|order| - 1], c) + (if id in jobs && jobs[id].caseId == c then [jobs[id].attempt] else [])
  }

  function PendingOf(s: State, c: CaseId): int {
    if c in s.pending then s.pending[c] else 0
  }

  predicate Admits(s: State, settings: Settings, c: CaseId) {
    MayStartPatchAttempt(|Attempts(s.jobs, s.order, c)|, settings.maxAttempts, PendingOf(s, c))
  }

  predicate Enabled(s: State, step: Step) {
    match step
    case Begin(call, _, _) => call !in s.starts
    case WorktreeReady(call, protectedTests, independentTests) =>
      && call in s.starts && s.starts[call].phase.CreatingWorktree?
      && WellFormed(protectedTests) && WellFormed(independentTests)
    case EvidenceSaved(call) => call in s.starts && s.starts[call].phase.SavingEvidence?
    case WorkerStarted(call) => call in s.starts && s.starts[call].phase.StartingWorker?
    case StartFails(call) => call in s.starts && !s.starts[call].phase.Finishing?
    case Finally(call) => call in s.starts && s.starts[call].phase.Finishing?
    case RecordEvent(id, _) => id in s.jobs
    case Completes(id, _) => id in s.unsettled
    case Fails(id, _) => id in s.unsettled
    case CancelBegins(cancel, _) => cancel !in s.cancels
    case CancelSettles(cancel, _) => cancel in s.cancels
  }

  function WithState(s: State, id: JobId, state: JobState): State {
    if id in s.jobs then s.(jobs := s.jobs[id := s.jobs[id].(state := state)]) else s
  }

  function AtPhase(s: State, call: Call, phase: Phase): State
    requires call in s.starts
  {
    s.(starts := s.starts[call := s.starts[call].(phase := phase)])
  }

  function Registered(s: State, settings: Settings, call: Call, protectedTests: seq<Entry>,
                      independentTests: seq<Entry>): State
    requires call in s.starts
  {
    var f := s.starts[call];
    var job := JobRecord(f.jobId, f.input.caseId, f.input.issue, f.input.allowedScope, protectedTests, independentTests,
                         TestsHash(settings.hash, protectedTests),
                         TestsHash(settings.hash, independentTests),
                         |Attempts(s.jobs, s.order, f.input.caseId)| + 1, Queued, []);
    AtPhase(s, call, SavingEvidence).(
      jobs := s.jobs[f.jobId := job],
      order := if f.jobId in s.jobs then s.order else s.order + [f.jobId],
      startedWith := s.startedWith[f.jobId := f.input.evidence])
  }

  function Released(s: State, call: Call): State
    requires call in s.starts
  {
    var c := s.starts[call].input.caseId;
    var remaining := (if c in s.pending then s.pending[c] else 1) - 1;
    s.(pending := if remaining == 0 then s.pending - {c} else s.pending[c := remaining], starts := s.starts - {call})
  }

  /** The run of start() that a step continues. */
  function StartStep(s: State, settings: Settings, step: Step): State
    requires Enabled(s, step) && Resumed(step).Some?
  {
    match step
    case Begin(call, input, stamp) =>
      if !Admits(s, settings, input.caseId) then s
      else
        s.(pending := s.pending[input.caseId := PendingOf(s, input.caseId) + 1],
           ordinal := s.ordinal + 1,
           starts := s.starts[call := InFlight(input, JobId(stamp, s.ordinal + 1), CreatingWorktree)])
    case WorktreeReady(call, protectedTests, independentTests) =>
      Registered(s, settings, call, protectedTests, independentTests)
    case EvidenceSaved(call) => AtPhase(s, call, StartingWorker)
    case WorkerStarted(call) =>
      var id := s.starts[call].jobId;
      WithState(AtPhase(s, call, Finishing), id, Running).(
        running := s.running + {id}, unsettled := s.unsettled + {id}, launched := s.launched + {id})
    case StartFails(call) => AtPhase(s, call, Finishing)
    case Finally(call) => Released(s, call)
  }

  /** What the worker or a cancel makes of the record of its job; `held` is whether the manager holds the worker. */
  function Rewritten(job: JobRecord, step: Step, held: bool): JobRecord {
    match step
    case RecordEvent(_, event) => job.(events := job.events + [event])
    case Completes(_, summary) => if job.state.Cancelled? then job else job.(state := Completed(summary))
    case Fails(_, message) => if job.state.Cancelled? then job else job.(state := Failed(message))
    case CancelBegins(_, _) => if held then job else job.(state := Cancelled)
    case CancelSettles(_, ok) => if ok then job.(state := Cancelled) else job
    case _ => job
  }

  function JobStep(s: State, step: Step, id: JobId): State
    requires Enabled(s, step) && Resumed(step).None?
  {
    var settles := step.Completes? || step.Fails?;
    s.(jobs := if id in s.jobs then s.jobs[id := Rewritten(s.jobs[id], step, id in s.running)] else s.jobs,
       running := if settles || (step.CancelSettles? && step.ok) then s.running - {id} else s.running,
       unsettled := if settles then s.unsettled - {id} else s.unsettled,
       cancels := if step.CancelBegins? && id in s.running then s.cancels[step.cancel := id]
                  else if step.CancelSettles? then s.cancels - {step.cancel}
                  else s.cancels)
  }

  /** The one start whose call a step resumes. */
  function Resumed(step: Step): Option<Call> {
    match step
    case Begin(call, _, _) => Some(call)
    case WorktreeReady(call, _, _) => Some(call)
    case EvidenceSaved(call) => Some(call)
    case WorkerStarted(call) => Some(call)
    case StartFails(call) => Some(call)
    case Finally(call) => Some(call)
    case _ => None
  }

  /** The one job a step may write. */
  function Touched(s: State, step: Step): Option<JobId>
    requires Enabled(s, step)
  {
    match step
    case WorktreeReady(call, _, _) => Some(s.starts[call].jobId)
    case WorkerStarted(call) => Some(s.starts[call].jobId)
    case RecordEvent(id, _) => Some(id)
    case Completes(id, _) => Some(id)
    case Fails(id, _) => Some(id)
    case CancelBegins(_, id) => Some(id)
    case CancelSettles(cancel, _) => Some(s.cancels[cancel])
    case _ => None
  }

  /** A step that is not enabled is no step. */
  function Next(s: State, settings: Settings, step: Step): State {
    if !Enabled(s, step) then s
    else if Resumed(step).Some? then StartStep(s, settings, step)
    else JobStep(s, step, Touched(s, step).value)
  }

  predicate IsRun(settings: Settings, steps: seq<Step>) {
    steps == []
    || (IsRun(settings, steps[..|steps| - 1]) && Enabled(Run(settings, steps[..|steps| - 1]), steps[|steps| - 1]))
  }

  function Run(settings: Settings, steps: seq<Step>): State {
    if steps == [] then INITIAL else Next(Run(settings, steps[..|steps| - 1]), settings, steps[|steps| - 1])
  }

  // ---------------------------------------------------------------- what one step touches

  predicate SameJob(s: State, t: State, id: JobId) {
    && (id in s.jobs <==> id in t.jobs)
    && (id in s.jobs ==> s.jobs[id] == t.jobs[id])
    && (id in s.running <==> id in t.running)
    && (id in s.unsettled <==> id in t.unsettled)
    && (id in s.launched <==> id in t.launched)
    && (id in s.startedWith <==> id in t.startedWith)
    && (id in s.startedWith ==> s.startedWith[id] == t.startedWith[id])
  }

  lemma StartStepLeavesOthers(s: State, settings: Settings, step: Step, id: JobId)
    requires Enabled(s, step) && Resumed(step).Some?
    ensures Touched(s, step) == Some(id) || SameJob(s, Next(s, settings, step), id)
  {
    hide Attempts, Admits, JobStep, TestsHash, WellFormed;
    match step {
      case WorkerStarted(call) =>
      case _ =>
    }
  }

  lemma JobStepLeavesOthers(s: State, step: Step, id: JobId, other: JobId)
    requires Enabled(s, step) && Resumed(step).None? && other != id
    ensures SameJob(s, JobStep(s, step, id), other)
    ensures JobStep(s, step, id).starts == s.starts && JobStep(s, step, id).ordinal == s.ordinal
    ensures JobStep(s, step, id).order == s.order && JobStep(s, step, id).pending == s.pending
  {
  }

  lemma OthersUntouched(s: State, settings: Settings, step: Step, id: JobId)
    requires Enabled(s, step)
    ensures Touched(s, step) == Some(id) || SameJob(s, Next(s, settings, step), id)
  {
    hide StartStep, JobStep, SameJob;
    if Resumed(step).Some? {
      StartStepLeavesOthers(s, settings, step, id);
    } else if Touched(s, step) != Some(id) {
      JobStepLeavesOthers(s, step, Touched(s, step).value, id);
    }
  }

  /** Where a start in flight came from. */
  predicate Came(s: State, t: State, step: Step, call: Call)
    requires call in t.starts
  {
    if call in s.starts then
      && t.starts[call].jobId == s.starts[call].jobId && t.starts[call].input == s.starts[call].input
      && (t.starts[call].phase.CreatingWorktree? ==> t.starts[call] == s.starts[call])
      && (t.starts[call].phase.SavingEvidence? && t.starts[call] != s.starts[call] ==>
            step.WorktreeReady? && step.call == call)
      && (t.starts[call].phase.StartingWorker? && t.starts[call] != s.starts[call] ==> Launching(s.starts[call]))
    else
      step.Begin? && step.call == call
      && t.starts[call] == InFlight(step.input, JobId(step.stamp, s.ordinal + 1), CreatingWorktree)
      && t.ordinal == s.ordinal + 1
  }

  lemma StartsMove(s: State, settings: Settings, step: Step, call: Call)
    requires Enabled(s, step) && call in Next(s, settings, step).starts
    ensures Came(s, Next(s, settings, step), step, call)
  {
    hide Attempts, Admits, WellFormed, HashInput;
  }

  lemma ResumedMoves(s: State, settings: Settings, step: Step)
    requires Enabled(s, step)
    ensures step.WorktreeReady? || step.WorkerStarted? ==>
      step.call in Next(s, settings, step).starts && !Next(s, settings, step).starts[step.call].phase.CreatingWorktree?
    ensures step.WorkerStarted? ==> !Launching(Next(s, settings, step).starts[step.call])
    ensures Next(s, settings, step).ordinal >= s.ordinal
  {
    hide Attempts, Admits, WellFormed, HashInput;
  }

  /** The recorded hashes are those of the recorded trees. */
  predicate Baseline(settings: Settings, job: JobRecord) {
    && WellFormed(job.protectedTests) && WellFormed(job.independentTests)
    && job.protectedHash == TestsHash(settings.hash, job.protectedTests)
    && job.independentHash == TestsHash(settings.hash, job.independentTests)
  }

  /** Only a finished worktree registers a job: queued, with both hashed trees and the input of its own start. */
  lemma JobsComeFromStarts(s: State, settings: Settings, step: Step)
    requires Enabled(s, step)
    ensures var t := Next(s, settings, step);
      if step.WorktreeReady? then
        var f := s.starts[step.call];
        && f.jobId in t.jobs && t.jobs == s.jobs[f.jobId := t.jobs[f.jobId]]
        && t.jobs[f.jobId].state.Queued? && t.jobs[f.jobId].events == []
        && t.jobs[f.jobId].protectedTests == step.protectedTests
        && t.jobs[f.jobId].independentTests == step.independentTests
        && Baseline(settings, t.jobs[f.jobId])
        && t.jobs[f.jobId].jobId == f.jobId && t.jobs[f.jobId].caseId == f.input.caseId
        && t.jobs[f.jobId].issue == f.input.issue && t.jobs[f.jobId].allowedScope == f.input.allowedScope
        && t.startedWith == s.startedWith[f.jobId := f.input.evidence]
        && (f.jobId !in s.jobs ==> t.order == s.order + [f.jobId])
      else
        && t.jobs.Keys == s.jobs.Keys && t.startedWith == s.startedWith && t.order == s.order
        && (forall id :: id in s.jobs ==> t.jobs[id].jobId == s.jobs[id].jobId)
  {
    hide Attempts, Admits, WellFormed, HashInput;
  }

  // ---------------------------------------------------------------- job ids

  ghost predicate StartIdsOk(s: State) {
    && (forall call :: call in s.starts ==> s.starts[call].jobId.ordinal <= s.ordinal)
    && (forall i, j :: i in s.starts && j in s.starts && s.starts[i].jobId.ordinal == s.starts[j].jobId.ordinal ==>
          i == j)
  }

  ghost predicate JobIdsOk(s: State) {
    && (forall id :: id in s.jobs ==> id.ordinal <= s.ordinal && id == s.jobs[id].jobId)
    && (forall i, j :: i in s.jobs && j in s.jobs && i.ordinal == j.ordinal ==> i == j)
    && s.startedWith.Keys == s.jobs.Keys
  }

  ghost predicate UnusedOk(s: State) {
    forall call, id :: call in s.starts && s.starts[call].phase.CreatingWorktree? && id in s.jobs ==>
      id.ordinal != s.starts[call].jobId.ordinal
  }

  ghost predicate IdsOk(s: State) {
    StartIdsOk(s) && JobIdsOk(s) && UnusedOk(s)
  }

  ghost predicate OrderOk(s: State) {
    && (forall i :: 0 <= i < |s.order| ==> s.order[i] in s.jobs)
    && (forall id :: id in s.jobs ==> id in s.order)
    && (forall i, j :: 0 <= i < j < |s.order| ==> s.order[i] != s.order[j])
  }

  lemma StartIdsStayOk(s: State, settings: Settings, step: Step)
    requires StartIdsOk(s) && Enabled(s, step)
    ensures StartIdsOk(Next(s, settings, step))
  {
    hide Next;
    ResumedMoves(s, settings, step);
    forall call | call in Next(s, settings, step).starts ensures Came(s, Next(s, settings, step), step, call) {
      StartsMove(s, settings, step, call);
    }
  }

  lemma JobIdsAdd(s: State, t: State, own: JobId, evidence: Evidence)
    requires JobIdsOk(s) && own.ordinal <= s.ordinal <= t.ordinal
    requires forall id :: id in s.jobs ==> id.ordinal != own.ordinal
    requires own in t.jobs && t.jobs == s.jobs[own := t.jobs[own]] && t.jobs[own].jobId == own
    requires t.startedWith == s.startedWith[own := evidence]
    ensures JobIdsOk(t)
  {
    assert t.startedWith.Keys == t.jobs.Keys;
  }

  lemma JobIdsStayOk(s: State, settings: Settings, step: Step)
    requires StartIdsOk(s) && JobIdsOk(s) && UnusedOk(s) && Enabled(s, step)
    ensures JobIdsOk(Next(s, settings, step))
  {
    hide Next;
    var t := Next(s, settings, step);
    ResumedMoves(s, settings, step);
    JobsComeFromStarts(s, settings, step);
    if step.WorktreeReady? {
      var f := s.starts[step.call];
      assert f.jobId.ordinal <= s.ordinal && forall id :: id in s.jobs ==> id.ordinal != f.jobId.ordinal;
      hide JobIdsOk, StartIdsOk, UnusedOk, Enabled;
      JobIdsAdd(s, t, f.jobId, f.input.evidence);
    } else {
      hide StartIdsOk, UnusedOk, Enabled;
      forall id ensures id in t.jobs <==> id in s.jobs {
        assert id in t.jobs.Keys <==> id in s.jobs.Keys;
      }
    }
  }

  lemma UnusedStaysOk(s: State, settings: Settings, step: Step)
    requires StartIdsOk(s) && JobIdsOk(s) && UnusedOk(s) && Enabled(s, step)
    ensures UnusedOk(Next(s, settings, step))
  {
    hide Next;
    ResumedMoves(s, settings, step);
    JobsComeFromStarts(s, settings, step);
    var t := Next(s, settings, step);
    forall call, id | call in t.starts && t.starts[call].phase.CreatingWorktree? && id in t.jobs
      ensures id.ordinal != t.starts[call].jobId.ordinal {
      StartsMove(s, settings, step, call);
      assert id in t.jobs.Keys;
    }
  }

  lemma IdsStayOk(s: State, settings: Settings, step: Step)
    requires IdsOk(s) && Enabled(s, step)
    ensures IdsOk(Next(s, settings, step))
  {
    hide Next, StartIdsOk, JobIdsOk, UnusedOk;
    StartIdsStayOk(s, settings, step);
    JobIdsStayOk(s, settings, step);
    UnusedStaysOk(s, settings, step);
  }

  lemma OrderStaysOk(s: State, settings: Settings, step: Step)
    requires IdsOk(s) && OrderOk(s) && Enabled(s, step)
    ensures OrderOk(Next(s, settings, step))
  {
    hide Next;
    JobsComeFromStarts(s, settings, step);
    hide IdsOk;
    var s' := Next(s, settings, step);
    forall id | id in s'.jobs ensures id in s'.order {
      assert id in s'.jobs.Keys;
    }
    forall i | 0 <= i < |s'.order| ensures s'.order[i] in s'.jobs {
      assert s'.order[i] in s'.jobs.Keys;
    }
  }

  /** A registration never overwrites a job. */
  lemma RegistersFresh(s: State, call: Call)
    requires IdsOk(s) && call in s.starts && s.starts[call].phase.CreatingWorktree?
    ensures s.starts[call].jobId !in s.jobs
  {
  }

  // ---------------------------------------------------------------- the job state machine

  predicate JobOk(s: State, id: JobId) {
    && (id in s.running <==> id in s.jobs && s.jobs[id].state.Running?)
    && (id in s.running ==> id in s.unsettled)
    && (id in s.unsettled ==> id in s.launched)
    && (id in s.launched ==> id in s.jobs)
    && (id in s.jobs && s.jobs[id].state.Queued? ==> id !in s.launched)
    && (id in s.jobs && (s.jobs[id].state.Completed? || s.jobs[id].state.Failed?) ==>
          id in s.launched && id !in s.unsettled)
  }

  /** A start that has registered its job but not yet its run. */
  predicate Launching(f: InFlight) {
    f.phase.SavingEvidence? || f.phase.StartingWorker?
  }

  predicate StartOk(s: State, f: InFlight) {
    && (Launching(f) ==> f.jobId in s.jobs)
    && (Launching(f) || f.phase.CreatingWorktree? ==> f.jobId !in s.launched)
  }

  ghost predicate StatesOk(s: State) {
    && (forall id :: JobOk(s, id))
    && (forall call :: call in s.starts ==> StartOk(s, s.starts[call]))
    && (forall id :: id in s.launched ==> id.ordinal <= s.ordinal)
  }

  lemma TouchedStaysOk(s: State, settings: Settings, step: Step, id: JobId)
    requires Enabled(s, step) && Touched(s, step) == Some(id) && JobOk(s, id)
    requires step.WorktreeReady? ==> id !in s.jobs
    requires step.WorkerStarted? ==> id in s.jobs && id !in s.launched
    ensures JobOk(Next(s, settings, step), id)
    ensures id in Next(s, settings, step).launched <==> id in s.launched || step.WorkerStarted?
    ensures id in s.jobs ==> id in Next(s, settings, step).jobs
    ensures step.WorktreeReady? ==> id in Next(s, settings, step).jobs
  {
    hide Attempts, Admits, WellFormed, HashInput;
  }

  /** The two facts about `id` that the steps of its own start rely on. */
  lemma OwnStart(s: State, step: Step, id: JobId)
    requires IdsOk(s) && StatesOk(s) && Enabled(s, step) && Touched(s, step) == Some(id)
    ensures JobOk(s, id)
    ensures step.WorktreeReady? ==> id !in s.jobs
    ensures step.WorkerStarted? ==> id in s.jobs && id !in s.launched
  {
    if step.WorkerStarted? {
      assert StartOk(s, s.starts[step.call]);
    }
  }

  lemma JobStaysOk(s: State, settings: Settings, step: Step, id: JobId)
    requires IdsOk(s) && StatesOk(s) && Enabled(s, step)
    ensures JobOk(Next(s, settings, step), id)
    ensures id in Next(s, settings, step).launched <==>
      id in s.launched || (step.WorkerStarted? && s.starts[step.call].jobId == id)
    ensures id in s.jobs ==> id in Next(s, settings, step).jobs
    ensures step.WorktreeReady? && s.starts[step.call].jobId == id ==> id in Next(s, settings, step).jobs
  {
    hide Next, IdsOk;
    assert JobOk(s, id);
    if Touched(s, step) == Some(id) {
      OwnStart(s, step, id);
      TouchedStaysOk(s, settings, step, id);
    } else {
      OthersUntouched(s, settings, step, id);
    }
  }

  lemma StatesStayOk(s: State, settings: Settings, step: Step)
    requires IdsOk(s) && StatesOk(s) && Enabled(s, step)
    ensures StatesOk(Next(s, settings, step))
  {
    hide Next, JobOk;
    var s' := Next(s, settings, step);
    ResumedMoves(s, settings, step);
    forall id ensures JobOk(s', id) && (id in s'.launched ==> id.ordinal <= s'.ordinal) {
      JobStaysOk(s, settings, step, id);
    }
    forall call | call in s'.starts ensures StartOk(s', s'.starts[call]) {
      StartsMove(s, settings, step, call);
      JobStaysOk(s, settings, step, s'.starts[call].jobId);
    }
  }

  /** The moves of a job's state; `launched` is whether its run had been registered before. */
  predicate Moves(before: JobState, after: JobState, launched: bool) {
    match before
    case Queued => after.Queued? || after.Cancelled? || after.Running?
    case Running => !after.Queued?
    case Completed(_) => after == before || after.Cancelled?
    case Failed(_) => after == before || after.Cancelled?
    case Cancelled => after.Cancelled? || (!launched && after.Running?)
  }

  lemma TouchedMoves(s: State, settings: Settings, step: Step, id: JobId)
    requires Enabled(s, step) && Touched(s, step) == Some(id) && JobOk(s, id) && id in s.jobs && id in s.startedWith
    requires !step.WorktreeReady? && (step.WorkerStarted? ==> id !in s.launched)
    ensures var s' := Next(s, settings, step);
      && id in s'.jobs
      && SameIdentity(s'.jobs[id], s.jobs[id])
      && Moves(s.jobs[id].state, s'.jobs[id].state, id in s.launched)
      && s'.jobs[id].events == s.jobs[id].events + (if step.RecordEvent? then [step.event] else [])
      && id in s'.startedWith && s'.startedWith[id] == s.startedWith[id]
      && (s.jobs[id].state.Cancelled? ==> (s'.jobs[id].state.Cancelled? <==> !step.WorkerStarted?))
  {
    hide Attempts, Admits, WellFormed, HashInput;
  }

  /** The fields of a job that never change. */
  predicate SameIdentity(a: JobRecord, b: JobRecord) {
    a == b.(state := a.state, events := a.events)
  }

  /** A job keeps its identity and evidence, moves along the state machine and gains exactly the recorded events. */
  lemma JobsMove(s: State, settings: Settings, step: Step, id: JobId)
    requires IdsOk(s) && StatesOk(s) && Enabled(s, step) && id in s.jobs
    ensures var s' := Next(s, settings, step);
      && id in s'.jobs
      && SameIdentity(s'.jobs[id], s.jobs[id])
      && Moves(s.jobs[id].state, s'.jobs[id].state, id in s.launched)
      && s'.jobs[id].events ==
           s.jobs[id].events + (if step.RecordEvent? && step.id == id then [step.event] else [])
      && id in s'.startedWith && id in s.startedWith && s'.startedWith[id] == s.startedWith[id]
      && (s.jobs[id].state.Cancelled? ==>
            (s'.jobs[id].state.Cancelled? <==> !(step.WorkerStarted? && s.starts[step.call].jobId == id)))
  {
    hide Next;
    assert id in s.startedWith.Keys;
    if Touched(s, step) == Some(id) {
      OwnStart(s, step, id);
      TouchedMoves(s, settings, step, id);
    } else {
      OthersUntouched(s, settings, step, id);
    }
  }

  ghost predicate BaselinesOk(s: State, settings: Settings) {
    forall id :: id in s.jobs ==> Baseline(settings, s.jobs[id])
  }

  lemma BaselinesStayOk(s: State, settings: Settings, step: Step)
    requires IdsOk(s) && StatesOk(s) && BaselinesOk(s, settings) && Enabled(s, step)
    ensures BaselinesOk(Next(s, settings, step), settings)
  {
    hide Next, IdsOk, StatesOk, WellFormed, HashInput;
    var t := Next(s, settings, step);
    JobsComeFromStarts(s, settings, step);
    forall id | id in t.jobs ensures Baseline(settings, t.jobs[id]) {
      if id in s.jobs {
        JobsMove(s, settings, step, id);
      } else {
        assert id in t.jobs.Keys;
      }
    }
  }

  // ---------------------------------------------------------------- reservations and the limit

  function Calls(starts: map<Call, InFlight>, c: CaseId): set<Call> {
    set call | call in starts && starts[call].input.caseId == c
  }

  /** Starts of case `c` that hold a reservation but have no job. */
  function Unregistered(s: State, c: CaseId): set<Call> {
    set call | call in s.starts && s.starts[call].input.caseId == c && s.starts[call].jobId !in s.jobs
  }

  ghost predicate PendingOk(s: State) {
    && (forall c :: PendingOf(s, c) == |Calls(s.starts, c)|)
    && (forall c :: c in s.pending ==> s.pending[c] > 0)
  }

  predicate OneToN(attempts: seq<nat>) {
    forall i :: 0 <= i < |attempts| ==> attempts[i] == i + 1
  }

  ghost predicate AttemptsOk(s: State) {
    forall c :: OneToN(Attempts(s.jobs, s.order, c))
  }

  ghost predicate LimitOk(s: State, settings: Settings) {
    forall c :: |Attempts(s.jobs, s.order, c)| + |Unregistered(s, c)| <= settings.maxAttempts
  }

  ghost predicate SameCases(jobs: map<JobId, JobRecord>, jobs': map<JobId, JobRecord>, order: seq<JobId>) {
    forall i :: 0 <= i < |order| ==>
      order[i] in jobs && order[i] in jobs'
      && jobs[order[i]].caseId == jobs'[order[i]].caseId && jobs[order[i]].attempt == jobs'[order[i]].attempt
  }

  lemma {:induction false} AttemptsFrame(jobs: map<JobId, JobRecord>, jobs': map<JobId, JobRecord>, order: seq<JobId>,
                                         c: CaseId)
    requires SameCases(jobs, jobs', order)
    ensures Attempts(jobs, order, c) == Attempts(jobs', order, c)
  {
    if order == [] {
    } else {
      AttemptsFrame(jobs, jobs', order[..|order| - 1], c);
    }
  }

  lemma NextAttempt(s: State, settings: Settings, step: Step)
    requires Enabled(s, step) && step.WorktreeReady?
    ensures s.starts[step.call].jobId in Next(s, settings, step).jobs
    ensures var f := s.starts[step.call];
      Next(s, settings, step).jobs[f.jobId].attempt == |Attempts(s.jobs, s.order, f.input.caseId)| + 1
  {
    hide Attempts;
  }

  /** Only a registration adds an attempt, numbered next. */
  lemma AttemptsGrow(s: State, settings: Settings, step: Step, c: CaseId)
    requires IdsOk(s) && OrderOk(s) && StatesOk(s) && Enabled(s, step)
    ensures var s' := Next(s, settings, step); var before := Attempts(s.jobs, s.order, c);
      Attempts(s'.jobs, s'.order, c) ==
        if step.WorktreeReady? && s.starts[step.call].input.caseId == c then before + [|before| + 1] else before
  {
    hide Next, StatesOk, StartIdsOk, JobIdsOk, UnusedOk;
    var s' := Next(s, settings, step);
    assert SameCases(s.jobs, s'.jobs, s.order) by {
      hide Attempts;
      hide Next;
      forall i | 0 <= i < |s.order|
        ensures s.order[i] in s'.jobs && s'.jobs[s.order[i]].caseId == s.jobs[s.order[i]].caseId
        ensures s'.jobs[s.order[i]].attempt == s.jobs[s.order[i]].attempt {
        JobsMove(s, settings, step, s.order[i]);
      }
    }
    AttemptsFrame(s.jobs, s'.jobs, s.order, c);
    JobsComeFromStarts(s, settings, step);
    if step.WorktreeReady? {
      RegistersFresh(s, step.call);
      NextAttempt(s, settings, step);
      assert s'.order[..|s'.order| - 1] == s.order;
    }
  }

  lemma AttemptsStayOk(s: State, settings: Settings, step: Step)
    requires IdsOk(s) && OrderOk(s) && StatesOk(s) && AttemptsOk(s) && Enabled(s, step)
    ensures AttemptsOk(Next(s, settings, step))
  {
    hide Next, Attempts, IdsOk, OrderOk, StatesOk;
    forall c ensures OneToN(Attempts(Next(s, settings, step).jobs, Next(s, settings, step).order, c)) {
      assert OneToN(Attempts(s.jobs, s.order, c));
      AttemptsGrow(s, settings, step, c);
    }
  }

  /** What a step does to the starts in flight for a case. */
  lemma CallsChange(s: State, settings: Settings, step: Step, c: CaseId)
    requires Enabled(s, step)
    ensures Calls(Next(s, settings, step).starts, c) ==
      if step.Begin? && Admits(s, settings, step.input.caseId) && step.input.caseId == c
        then Calls(s.starts, c) + {step.call}
      else if step.Finally? then Calls(s.starts, c) - {step.call}
      else Calls(s.starts, c)
  {
    hide Attempts, Admits, WellFormed, HashInput;
  }

  lemma PendingChange(s: State, settings: Settings, step: Step, c: CaseId)
    requires Enabled(s, step) && (step.Finally? ==> PendingOf(s, s.starts[step.call].input.caseId) > 0)
    ensures PendingOf(Next(s, settings, step), c) == PendingOf(s, c) +
      (if step.Begin? && Admits(s, settings, step.input.caseId) && step.input.caseId == c then 1
       else if step.Finally? && s.starts[step.call].input.caseId == c then -1
       else 0)
    ensures c in Next(s, settings, step).pending && (c in s.pending ==> s.pending[c] > 0) ==>
      Next(s, settings, step).pending[c] > 0
  {
    hide Attempts, Admits, WellFormed, HashInput;
  }

  lemma PendingStaysOk(s: State, settings: Settings, step: Step)
    requires PendingOk(s) && Enabled(s, step)
    ensures PendingOk(Next(s, settings, step))
  {
    hide Next, Admits, PendingOf;
    if step.Finally? {
      assert step.call in Calls(s.starts, s.starts[step.call].input.caseId);
    }
    forall c ensures PendingOf(Next(s, settings, step), c) == |Calls(Next(s, settings, step).starts, c)|
      ensures c in Next(s, settings, step).pending ==> Next(s, settings, step).pending[c] > 0 {
      CallsChange(s, settings, step, c);
      PendingChange(s, settings, step, c);
    }
  }

  lemma UnregisteredChange(s: State, settings: Settings, step: Step, c: CaseId)
    requires IdsOk(s) && Enabled(s, step)
    ensures var s' := Next(s, settings, step); var before := Unregistered(s, c);
      if step.Begin? && Admits(s, settings, step.input.caseId) && step.input.caseId == c
        then Unregistered(s', c) <= before + {step.call}
      else if step.WorktreeReady? && s.starts[step.call].input.caseId == c
        then step.call in before && Unregistered(s', c) == before - {step.call}
      else Unregistered(s', c) <= before
  {
    hide Next, Attempts, Admits, JobIdsOk, UnusedOk, WellFormed;
    var s' := Next(s, settings, step);
    CallsChange(s, settings, step, c);
    JobsComeFromStarts(s, settings, step);
    forall call | call in s'.starts ensures Came(s, s', step, call) {
      StartsMove(s, settings, step, call);
    }
    forall call ensures call in Calls(s'.starts, c) <==> call in s'.starts && s'.starts[call].input.caseId == c {
    }
    forall id | id in s.jobs ensures id in s'.jobs {
      assert id in s'.jobs.Keys;
    }
    if step.WorktreeReady? {
      RegistersFresh(s, step.call);
    }
  }

  lemma SubsetSize<T>(a: set<T>, b: set<T>)
    requires a <= b
    ensures |a| <= |b|
  {
    assert b == a + (b - a);
  }

  lemma LimitStaysOk(s: State, settings: Settings, step: Step)
    requires IdsOk(s) && OrderOk(s) && StatesOk(s) && PendingOk(s) && LimitOk(s, settings) && Enabled(s, step)
    ensures LimitOk(Next(s, settings, step), settings)
  {
    hide Next, Attempts, IdsOk, OrderOk, StatesOk;
    var s' := Next(s, settings, step);
    forall c ensures |Attempts(s'.jobs, s'.order, c)| + |Unregistered(s', c)| <= settings.maxAttempts {
      AttemptsGrow(s, settings, step, c);
      UnregisteredChange(s, settings, step, c);
      assert |Attempts(s.jobs, s.order, c)| + |Unregistered(s, c)| <= settings.maxAttempts;
      SubsetSize(Unregistered(s, c), Calls(s.starts, c));
      assert PendingOf(s, c) == |Calls(s.starts, c)|;
      if step.Begin? && Admits(s, settings, step.input.caseId) && step.input.caseId == c {
        SubsetSize(Unregistered(s', c), Unregistered(s, c) + {step.call});
      } else if !(step.WorktreeReady? && s.starts[step.call].input.caseId == c) {
        SubsetSize(Unregistered(s', c), Unregistered(s, c));
      }
    }
  }

  // ---------------------------------------------------------------- over runs

  ghost predicate Inv(s: State, settings: Settings) {
    && IdsOk(s) && OrderOk(s) && StatesOk(s) && BaselinesOk(s, settings)
    && PendingOk(s) && AttemptsOk(s) && LimitOk(s, settings)
  }

  lemma NextPreservesInv(s: State, settings: Settings, step: Step)
    requires Inv(s, settings) && Enabled(s, step)
    ensures Inv(Next(s, settings, step), settings)
  {
    hide Next, IdsOk, OrderOk, StatesOk, BaselinesOk, PendingOk, AttemptsOk, LimitOk;
    IdsStayOk(s, settings, step);
    OrderStaysOk(s, settings, step);
    StatesStayOk(s, settings, step);
    BaselinesStayOk(s, settings, step);
    PendingStaysOk(s, settings, step);
    AttemptsStayOk(s, settings, step);
    LimitStaysOk(s, settings, step);
  }

  lemma {:induction false} InvHoldsOverRuns(settings: Settings, steps: seq<Step>)
    requires IsRun(settings, steps)
    ensures Inv(Run(settings, steps), settings)
  {
    if steps == [] {
    } else {
      InvHoldsOverRuns(settings, steps[..|steps| - 1]);
      NextPreservesInv(Run(settings, steps[..|steps| - 1]), settings, steps[|steps| - 1]);
    }
  }

  /** The reservations never let a case have more attempts than allowed, and its attempts are numbered 1 to n. */
  lemma AttemptLimit(settings: Settings, steps: seq<Step>, c: CaseId)
    requires IsRun(settings, steps)
    ensures var s := Run(settings, steps); var attempts := Attempts(s.jobs, s.order, c);
      && |attempts| + |Unregistered(s, c)| <= settings.maxAttempts
      && OneToN(attempts)
      && PendingOf(s, c) == |Calls(s.starts, c)|
      && (c in s.pending <==> Calls(s.starts, c) != {})
  {
    InvHoldsOverRuns(settings, steps);
    var s := Run(settings, steps);
    assert PendingOf(s, c) == |Calls(s.starts, c)|;
    assert |Attempts(s.jobs, s.order, c)| + |Unregistered(s, c)| <= settings.maxAttempts;
    assert OneToN(Attempts(s.jobs, s.order, c));
  }

  /** A start is admitted exactly while its case has fewer jobs and starts in flight than attempts. */
  lemma BeginIsAdmitted(settings: Settings, steps: seq<Step>, call: Call, input: StartInput, stamp: nat)
    requires IsRun(settings, steps) && call !in Run(settings, steps).starts
    ensures var s := Run(settings, steps); var t := Next(s, settings, Begin(call, input, stamp));
      if |Attempts(s.jobs, s.order, input.caseId)| + |Calls(s.starts, input.caseId)| < settings.maxAttempts
        then call in t.starts && t.starts[call].input == input && t.starts[call].phase.CreatingWorktree?
             && t.starts[call].jobId.stamp == stamp && t.jobs == s.jobs
      else t == s
  {
    hide Attempts;
    AttemptLimit(settings, steps, input.caseId);
  }

  /** Ids are distinct even without the clock, and every registered job stays listed once. */
  lemma IdsAreDistinct(settings: Settings, steps: seq<Step>, i: JobId, j: JobId)
    requires IsRun(settings, steps) && i in Run(settings, steps).jobs && j in Run(settings, steps).jobs
    ensures i.ordinal == j.ordinal ==> i == j
    ensures multiset(Run(settings, steps).order)[i] == 1
  {
    InvHoldsOverRuns(settings, steps);
    OnceInOrder(Run(settings, steps).order, i);
  }

  lemma {:induction false} OnceInOrder(order: seq<JobId>, id: JobId)
    requires id in order && forall i, j :: 0 <= i < j < |order| ==> order[i] != order[j]
    ensures multiset(order)[id] == 1
  {
    var init, last := order[..|order| - 1], order[|order| - 1];
    assert order == init + [last];
    if id == last {
      assert id !in init;
      assert id !in multiset(init);
    } else {
      OnceInOrder(init, id);
    }
  }

  lemma {:induction false} RunPrefix(settings: Settings, steps: seq<Step>, k: nat)
    requires IsRun(settings, steps) && k <= |steps|
    ensures IsRun(settings, steps[..k])
  {
    if k < |steps| {
      RunPrefix(settings, steps[..|steps| - 1], k);
      assert steps[..|steps| - 1][..k] == steps[..k];
    } else {
      assert steps[..k] == steps;
    }
  }

  /** What a job has become at the end of a run, seen from an earlier point `k` at which its run was registered. */
  predicate Final(earlier: JobState, now: JobState) {
    match earlier
    case Queued => true
    case Running => !now.Queued?
    case Completed(_) => now == earlier || now.Cancelled?
    case Failed(_) => now == earlier || now.Cancelled?
    case Cancelled => now.Cancelled?
  }

  lemma LaunchedJob(settings: Settings, steps: seq<Step>, id: JobId)
    requires IsRun(settings, steps) && id in Run(settings, steps).launched
    ensures id in Run(settings, steps).jobs && !Run(settings, steps).jobs[id].state.Queued?
  {
    InvHoldsOverRuns(settings, steps);
    assert JobOk(Run(settings, steps), id);
  }

  lemma {:induction false} LaunchedJobsSettleOnce(settings: Settings, steps: seq<Step>, k: nat, id: JobId)
    requires IsRun(settings, steps) && k <= |steps| && IsRun(settings, steps[..k])
    requires id in Run(settings, steps[..k]).launched
    ensures id in Run(settings, steps[..k]).jobs && id in Run(settings, steps).jobs
    ensures id in Run(settings, steps).launched
    ensures Final(Run(settings, steps[..k]).jobs[id].state, Run(settings, steps).jobs[id].state)
  {
    hide Next, Enabled, IdsOk, OrderOk, StatesOk, PendingOk, AttemptsOk, LimitOk;
    LaunchedJob(settings, steps[..k], id);
    if k == |steps| {
      assert steps[..k] == steps;
    } else {
      var init, step := steps[..|steps| - 1], steps[|steps| - 1];
      assert init[..k] == steps[..k];
      LaunchedJobsSettleOnce(settings, init, k, id);
      InvHoldsOverRuns(settings, init);
      JobsMove(Run(settings, init), settings, step, id);
      JobStaysOk(Run(settings, init), settings, step, id);
    }
  }

  /** A cancelled job leaves that state by one step only: its own start registering the run after the cancel. */
  lemma CancelSurvives(settings: Settings, steps: seq<Step>, step: Step, id: JobId)
    requires IsRun(settings, steps) && Enabled(Run(settings, steps), step)
    requires id in Run(settings, steps).jobs && Run(settings, steps).jobs[id].state.Cancelled?
    ensures var s := Run(settings, steps); var t := Next(s, settings, step);
      && id in t.jobs
      && (t.jobs[id].state.Cancelled? <==> !(step.WorkerStarted? && s.starts[step.call].jobId == id))
      && (step.WorkerStarted? && s.starts[step.call].jobId == id ==> id !in s.launched)
  {
    hide Next, IdsOk;
    InvHoldsOverRuns(settings, steps);
    JobsMove(Run(settings, steps), settings, step, id);
    if step.WorkerStarted? {
      assert StartOk(Run(settings, steps), Run(settings, steps).starts[step.call]);
    }
  }

  /** One start whose job is cancelled while it is still queued. */
  function QueuedCancel(input: StartInput): seq<Step> {
    [Begin(0, input, 0), WorktreeReady(0, [], []), CancelBegins(0, JobId(0, 1)), EvidenceSaved(0), WorkerStarted(0)]
  }

  lemma RunOneMore(settings: Settings, steps: seq<Step>)
    requires steps != []
    ensures var init, last := steps[..|steps| - 1], steps[|steps| - 1];
      && Run(settings, steps) == Next(Run(settings, init), settings, last)
      && (IsRun(settings, steps) <==> IsRun(settings, init) && Enabled(Run(settings, init), last))
  {
  }

  /** The state once the queued job has been cancelled. */
  function CancelledInQueue(settings: Settings, input: StartInput): State {
    var id, none := JobId(0, 1), TestsHash(settings.hash, []);
    var job := JobRecord(id, input.caseId, input.issue, input.allowedScope, [], [], none, none, 1, Cancelled, []);
    INITIAL.(jobs := map[id := job], order := [id], pending := map[input.caseId := 1], ordinal := 1,
             starts := map[0 := InFlight(input, id, SavingEvidence)], startedWith := map[id := input.evidence])
  }

  lemma CancelledWhileQueued(settings: Settings, input: StartInput)
    requires settings.maxAttempts > 0
    ensures var steps, id := QueuedCancel(input), JobId(0, 1);
      && IsRun(settings, steps[..3]) && Run(settings, steps[..3]) == CancelledInQueue(settings, input)
      && id in Run(settings, steps[..2]).jobs && Run(settings, steps[..2]).jobs[id].state == Queued
  {
    hide HashInput;
    var steps := QueuedCancel(input);
    assert steps[..3][..2] == steps[..2] && steps[..2][..1] == steps[..1] && steps[..1][..0] == [];
    assert Attempts(map[], [], input.caseId) == [];
    RunOneMore(settings, steps[..1]);
    RunOneMore(settings, steps[..2]);
    RunOneMore(settings, steps[..3]);
  }

  /** That run happens: queued, then cancelled, then running again. */
  lemma CancelWhileQueuedIsLost(settings: Settings, input: StartInput)
    requires settings.maxAttempts > 0
    ensures var steps, id := QueuedCancel(input), JobId(0, 1);
      && IsRun(settings, steps)
      && id in Run(settings, steps[..2]).jobs && Run(settings, steps[..2]).jobs[id].state == Queued
      && id in Run(settings, steps[..3]).jobs && Run(settings, steps[..3]).jobs[id].state == Cancelled
      && id in Run(settings, steps).jobs && Run(settings, steps).jobs[id].state == Running
  {
    hide HashInput, Run, IsRun, Attempts;
    var steps := QueuedCancel(input);
    CancelledWhileQueued(settings, input);
    assert steps[..5] == steps && steps[..5][..4] == steps[..4] && steps[..4][..3] == steps[..3];
    RunOneMore(settings, steps[..4]);
    RunOneMore(settings, steps[..5]);
  }

  /** The worker is held exactly while the job runs. */
  lemma RunningMeansRunning(settings: Settings, steps: seq<Step>, id: JobId)
    requires IsRun(settings, steps)
    ensures var s := Run(settings, steps); id in s.running <==> id in s.jobs && s.jobs[id].state.Running?
  {
    InvHoldsOverRuns(settings, steps);
    assert JobOk(Run(settings, steps), id);
  }

  function EventsFor(steps: seq<Step>, id: JobId): seq<string> {
    if steps == [] then []
    else
      var last := steps[|steps| - 1];
      EventsFor(steps[..|steps| - 1], id) + (if last.RecordEvent? && last.id == id then [last.event] else [])
  }

  lemma NoEarlyEvents(s: State, settings: Settings, step: Step, id: JobId)
    requires IdsOk(s) && Enabled(s, step) && id !in s.jobs
    ensures !(step.RecordEvent? && step.id == id)
    ensures id in Next(s, settings, step).jobs ==> Next(s, settings, step).jobs[id].events == []
  {
    hide Attempts, Admits, WellFormed, HashInput;
  }

  /** A job's log is every event ever recorded for it, in order: no change of state loses one. */
  lemma {:induction false} EventLogIsComplete(settings: Settings, steps: seq<Step>, id: JobId)
    requires IsRun(settings, steps)
    ensures var s := Run(settings, steps);
      EventsFor(steps, id) == if id in s.jobs then s.jobs[id].events else []
  {
    if steps == [] {
    } else {
      var init, step := steps[..|steps| - 1], steps[|steps| - 1];
      EventLogIsComplete(settings, init, id);
      InvHoldsOverRuns(settings, init);
      var s := Run(settings, init);
      hide Next, Enabled, IdsOk, StatesOk;
      if id in s.jobs {
        JobsMove(s, settings, step, id);
      } else {
        NoEarlyEvents(s, settings, step, id);
      }
    }
  }

  // ---------------------------------------------------------------- who decides the state of a job

  /** The step is a cancel that takes effect on `id`: at once on a job without a worker, or confirmed by the worker. */
  predicate CancelLands(s: State, step: Step, id: JobId) {
    || (step.CancelBegins? && step.id == id && id !in s.running)
    || (step.CancelSettles? && step.ok && step.cancel in s.cancels && s.cancels[step.cancel] == id)
  }

  /** The step is the worker's report on `id`, and the manager still holds the worker. */
  predicate Reports(s: State, step: Step, id: JobId) {
    (step.Completes? || step.Fails?) && step.id == id && id in s.running
  }

  predicate RunStarts(s: State, step: Step, id: JobId) {
    step.WorkerStarted? && step.call in s.starts && s.starts[step.call].jobId == id
  }

  predicate Decides(s: State, step: Step, id: JobId) {
    id in s.jobs && (Reports(s, step, id) || CancelLands(s, step, id) || RunStarts(s, step, id))
  }

  lemma TouchedState(s: State, settings: Settings, step: Step, id: JobId)
    requires Enabled(s, step) && Touched(s, step) == Some(id) && id in s.jobs && JobOk(s, id) && !step.WorktreeReady?
    ensures var before, after := s.jobs[id].state, Next(s, settings, step).jobs[id].state;
      && (Reports(s, step, id) && step.Completes? ==> after == Completed(step.summary))
      && (Reports(s, step, id) && step.Fails? ==> after == Failed(step.message))
      && (CancelLands(s, step, id) ==> after == Cancelled)
      && (RunStarts(s, step, id) ==> after == Running)
      && (!Decides(s, step, id) ==> after == before)
  {
    hide Attempts, Admits, WellFormed, HashInput;
  }

  /**
   The state of a job after a step: what its held worker reports, cancelled by a cancel that lands, running by the
   start of its run, and otherwise what it was.
   */
  lemma WhatBecomesOf(s: State, settings: Settings, step: Step, id: JobId)
    requires IdsOk(s) && StatesOk(s) && Enabled(s, step) && id in s.jobs
    ensures id in Next(s, settings, step).jobs
    ensures var before, after := s.jobs[id].state, Next(s, settings, step).jobs[id].state;
      && (Reports(s, step, id) && step.Completes? ==> after == Completed(step.summary))
      && (Reports(s, step, id) && step.Fails? ==> after == Failed(step.message))
      && (CancelLands(s, step, id) ==> after == Cancelled)
      && (RunStarts(s, step, id) ==> after == Running)
      && (!Decides(s, step, id) ==> after == before)
  {
    hide Next, IdsOk;
    JobsMove(s, settings, step, id);
    assert JobOk(s, id);
    if Touched(s, step) == Some(id) {
      OwnStart(s, step, id);
      TouchedState(s, settings, step, id);
    } else {
      OthersUntouched(s, settings, step, id);
    }
  }

  /** The last step of the run that decided the job's state. */
  function LastDecision(settings: Settings, steps: seq<Step>, id: JobId): Option<Step> {
    if steps == [] then None
    else
      var init, last := steps[..|steps| - 1], steps[|steps| - 1];
      if Decides(Run(settings, init), last, id) then Some(last) else LastDecision(settings, init, id)
  }

  lemma RegisteredQueued(s: State, settings: Settings, step: Step, id: JobId)
    requires Enabled(s, step) && id !in s.jobs && id in Next(s, settings, step).jobs
    ensures Next(s, settings, step).jobs[id].state == Queued
  {
    hide Next;
    JobsComeFromStarts(s, settings, step);
    assert id in Next(s, settings, step).jobs.Keys;
  }

  /** Over every run: a job completed or failed with what its worker reported, unless a later cancel landed. */
  lemma {:induction false} StateIsLastDecision(settings: Settings, steps: seq<Step>, id: JobId)
    requires IsRun(settings, steps)
    ensures id !in Run(settings, steps).jobs ==> LastDecision(settings, steps, id) == None
    ensures id in Run(settings, steps).jobs ==>
      Run(settings, steps).jobs[id].state ==
        match LastDecision(settings, steps, id)
        case None => Queued
        case Some(Completes(_, summary)) => Completed(summary)
        case Some(Fails(_, message)) => Failed(message)
        case Some(WorkerStarted(_)) => Running
        case Some(_) => Cancelled
  {
    hide Next, Enabled, IdsOk, OrderOk, StatesOk, BaselinesOk, PendingOk, AttemptsOk, LimitOk;
    if steps == [] {
    } else {
      var init, step := steps[..|steps| - 1], steps[|steps| - 1];
      StateIsLastDecision(settings, init, id);
      InvHoldsOverRuns(settings, init);
      var s := Run(settings, init);
      if id in s.jobs {
        WhatBecomesOf(s, settings, step, id);
      } else if id in Next(s, settings, step).jobs {
        RegisteredQueued(s, settings, step, id);
      }
    }
  }

  /** Completed or failed is what some step of the run reported. */
  lemma {:induction false} OutcomeWasReported(settings: Settings, steps: seq<Step>, id: JobId)
    requires IsRun(settings, steps) && id in Run(settings, steps).jobs
    ensures var state := Run(settings, steps).jobs[id].state;
      && (state.Completed? ==> Completes(id, state.summary) in steps)
      && (state.Failed? ==> Fails(id, state.message) in steps)
  {
    StateIsLastDecision(settings, steps, id);
    DecisionIsStep(settings, steps, id);
  }

  lemma {:induction false} DecisionIsStep(settings: Settings, steps: seq<Step>, id: JobId)
    ensures var last := LastDecision(settings, steps, id);
      last.Some? ==> last.value in steps && (last.value.Completes? || last.value.Fails? ==> last.value.id == id)
  {
    hide Run;
    if steps == [] {
    } else {
      DecisionIsStep(settings, steps[..|steps| - 1], id);
    }
  }

  lemma WorkerLetGo(s: State, settings: Settings, report: Step)
    requires (report.Completes? || report.Fails?) && report.id in s.running && JobOk(s, report.id)
    ensures Enabled(s, report) && Next(s, settings, report).running == s.running - {report.id}
  {
    hide StartStep, Rewritten;
  }

  /** The report of a held worker settles its job as reported, and the manager lets go of the worker. */
  lemma HeldWorkerSettles(settings: Settings, steps: seq<Step>, report: Step)
    requires IsRun(settings, steps)
    requires (report.Completes? || report.Fails?) && report.id in Run(settings, steps).running
    ensures var t := Run(settings, steps + [report]);
      && IsRun(settings, steps + [report])
      && report.id in t.jobs
      && t.jobs[report.id].state == (if report.Completes? then Completed(report.summary) else Failed(report.message))
      && t.running == Run(settings, steps).running - {report.id}
  {
    hide Next, Enabled, IdsOk, OrderOk, BaselinesOk, PendingOk, AttemptsOk, LimitOk;
    InvHoldsOverRuns(settings, steps);
    var s, id := Run(settings, steps), report.id;
    assert JobOk(s, id);
    WorkerLetGo(s, settings, report);
    WhatBecomesOf(s, settings, report, id);
    assert (steps + [report])[..|steps|] == steps;
  }

  lemma GivesBack(s: State, settings: Settings, call: Call)
    requires call in s.starts
    ensures s.starts[call].phase.Finishing? ==> Enabled(s, Finally(call))
    ensures Enabled(s, Finally(call)) ==> Next(s, settings, Finally(call)).starts == s.starts - {call}
    ensures !s.starts[call].phase.Finishing? ==> Enabled(s, StartFails(call))
    ensures Enabled(s, StartFails(call)) ==>
      var t := Next(s, settings, StartFails(call));
      && t.jobs == s.jobs && call in t.starts && t.starts[call].phase.Finishing?
      && t.starts == s.starts[call := t.starts[call]]
  {
    hide JobStep, Registered;
  }

  /** No reservation is stuck: whatever a start() awaits, it may throw, and then gives its reservation back. */
  lemma StartCanFail(settings: Settings, steps: seq<Step>, call: Call) returns (run: seq<Step>)
    requires IsRun(settings, steps) && call in Run(settings, steps).starts
    ensures steps <= run && IsRun(settings, run) && call !in Run(settings, run).starts
    ensures Run(settings, run).starts == Run(settings, steps).starts - {call}
  {
    hide Next, Enabled;
    run := steps;
    GivesBack(Run(settings, run), settings, call);
    if !Run(settings, run).starts[call].phase.Finishing? {
      run := run + [StartFails(call)];
      assert run[..|steps|] == steps;
      GivesBack(Run(settings, run), settings, call);
    }
    var longer := run + [Finally(call)];
    assert longer[..|run|] == run;
    run := longer;
  }

  /** Which cancel() calls wait: exactly those that found a held worker, until it answers. */
  lemma CancelsChange(s: State, settings: Settings, step: Step)
    requires Enabled(s, step)
    ensures forall cancel :: cancel in Next(s, settings, step).cancels <==>
      || (step.CancelBegins? && step.cancel == cancel && step.id in s.running)
      || (cancel in s.cancels && !(step.CancelSettles? && step.cancel == cancel))
    ensures forall cancel :: cancel in Next(s, settings, step).cancels ==>
      Next(s, settings, step).cancels[cancel] == if cancel in s.cancels then s.cancels[cancel] else step.id
  {
    hide Attempts, Admits, WellFormed, HashInput;
  }

  lemma CancelOfHeldWorker(s: State, settings: Settings, cancel: Call, id: JobId)
    requires id in s.running && id in s.jobs && cancel !in s.cancels
    ensures var t := Next(s, settings, CancelBegins(cancel, id));
      t == s.(cancels := s.cancels[cancel := id])
    ensures Next(s, settings, CancelBegins(cancel, id)).cancels - {cancel} == s.cancels
  {
    hide StartStep;
  }

  lemma CancelAnswered(s: State, settings: Settings, cancel: Call, ok: bool)
    requires cancel in s.cancels && s.cancels[cancel] in s.jobs
    ensures var t, id := Next(s, settings, CancelSettles(cancel, ok)), s.cancels[cancel];
      if ok then
        t == s.(jobs := s.jobs[id := s.jobs[id].(state := Cancelled)], running := s.running - {id},
                cancels := s.cancels - {cancel})
      else t == s.(cancels := s.cancels - {cancel})
  {
    hide StartStep;
  }

  /** Cancelling a held worker: cancelled and let go when the worker confirms it, and as before when it does not. */
  lemma HeldWorkerCancels(settings: Settings, steps: seq<Step>, cancel: Call, id: JobId, ok: bool)
    requires IsRun(settings, steps) && id in Run(settings, steps).running && cancel !in Run(settings, steps).cancels
    ensures var s, more := Run(settings, steps), steps + [CancelBegins(cancel, id)] + [CancelSettles(cancel, ok)];
      && IsRun(settings, more) && id in s.jobs
      && Run(settings, more) ==
           if ok then s.(jobs := s.jobs[id := s.jobs[id].(state := Cancelled)], running := s.running - {id}) else s
  {
    hide Next, Enabled, IdsOk, OrderOk, BaselinesOk, PendingOk, AttemptsOk, LimitOk;
    InvHoldsOverRuns(settings, steps);
    var s, begun := Run(settings, steps), steps + [CancelBegins(cancel, id)];
    var more := begun + [CancelSettles(cancel, ok)];
    assert JobOk(s, id);
    assert begun[..|steps|] == steps && more[..|begun|] == begun;
    CancelOfHeldWorker(s, settings, cancel, id);
    CancelAnswered(Run(settings, begun), settings, cancel, ok);
    CancelsMayFollow(s, settings, cancel, id, ok);
  }

  lemma CancelsMayFollow(s: State, settings: Settings, cancel: Call, id: JobId, ok: bool)
    requires cancel !in s.cancels
    ensures Enabled(s, CancelBegins(cancel, id))
    ensures forall t: State :: cancel in t.cancels ==> Enabled(t, CancelSettles(cancel, ok))
  {
  }

  // ---------------------------------------------------------------- the class

  class Manager {
    const settings: Settings
    var jobs: map<JobId, JobRecord>
    var order: seq<JobId>
    var pendingAttempts: map<CaseId, int>
    var running: set<JobId>
    var ordinal: nat
    // the calls and workers that will come back
    var starts: map<Call, InFlight>
    var cancels: map<Call, JobId>
    var unsettled: set<JobId>
    ghost var launched: set<JobId>
    ghost var startedWith: map<JobId, Evidence>

    constructor (settings: Settings)
      ensures this.settings == settings && View() == INITIAL
    {
      this.settings := settings;
      jobs, order, pendingAttempts, running, ordinal := map[], [], map[], {}, 0;
      starts, cancels, unsettled, launched, startedWith := map[], map[], {}, {}, map[];
    }

    ghost function View(): State
      reads this
    {
      State(jobs, order, pendingAttempts, running, ordinal, starts, cancels, unsettled, launched, startedWith)
    }

    /** start(), up to its first await; `ok` is false when the attempt limit is reached. */
    method Start(call: Call, input: StartInput, stamp: nat) returns (ok: bool)
      requires Enabled(View(), Begin(call, input, stamp))
      modifies this
      ensures View() == Next(old(View()), settings, Begin(call, input, stamp))
      ensures ok == Admits(old(View()), settings, input.caseId)
    {
      hide Attempts;
      var reserved := if input.caseId in pendingAttempts then pendingAttempts[input.caseId] else 0;
      if !MayStartPatchAttempt(|Attempts(jobs, order, input.caseId)|, settings.maxAttempts, reserved) {
        return false;
      }
      pendingAttempts := pendingAttempts[input.caseId := reserved + 1];
      ordinal := ordinal + 1;
      starts := starts[call := InFlight(input, JobId(stamp, ordinal), CreatingWorktree)];
      ok := true;
    }

    method Await(call: Call, phase: Phase)
      requires call in starts
      modifies this`starts
      ensures View() == AtPhase(old(View()), call, phase)
    {
      starts := starts[call := starts[call].(phase := phase)];
    }

    /** The worktree exists; both acceptance trees are hashed and the job is registered. */
    method AfterWorktree(call: Call, protectedTests: seq<Entry>, independentTests: seq<Entry>)
      requires Enabled(View(), WorktreeReady(call, protectedTests, independentTests))
      modifies this
      ensures View() == Next(old(View()), settings, WorktreeReady(call, protectedTests, independentTests))
    {
      hide Attempts, HashInput, WellFormed;
      var protectedInput := HashDirectory(ACCEPTANCE_DIRECTORY, protectedTests);
      var independentInput := HashDirectory(ACCEPTANCE_DIRECTORY, independentTests);
      var f := starts[call];
      var attempt := |Attempts(jobs, order, f.input.caseId)| + 1;
      var job := JobRecord(f.jobId, f.input.caseId, f.input.issue, f.input.allowedScope, protectedTests,
                           independentTests, settings.hash(protectedInput), settings.hash(independentInput), attempt,
                           Queued, []);
      if f.jobId !in jobs {
        order := order + [f.jobId];
      }
      jobs := jobs[f.jobId := job];
      startedWith := startedWith[f.jobId := f.input.evidence];
      Await(call, SavingEvidence);
    }

    method AfterEvidenceSaved(call: Call)
      requires Enabled(View(), EvidenceSaved(call))
      modifies this
      ensures View() == Next(old(View()), settings, EvidenceSaved(call))
    {
      Await(call, StartingWorker);
    }

    method AfterWorkerStarted(call: Call)
      requires Enabled(View(), WorkerStarted(call))
      modifies this
      ensures View() == Next(old(View()), settings, WorkerStarted(call))
    {
      var id := starts[call].jobId;
      running := running + {id};
      SetState(id, Running);
      unsettled, launched := unsettled + {id}, launched + {id};
      Await(call, Finishing);
    }

    method StartThrows(call: Call)
      requires Enabled(View(), StartFails(call))
      modifies this
      ensures View() == Next(old(View()), settings, StartFails(call))
    {
      Await(call, Finishing);
    }

    /** The finally block of start(). */
    method Release(call: Call)
      requires Enabled(View(), Finally(call))
      modifies this
      ensures View() == Next(old(View()), settings, Finally(call))
    {
      var c := starts[call].input.caseId;
      var remaining := (if c in pendingAttempts then pendingAttempts[c] else 1) - 1;
      if remaining == 0 {
        pendingAttempts := pendingAttempts - {c};
      } else {
        pendingAttempts := pendingAttempts[c := remaining];
      }
      starts := starts - {call};
    }

    method OnCompleted(id: JobId, summary: string)
      requires id in jobs && Enabled(View(), Completes(id, summary))
      modifies this
      ensures View() == Next(old(View()), settings, Completes(id, summary))
    {
      var latest := jobs[id];
      if !latest.state.Cancelled? {
        SetState(id, Completed(summary));
      }
      running, unsettled := running - {id}, unsettled - {id};
    }

    method OnFailed(id: JobId, message: string)
      requires id in jobs && Enabled(View(), Fails(id, message))
      modifies this
      ensures View() == Next(old(View()), settings, Fails(id, message))
    {
      var latest := jobs[id];
      if !latest.state.Cancelled? {
        SetState(id, Failed(message));
      }
      running, unsettled := running - {id}, unsettled - {id};
    }

    /** cancel(), up to its await or its end; `done` is false while the worker is being cancelled. */
    method Cancel(cancel: Call, id: JobId) returns (done: bool)
      requires Enabled(View(), CancelBegins(cancel, id))
      modifies this
      ensures View() == Next(old(View()), settings, CancelBegins(cancel, id))
      ensures done == (id !in old(running))
    {
      if id in running {
        cancels := cancels[cancel := id];
        return false;
      }
      SetState(id, Cancelled);
      done := true;
    }

    method AfterCancel(cancel: Call, ok: bool)
      requires Enabled(View(), CancelSettles(cancel, ok))
      modifies this
      ensures View() == Next(old(View()), settings, CancelSettles(cancel, ok))
    {
      var id := cancels[cancel];
      cancels := cancels - {cancel};
      if ok {
        running := running - {id};
        SetState(id, Cancelled);
      }
    }

    method AppendEvent(id: JobId, event: string)
      requires id in jobs
      modifies this`jobs
      ensures View() == Next(old(View()), settings, RecordEvent(id, event))
    {
      var job := jobs[id];
      jobs := jobs[id := job.(events := job.events + [event])];
    }

    /** An unknown id throws in the source, before anything changes. */
    method SetState(id: JobId, state: JobState)
      modifies this`jobs
      ensures View() == WithState(old(View()), id, state)
    {
      if id in jobs {
        jobs := jobs[id := jobs[id].(state := state)];
      }
    }
  }
}
