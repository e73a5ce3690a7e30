/**
 The ResolveForge service: triage, reproduction, fix, verification and review of any number of
 cases at once. Every step is a run of one call between two awaits; files land and processes
 answer in any order.
 */
module Service {
  import opened Prelude
  import opened Integrity
  import opened Policy
  import opened Verifier
  import opened Review
  import J = JobManager
  import PathScope

  type Call = nat

  const DEMO_ALLOWED_SCOPE := "packages/resolveforge-demo/src"

  /** The configuration, and the text tests that stay uninterpreted. */
  datatype Config = Config(
    mode: Mode,
    settings: J.Settings,                // the attempt limit and the digest
    hasTargetRepo: bool,
    hasApiKey: bool,
    mentionsTax: string -> bool,
    destructive: string -> bool)

  datatype CaseRecord = CaseRecord(issue: string, routes: seq<Route>)

  /** A startFix call that is reading the evidence file. */
  datatype FixCall = FixCall(caseId: CaseId, scope: string, evidence: Option<Evidence>)

  datatype ReviewCall =
    | Fingerprinting(job: J.JobRecord, report: Report)
    | ReadingPatch(job: J.JobRecord, report: Report, entries: seq<StatusEntry>, patch: string)
    | SentBack(verdict: Verdict)   // answered by the service itself
    | Answered(job: J.JobRecord, report: Report, entries: seq<StatusEntry>, patch: string, reviewed: string,
               answers: Option<Answers>, answer: Option<Verdict>)

  datatype State = State(
    cases: map<CaseId, CaseRecord>,
    caseOrdinal: nat,
    files: map<CaseId, Evidence>,        // evidence.json of each case
    writes: map<Call, Evidence>,         // reproduce calls that are saving
    fixes: map<Call, FixCall>,
    jm: J.State,
    verifies: map<Call, J.JobRecord>,
    reports: map<J.JobId, Report>,
    reviews: map<Call, ReviewCall>)

  const INITIAL := State(map[], 0, map[], map[], map[], J.INITIAL, map[], map[], map[])

  datatype Step =
    | Triaged(issue: string, routes: seq<Route>)
    | ReproduceBegins(call: Call, caseId: CaseId, issue: string, routes: seq<Route>)
    | EvidenceLands(call: Call)
    | ReproduceEnds(call: Call)
    | FixBegins(call: Call, caseId: CaseId, scope: string)
    | FixReads(call: Call)
    | FixResumes(call: Call, stamp: nat)
    | JobEvidenceLands(call: Call)
    | JobMoves(step: J.Step)
    | VerifyBegins(call: Call, caseId: CaseId, jobId: J.JobId)
    | VerifyEnds(call: Call, seen: Observation, ok: bool)
    | ReviewBegins(call: Call, caseId: CaseId, jobId: J.JobId)
    | FingerprintRead(call: Call, entries: seq<StatusEntry>, patch: string, ok: bool)
    | PatchRead(call: Call, patch: string, answers: Option<Answers>, ok: bool)

  // ---------------------------------------------------------------- transitions

  predicate Enabled(s: State, step: Step) {
    match step
    case Triaged(_, _) => true
    case ReproduceBegins(call, _, _, _) => call !in s.writes
    case EvidenceLands(call) => call in s.writes
    case ReproduceEnds(call) => call in s.writes
    case FixBegins(call, _, _) => call !in s.fixes && call !in s.jm.starts
    case FixReads(call) => call in s.fixes && s.fixes[call].caseId in s.files
    case FixResumes(call, _) => call in s.fixes && call !in s.jm.starts
    case JobEvidenceLands(call) => call in s.jm.starts && s.jm.starts[call].phase.SavingEvidence?
    case JobMoves(step) => !step.Begin? && J.Enabled(s.jm, step)
    case VerifyBegins(call, _, _) => call !in s.verifies
    case VerifyEnds(call, seen, _) => call in s.verifies && GoodObservation(seen)
    case ReviewBegins(call, _, _) => call !in s.reviews
    case FingerprintRead(call, entries, _, _) =>
      call in s.reviews && s.reviews[call].Fingerprinting? && GoodEntries(entries)
    case PatchRead(call, _, _, _) => call in s.reviews && s.reviews[call].ReadingPatch?
  }

  function ReviewClientOf(config: Config, answers: Option<Answers>): Client {
    if config.mode == Demo then DemoClient
    else if config.hasApiKey then JevClient(answers)
    else UnavailableClient
  }

  /** What `reproduce` accepts: a triaged case, all of its routes and the very same issue. */
  predicate MayReproduce(s: State, caseId: CaseId, issue: string, routes: seq<Route>) {
    && caseId in s.cases
    && (forall i :: 0 <= i < |s.cases[caseId].routes| ==> s.cases[caseId].routes[i] in routes)
    && issue == s.cases[caseId].issue
  }

  /** The jobs after startFix has read the evidence; `None` or a closed gate throws. */
  function JobsAfterFix(s: State, config: Config, call: Call, stamp: nat): J.State
    requires call in s.fixes
  {
    var f := s.fixes[call];
    if f.evidence.None? || !EvaluateEvidenceGate(f.evidence.value).Allowed? then s.jm
    else
      var input := J.StartInput(f.caseId, f.evidence.value, f.evidence.value.issue, f.scope);
      J.Next(s.jm, config.settings, J.Begin(call, input, stamp))
  }

  predicate MayVerify(s: State, caseId: CaseId, jobId: J.JobId) {
    jobId in s.jm.jobs && s.jm.jobs[jobId].caseId == caseId && s.jm.jobs[jobId].state.Completed?
  }

  /** The service's own answer: the job's state, or its worktree, is no longer the verified one. */
  function Stale(worktreeChanged: bool): Verdict {
    Verdict(Revise, false, worktreeChanged, false, false)
  }

  /** reviewPatch up to its first await: it throws, answers by itself, or starts the fingerprint. */
  function ReviewsBegun(s: State, call: Call, caseId: CaseId, jobId: J.JobId): map<Call, ReviewCall> {
    if jobId !in s.jm.jobs || jobId !in s.reports || s.reports[jobId].caseId != caseId then s.reviews
    else
      var job := s.jm.jobs[jobId];
      s.reviews[call := if job.state.Completed? then Fingerprinting(job, s.reports[jobId]) else SentBack(Stale(false))]
  }

  function Fingerprinted(r: ReviewCall, config: Config, entries: seq<StatusEntry>, patch: string): ReviewCall
    requires r.Fingerprinting?
  {
    if config.settings.hash(Preimage(StatusOutput(entries), patch)) != r.report.fingerprint then SentBack(Stale(true))
    else ReadingPatch(r.job, r.report, entries, patch)
  }

  function AnsweredBy(r: ReviewCall, config: Config, patch: string, answers: Option<Answers>): ReviewCall
    requires r.ReadingPatch?
  {
    var answer := ReviewPatch(ReviewClientOf(config, answers), r.job, r.report, config.destructive(patch));
    Answered(r.job, r.report, r.entries, r.patch, patch, answers, answer)
  }

  /** A step that is not enabled is no step. */
  function Next(s: State, config: Config, step: Step): State {
    if !Enabled(s, step) then s
    else
      match step
      case Triaged(issue, routes) =>
        var id := s.caseOrdinal + 1;
        s.(caseOrdinal := id,
           cases := if issue != "" && routes != [] then s.cases[id := CaseRecord(issue, routes)] else s.cases)
      case ReproduceBegins(call, caseId, issue, routes) =>
        if !MayReproduce(s, caseId, issue, routes) then s
        else s.(writes := s.writes[call := Reproduce(config.mode, caseId, issue, routes, config.mentionsTax(issue))])
      case EvidenceLands(call) => s.(files := s.files[s.writes[call].caseId := s.writes[call]])
      case ReproduceEnds(call) => s.(writes := s.writes - {call})
      case FixBegins(call, caseId, scope) =>
        if scope != DEMO_ALLOWED_SCOPE || !config.hasTargetRepo then s
        else s.(fixes := s.fixes[call := FixCall(caseId, scope, None)])
      case FixReads(call) =>
        var f := s.fixes[call];
        s.(fixes := s.fixes[call := f.(evidence := Some(s.files[f.caseId]))])
      case FixResumes(call, stamp) =>
        s.(fixes := s.fixes - {call}, jm := JobsAfterFix(s, config, call, stamp))
      case JobEvidenceLands(call) =>
        var e := s.jm.starts[call].input.evidence;
        s.(files := s.files[e.caseId := e])
      case JobMoves(step) => s.(jm := J.Next(s.jm, config.settings, step))
      case VerifyBegins(call, caseId, jobId) =>
        if !MayVerify(s, caseId, jobId) then s else s.(verifies := s.verifies[call := s.jm.jobs[jobId]])
      case VerifyEnds(call, seen, ok) =>
        var job := s.verifies[call];
        s.(verifies := s.verifies - {call},
           reports := if ok then s.reports[job.jobId := Verify(job, seen, config.settings.hash)] else s.reports)
      case ReviewBegins(call, caseId, jobId) => s.(reviews := ReviewsBegun(s, call, caseId, jobId))
      case FingerprintRead(call, entries, patch, ok) =>
        s.(reviews := if ok then s.reviews[call := Fingerprinted(s.reviews[call], config, entries, patch)]
                      else s.reviews - {call})
      case PatchRead(call, patch, answers, ok) =>
        s.(reviews := if ok then s.reviews[call := AnsweredBy(s.reviews[call], config, patch, answers)]
                      else s.reviews - {call})
  }

  predicate IsRun(config: Config, steps: seq<Step>) {
    steps == []
    || (IsRun(config, steps[..|steps| - 1]) && Enabled(Run(config, steps[..|steps| - 1]), steps[|steps| - 1]))
  }

  function Run(config: Config, steps: seq<Step>): State {
    if steps == [] then INITIAL else Next(Run(config, steps[..|steps| - 1]), config, steps[|steps| - 1])
  }

  // ---------------------------------------------------------------- the one allowed scope

  const DEMO_DIRECTORY: seq<string> := ["packages", "resolveforge-demo", "src"]

  lemma DemoScopeSplit()
    ensures PathScope.Split(DEMO_ALLOWED_SCOPE) == DEMO_DIRECTORY
  {
    hide PathScope.Split;
    assert DEMO_ALLOWED_SCOPE == "packages" + "/" + ("resolveforge-demo" + "/" + "src");
    PathScope.SplitConcat("packages", "resolveforge-demo" + "/" + "src");
    PathScope.SplitConcat("resolveforge-demo", "src");
    PathScope.SplitSegment("packages");
    PathScope.SplitSegment("resolveforge-demo");
    PathScope.SplitSegment("src");
  }

  lemma DemoScopeTarget()
    ensures PathScope.Slashes(DEMO_ALLOWED_SCOPE) == DEMO_ALLOWED_SCOPE
    ensures PathScope.Target(DEMO_ALLOWED_SCOPE) == Some(DEMO_DIRECTORY)
  {
    hide PathScope.Split, PathScope.Walk;
    DemoScopeSplit();
    PathScope.WalkOfNames(DEMO_DIRECTORY);
  }

  predicate BelowDemoDirectory(path: string) {
    var file := PathScope.Slashes(path);
    !PathScope.IsAbsolute(file) && PathScope.Target(file).Some? && DEMO_DIRECTORY <= PathScope.Target(file).value
  }

  /** In the only scope startFix accepts, a change is allowed exactly when its path resolves into that directory. */
  lemma DemoScopeMeaning(path: string)
    ensures PathScope.IsAllowedChange(DEMO_ALLOWED_SCOPE, path) <==> BelowDemoDirectory(path)
  {
    hide PathScope.IsAllowedChange, PathScope.Target, PathScope.Slashes;
    DemoScopeTarget();
    PathScope.IsAllowedChangeMeaning(DEMO_ALLOWED_SCOPE, path);
  }

  // ---------------------------------------------------------------- evidence

  /** `e` was reproduced for a triaged case, with its issue and over at least its routes. */
  ghost predicate Genuine(config: Config, cases: map<CaseId, CaseRecord>, e: Evidence) {
    && e.caseId in cases
    && cases[e.caseId].routes != []
    && exists routes :: CoversCase(cases[e.caseId], routes)
         && e == Reproduce(config.mode, e.caseId, cases[e.caseId].issue, routes,
                           config.mentionsTax(cases[e.caseId].issue))
  }

  predicate CoversCase(record: CaseRecord, routes: seq<Route>) {
    forall i :: 0 <= i < |record.routes| ==> record.routes[i] in routes
  }

  /** A fix input that startFix may pass on. */
  ghost predicate Permitted(config: Config, cases: map<CaseId, CaseRecord>, caseId: CaseId, issue: string,
                            scope: string, e: Evidence)
  {
    && Genuine(config, cases, e)
    && e.caseId == caseId && e.issue == issue && scope == DEMO_ALLOWED_SCOPE
    && EvaluateEvidenceGate(e).Allowed?
  }

  ghost predicate StartPermitted(config: Config, cases: map<CaseId, CaseRecord>, input: J.StartInput) {
    Permitted(config, cases, input.caseId, input.issue, input.allowedScope, input.evidence)
  }

  ghost predicate JobPermitted(config: Config, cases: map<CaseId, CaseRecord>, jm: J.State, id: J.JobId) {
    && id in jm.jobs && id in jm.startedWith
    && Permitted(config, cases, jm.jobs[id].caseId, jm.jobs[id].issue, jm.jobs[id].allowedScope, jm.startedWith[id])
  }

  ghost predicate FixOk(config: Config, cases: map<CaseId, CaseRecord>, f: FixCall) {
    && f.scope == DEMO_ALLOWED_SCOPE
    && (f.evidence.Some? ==> f.evidence.value.caseId == f.caseId && Genuine(config, cases, f.evidence.value))
  }

  ghost predicate FilesOk(config: Config, s: State) {
    && (forall c :: c in s.cases ==> c <= s.caseOrdinal && s.cases[c].routes != [])
    && (forall call :: call in s.writes ==> Genuine(config, s.cases, s.writes[call]))
    && (forall c :: c in s.files ==> s.files[c].caseId == c && Genuine(config, s.cases, s.files[c]))
    && (forall call :: call in s.fixes ==> FixOk(config, s.cases, s.fixes[call]))
  }

  ghost predicate JobsPermitted(config: Config, s: State) {
    && (forall call :: call in s.jm.starts ==> StartPermitted(config, s.cases, s.jm.starts[call].input))
    && (forall id :: id in s.jm.jobs ==> JobPermitted(config, s.cases, s.jm, id))
  }

  lemma CasesGrow(config: Config, s: State, step: Step)
    requires FilesOk(config, s)
    ensures var t := Next(s, config, step);
      && s.caseOrdinal <= t.caseOrdinal
      && (forall c :: c in s.cases ==> c in t.cases && t.cases[c] == s.cases[c])
      && (forall c :: c in t.cases ==> c <= t.caseOrdinal && t.cases[c].routes != [])
  {
    hide JobsAfterFix, ReviewsBegun, Fingerprinted, AnsweredBy, MayReproduce, MayVerify, Genuine, Verify;
  }

  lemma GenuineStays(config: Config, cases: map<CaseId, CaseRecord>, later: map<CaseId, CaseRecord>, e: Evidence)
    requires Genuine(config, cases, e) && forall c :: c in cases ==> c in later && later[c] == cases[c]
    ensures Genuine(config, later, e)
  {
    hide Reproduce;
    var record := cases[e.caseId];
    var routes :| CoversCase(record, routes)
      && e == Reproduce(config.mode, e.caseId, record.issue, routes, config.mentionsTax(record.issue));
    assert CoversCase(later[e.caseId], routes);
  }

  lemma EvidenceStaysGenuine(config: Config, s: State, step: Step)
    requires FilesOk(config, s)
    ensures forall e :: Genuine(config, s.cases, e) ==> Genuine(config, Next(s, config, step).cases, e)
  {
    hide Next, FilesOk, Genuine;
    CasesGrow(config, s, step);
    forall e | Genuine(config, s.cases, e) ensures Genuine(config, Next(s, config, step).cases, e) {
      GenuineStays(config, s.cases, Next(s, config, step).cases, e);
    }
  }

  lemma ReproductionIsGenuine(config: Config, s: State, step: Step)
    requires step.ReproduceBegins? && MayReproduce(s, step.caseId, step.issue, step.routes) && FilesOk(config, s)
    ensures Genuine(config, s.cases, Reproduce(config.mode, step.caseId, step.issue, step.routes,
                                               config.mentionsTax(step.issue)))
  {
    assert CoversCase(s.cases[step.caseId], step.routes);
  }

  lemma FilesFrame(config: Config, s: State, step: Step)
    requires Enabled(s, step)
    ensures var t := Next(s, config, step);
      && t.writes == (if step.ReproduceBegins? && MayReproduce(s, step.caseId, step.issue, step.routes)
                      then s.writes[step.call := Reproduce(config.mode, step.caseId, step.issue, step.routes,
                                                           config.mentionsTax(step.issue))]
                      else if step.ReproduceEnds? then s.writes - {step.call}
                      else s.writes)
      && t.files == (if step.EvidenceLands? then s.files[s.writes[step.call].caseId := s.writes[step.call]]
                     else if step.JobEvidenceLands? then
                       var e := s.jm.starts[step.call].input.evidence; s.files[e.caseId := e]
                     else s.files)
  {
    hide MayReproduce, MayVerify, JobsAfterFix, ReviewsBegun, Fingerprinted, AnsweredBy, Verify, Reproduce;
  }

  lemma FixesMove(config: Config, s: State, step: Step)
    requires FilesOk(config, s) && Enabled(s, step)
    ensures var t := Next(s, config, step);
      forall call :: call in t.fixes ==> FixOk(config, s.cases, t.fixes[call])
  {
    hide Genuine, MayReproduce, MayVerify, JobsAfterFix, ReviewsBegun, Fingerprinted, AnsweredBy, Verify, Reproduce;
  }

  /** What the steps write is genuine by the cases as they were. */
  lemma FilesMove(config: Config, s: State, step: Step)
    requires FilesOk(config, s) && JobsPermitted(config, s) && Enabled(s, step)
    requires step.ReproduceBegins? && MayReproduce(s, step.caseId, step.issue, step.routes) ==>
      Genuine(config, s.cases, Reproduce(config.mode, step.caseId, step.issue, step.routes,
                                         config.mentionsTax(step.issue)))
    ensures var t := Next(s, config, step);
      && (forall call :: call in t.writes ==> Genuine(config, s.cases, t.writes[call]))
      && (forall c :: c in t.files ==> t.files[c].caseId == c && Genuine(config, s.cases, t.files[c]))
  {
    hide Next, Genuine, MayReproduce, Reproduce, FixOk;
    FilesFrame(config, s, step);
    if step.JobEvidenceLands? {
      assert StartPermitted(config, s.cases, s.jm.starts[step.call].input);
    }
  }

  lemma FilesStayOk(config: Config, s: State, step: Step)
    requires FilesOk(config, s) && JobsPermitted(config, s) && Enabled(s, step)
    ensures FilesOk(config, Next(s, config, step))
  {
    hide Next, Enabled, Genuine, MayReproduce, JobsPermitted;
    CasesGrow(config, s, step);
    EvidenceStaysGenuine(config, s, step);
    if step.ReproduceBegins? && MayReproduce(s, step.caseId, step.issue, step.routes) {
      ReproductionIsGenuine(config, s, step);
    }
    FilesMove(config, s, step);
    FixesMove(config, s, step);
  }

  /** The step of the job manager inside a step of the service. */
  function InnerStep(s: State, config: Config, step: Step): Option<J.Step>
    requires Enabled(s, step)
  {
    match step
    case JobMoves(step) => Some(step)
    case FixResumes(call, stamp) =>
      var f := s.fixes[call];
      if f.evidence.None? || !EvaluateEvidenceGate(f.evidence.value).Allowed? then None
      else Some(J.Begin(call, J.StartInput(f.caseId, f.evidence.value, f.evidence.value.issue, f.scope), stamp))
    case _ => None
  }

  lemma InnerStepIsEnabled(config: Config, s: State, step: Step)
    requires Enabled(s, step) && FilesOk(config, s)
    ensures var inner := InnerStep(s, config, step);
      if inner.None? then Next(s, config, step).jm == s.jm
      else
        && J.Enabled(s.jm, inner.value)
        && Next(s, config, step).jm == J.Next(s.jm, config.settings, inner.value)
        && (inner.value.Begin? ==> StartPermitted(config, s.cases, inner.value.input))
  {
    hide Genuine, MayReproduce, MayVerify, J.Next, ReviewsBegun, Fingerprinted, AnsweredBy, Verify, Reproduce;
  }

  lemma JobsStayPermitted(config: Config, s: State, step: Step)
    requires FilesOk(config, s) && JobsPermitted(config, s) && J.Inv(s.jm, config.settings) && Enabled(s, step)
    ensures JobsPermitted(config, Next(s, config, step))
  {
    hide Genuine, Next, Enabled, FilesOk, InnerStep, J.Next, J.Inv, J.Enabled;
    var t := Next(s, config, step);
    InnerStepIsEnabled(config, s, step);
    EvidenceStaysGenuine(config, s, step);
    var inner := InnerStep(s, config, step);
    if inner.Some? {
      forall call | call in t.jm.starts ensures StartPermitted(config, t.cases, t.jm.starts[call].input) {
        J.StartsMove(s.jm, config.settings, inner.value, call);
      }
      forall id | id in t.jm.jobs ensures JobPermitted(config, t.cases, t.jm, id) {
        JobStaysPermitted(config, s, t, inner.value, id);
      }
    }
  }

  lemma JobStaysPermitted(config: Config, s: State, t: State, step: J.Step, id: J.JobId)
    requires JobsPermitted(config, s) && J.Inv(s.jm, config.settings) && J.Enabled(s.jm, step)
    requires t.jm == J.Next(s.jm, config.settings, step) && id in t.jm.jobs
    requires forall e :: Genuine(config, s.cases, e) ==> Genuine(config, t.cases, e)
    ensures JobPermitted(config, t.cases, t.jm, id)
  {
    hide Genuine, J.Next;
    J.JobsComeFromStarts(s.jm, config.settings, step);
    if id in s.jm.jobs {
      J.JobsMove(s.jm, config.settings, step, id);
      assert JobPermitted(config, s.cases, s.jm, id);
    } else {
      assert id in t.jm.jobs.Keys;
      assert StartPermitted(config, s.cases, s.jm.starts[step.call].input);
    }
  }

  // ---------------------------------------------------------------- verification and review

  /** `job` is a snapshot of a registered job. */
  predicate Known(jm: J.State, job: J.JobRecord) {
    job.jobId in jm.jobs && J.SameIdentity(job, jm.jobs[job.jobId])
  }

  ghost predicate IsVerified(config: Config, job: J.JobRecord, report: Report) {
    exists seen: Observation :: GoodObservation(seen) && report == Verify(job, seen, config.settings.hash)
  }

  /** What a review call relies on so far. */
  ghost predicate ReviewOk(config: Config, jm: J.State, r: ReviewCall) {
    match r
    case Fingerprinting(job, report) => Known(jm, job) && job.state.Completed? && IsVerified(config, job, report)
    case ReadingPatch(job, report, entries, patch) =>
      && Known(jm, job) && job.state.Completed? && IsVerified(config, job, report)
      && GoodEntries(entries) && config.settings.hash(Preimage(StatusOutput(entries), patch)) == report.fingerprint
    case Answered(job, report, entries, patch, reviewed, answers, answer) =>
      && Known(jm, job) && job.state.Completed? && IsVerified(config, job, report)
      && GoodEntries(entries) && config.settings.hash(Preimage(StatusOutput(entries), patch)) == report.fingerprint
      && answer == ReviewPatch(ReviewClientOf(config, answers), job, report, config.destructive(reviewed))
    case SentBack(verdict) => verdict.decision == Revise
  }

  ghost predicate ReviewsOk(config: Config, s: State) {
    && (forall call :: call in s.verifies ==> Known(s.jm, s.verifies[call]) && s.verifies[call].state.Completed?)
    && (forall id :: id in s.reports ==> id in s.jm.jobs && IsVerified(config, s.jm.jobs[id], s.reports[id]))
    && (forall call :: call in s.reviews ==> ReviewOk(config, s.jm, s.reviews[call]))
  }

  /** A verification depends only on what never changes about a job. */
  lemma VerifiedByIdentity(config: Config, a: J.JobRecord, b: J.JobRecord, report: Report)
    requires J.SameIdentity(a, b) && IsVerified(config, a, report)
    ensures IsVerified(config, b, report)
  {
    var seen: Observation :| GoodObservation(seen) && report == Verify(a, seen, config.settings.hash);
    hide StatusOutput, ChangedFiles, PathScope.IsAllowedChange;
    assert Verify(b, seen, config.settings.hash) == Verify(a, seen, config.settings.hash);
  }

  lemma JobsKeepIdentity(config: Config, s: State, step: Step, id: J.JobId)
    requires FilesOk(config, s) && J.Inv(s.jm, config.settings) && Enabled(s, step) && id in s.jm.jobs
    ensures id in Next(s, config, step).jm.jobs
    ensures J.SameIdentity(Next(s, config, step).jm.jobs[id], s.jm.jobs[id])
  {
    hide Next, Enabled, FilesOk, InnerStep, J.Next, J.Enabled;
    InnerStepIsEnabled(config, s, step);
    if InnerStep(s, config, step).Some? {
      J.JobsMove(s.jm, config.settings, InnerStep(s, config, step).value, id);
    }
  }

  /** Review facts survive any growth of the job manager that keeps identities. */
  lemma ReviewStaysOk(config: Config, before: J.State, after: J.State, r: ReviewCall)
    requires ReviewOk(config, before, r)
    requires forall id :: id in before.jobs ==> id in after.jobs && J.SameIdentity(after.jobs[id], before.jobs[id])
    ensures ReviewOk(config, after, r)
  {
    hide IsVerified, GoodEntries, StatusOutput, ReviewPatch;
  }

  /** The one review call a step writes. */
  lemma ReviewMoves(config: Config, s: State, step: Step, call: Call)
    requires Enabled(s, step) && ReviewsOk(config, s) && call in Next(s, config, step).reviews
    requires forall id :: id in s.jm.jobs ==> s.jm.jobs[id].jobId == id
    ensures ReviewOk(config, s.jm, Next(s, config, step).reviews[call])
  {
    hide IsVerified, GoodEntries, StatusOutput, ReviewPatch, JobsAfterFix, Verify, Reproduce, MayVerify, MayReproduce;
    if call in s.reviews {
      assert ReviewOk(config, s.jm, s.reviews[call]);
    }
  }

  lemma VerifiedJustNow(config: Config, s: State, step: Step)
    requires Enabled(s, step) && ReviewsOk(config, s) && step.VerifyEnds?
    ensures var job := s.verifies[step.call];
      job.jobId in s.jm.jobs && IsVerified(config, s.jm.jobs[job.jobId], Verify(job, step.seen, config.settings.hash))
  {
    hide Verify;
    var job := s.verifies[step.call];
    assert Known(s.jm, job);
    assert IsVerified(config, job, Verify(job, step.seen, config.settings.hash));
    VerifiedByIdentity(config, job, s.jm.jobs[job.jobId], Verify(job, step.seen, config.settings.hash));
  }

  lemma ReportsFrame(config: Config, s: State, step: Step)
    requires Enabled(s, step)
    ensures var t := Next(s, config, step);
      && t.reports == (if step.VerifyEnds? && step.ok then
                         var job := s.verifies[step.call];
                         s.reports[job.jobId := Verify(job, step.seen, config.settings.hash)]
                       else s.reports)
      && t.verifies == (if step.VerifyEnds? then s.verifies - {step.call}
                        else if step.VerifyBegins? && MayVerify(s, step.caseId, step.jobId)
                        then s.verifies[step.call := s.jm.jobs[step.jobId]]
                        else s.verifies)
  {
    hide GoodEntries, Verify, JobsAfterFix, ReviewsBegun, Fingerprinted, AnsweredBy, Reproduce, MayReproduce;
  }

  /** Reports and running verifications, judged by the jobs as they were before the step. */
  lemma ReportsMove(config: Config, s: State, step: Step)
    requires Enabled(s, step) && ReviewsOk(config, s)
    requires forall id :: id in s.jm.jobs ==> s.jm.jobs[id].jobId == id
    ensures var t := Next(s, config, step);
      && (forall call :: call in t.verifies ==> Known(s.jm, t.verifies[call]) && t.verifies[call].state.Completed?)
      && (forall id :: id in t.reports ==> id in s.jm.jobs && IsVerified(config, s.jm.jobs[id], t.reports[id]))
  {
    hide Next, IsVerified, Verify, ReviewOk;
    ReportsFrame(config, s, step);
    if step.VerifyEnds? {
      VerifiedJustNow(config, s, step);
    }
  }

  lemma ReviewsStayOk(config: Config, s: State, step: Step)
    requires FilesOk(config, s) && J.Inv(s.jm, config.settings) && ReviewsOk(config, s) && Enabled(s, step)
    requires forall id :: id in s.jm.jobs ==> s.jm.jobs[id].jobId == id
    ensures ReviewsOk(config, Next(s, config, step))
  {
    hide Next, IsVerified, FilesOk, J.Inv, Enabled, ReviewOk;
    var t := Next(s, config, step);
    forall id | id in s.jm.jobs ensures id in t.jm.jobs && J.SameIdentity(t.jm.jobs[id], s.jm.jobs[id]) {
      JobsKeepIdentity(config, s, step, id);
    }
    ReportsMove(config, s, step);
    forall id | id in t.reports ensures id in t.jm.jobs && IsVerified(config, t.jm.jobs[id], t.reports[id]) {
      VerifiedByIdentity(config, s.jm.jobs[id], t.jm.jobs[id], t.reports[id]);
    }
    forall call | call in t.reviews ensures ReviewOk(config, t.jm, t.reviews[call]) {
      ReviewMoves(config, s, step, call);
      ReviewStaysOk(config, s.jm, t.jm, t.reviews[call]);
    }
  }

  // ---------------------------------------------------------------- over runs

  ghost predicate Inv(config: Config, s: State) {
    && FilesOk(config, s) && JobsPermitted(config, s) && ReviewsOk(config, s)
    && J.Inv(s.jm, config.settings)
  }

  lemma JobIdsMatch(config: Config, s: State)
    requires J.Inv(s.jm, config.settings)
    ensures forall id :: id in s.jm.jobs ==> s.jm.jobs[id].jobId == id
  {
  }

  lemma NextPreservesInv(config: Config, s: State, step: Step)
    requires Inv(config, s) && Enabled(s, step)
    ensures Inv(config, Next(s, config, step))
  {
    hide Next, Enabled, FilesOk, JobsPermitted, ReviewsOk, J.Inv, J.Next, J.Enabled, InnerStep;
    InnerStepIsEnabled(config, s, step);
    JobIdsMatch(config, s);
    FilesStayOk(config, s, step);
    JobsStayPermitted(config, s, step);
    ReviewsStayOk(config, s, step);
    if InnerStep(s, config, step).Some? {
      J.NextPreservesInv(s.jm, config.settings, InnerStep(s, config, step).value);
    }
  }

  lemma {:induction false} InvHoldsOverRuns(config: Config, steps: seq<Step>)
    requires IsRun(config, steps)
    ensures Inv(config, Run(config, steps))
  {
    if steps == [] {
      J.InvHoldsOverRuns(config.settings, []);
    } else {
      InvHoldsOverRuns(config, steps[..|steps| - 1]);
      NextPreservesInv(config, Run(config, steps[..|steps| - 1]), steps[|steps| - 1]);
    }
  }

  ghost predicate EstablishedRoute(e: Evidence, route: Route) {
    exists i :: 0 <= i < |e.routes| && e.routes[i].route == route && Established(e.routes[i])
  }

  lemma PermittedMeans(config: Config, cases: map<CaseId, CaseRecord>, caseId: CaseId, issue: string, scope: string,
                       e: Evidence, route: Route)
    requires Permitted(config, cases, caseId, issue, scope, e) && route in cases[caseId].routes
    ensures EstablishedRoute(e, route)
    ensures config.mode == Demo && (route == ReactUi || route == BackendApi)
  {
    var record := cases[caseId];
    var routes :| CoversCase(record, routes)
      && e == Reproduce(config.mode, e.caseId, record.issue, routes, config.mentionsTax(record.issue));
    var k :| 0 <= k < |record.routes| && record.routes[k] == route;
    assert record.routes[k] in routes;
    GateMeaning(e);
    GateOfReproduction(config.mode, e.caseId, record.issue, routes, config.mentionsTax(record.issue));
    ReproduceCovers(config.mode, e.caseId, record.issue, routes, config.mentionsTax(record.issue), route);
    var i :| 0 <= i < |e.routes| && e.routes[i].route == route;
    assert e.routes[i] in e.routes;
  }

  /**
   Every job ever created was started with evidence that covers every triaged route of its own case with a
   reproduction and an assertion; so none exists in live mode, nor for a case triaged to anything but the
   React and backend routes.
   */
  lemma EvidenceSafety(config: Config, steps: seq<Step>, id: J.JobId, route: Route)
    requires IsRun(config, steps) && id in Run(config, steps).jm.jobs
    ensures var s := Run(config, steps); var job := s.jm.jobs[id];
      && id in s.jm.startedWith && job.caseId in s.cases && job.allowedScope == DEMO_ALLOWED_SCOPE
      && s.jm.startedWith[id].caseId == job.caseId && job.issue == s.cases[job.caseId].issue
      && config.mode == Demo
      && (route in s.cases[job.caseId].routes ==>
            EstablishedRoute(s.jm.startedWith[id], route) && (route == ReactUi || route == BackendApi))
  {
    hide Next, Enabled, FilesOk, ReviewsOk, J.Inv, EstablishedRoute, Established, EvaluateEvidenceGate;
    InvHoldsOverRuns(config, steps);
    var s := Run(config, steps);
    assert JobPermitted(config, s.cases, s.jm, id);
    var job, e := s.jm.jobs[id], s.jm.startedWith[id];
    var first := s.cases[job.caseId].routes[0];
    PermittedMeans(config, s.cases, job.caseId, job.issue, job.allowedScope, e, first);
    if route in s.cases[job.caseId].routes {
      PermittedMeans(config, s.cases, job.caseId, job.issue, job.allowedScope, e, route);
    }
  }

  /** Under any interleaving of startFix calls a case never has more jobs than the limit, numbered 1 to n. */
  lemma AttemptsAreLimited(config: Config, steps: seq<Step>, c: CaseId)
    requires IsRun(config, steps)
    ensures var jm := Run(config, steps).jm;
      |J.Attempts(jm.jobs, jm.order, c)| <= config.settings.maxAttempts && J.OneToN(J.Attempts(jm.jobs, jm.order, c))
  {
    InvHoldsOverRuns(config, steps);
    var jm := Run(config, steps).jm;
    assert J.OneToN(J.Attempts(jm.jobs, jm.order, c));
    assert |J.Attempts(jm.jobs, jm.order, c)| + |J.Unregistered(jm, c)| <= config.settings.maxAttempts;
  }

  /** A review starts exactly for a verified job of the given case, and is sent back at once unless it is completed. */
  lemma ReviewBelongsToCase(config: Config, s: State, call: Call, caseId: CaseId, jobId: J.JobId)
    requires Inv(config, s) && Enabled(s, ReviewBegins(call, caseId, jobId))
    ensures var t := Next(s, config, ReviewBegins(call, caseId, jobId));
      && (call in t.reviews <==> jobId in s.reports && jobId in s.jm.jobs && s.jm.jobs[jobId].caseId == caseId)
      && (call in t.reviews ==>
            (t.reviews[call].Fingerprinting? <==> s.jm.jobs[jobId].state.Completed?)
            && (!s.jm.jobs[jobId].state.Completed? ==>
                  t.reviews[call] == SentBack(Verdict(Revise, false, false, false, false))))
  {
    hide FilesOk, JobsPermitted, J.Inv, IsVerified, ReviewOk;
    if jobId in s.reports {
      ReportNamesCase(config, s.jm.jobs[jobId], s.reports[jobId]);
    }
  }

  lemma ReportNamesCase(config: Config, job: J.JobRecord, report: Report)
    requires IsVerified(config, job, report)
    ensures report.caseId == job.caseId
  {
    hide StatusOutput, ChangedFiles, PathScope.IsAllowedChange;
  }

  /** The fingerprint lets a review go on exactly when entries and patch are the verified ones. */
  lemma FingerprintGate(config: Config, s: State, call: Call, entries: seq<StatusEntry>, patch: string,
                        seen: Observation)
    requires Injective(config.settings.hash) && Enabled(s, FingerprintRead(call, entries, patch, true))
    requires GoodEntries(seen.entries)
    requires s.reviews[call].report == Verify(s.reviews[call].job, seen, config.settings.hash)
    ensures var t := Next(s, config, FingerprintRead(call, entries, patch, true));
      && call in t.reviews
      && (t.reviews[call].ReadingPatch? <==> entries == seen.entries && patch == seen.patch)
      && (!(entries == seen.entries && patch == seen.patch) ==>
            t.reviews[call] == SentBack(Verdict(Revise, false, true, false, false)))
  {
    hide StatusOutput, ChangedFiles, PathScope.IsAllowedChange, GoodEntries, Preimage;
    FingerprintDeterminesPatch(config.settings.hash, entries, patch, seen.entries, seen.patch);
  }

  lemma ScopeOfEntries(entries: seq<StatusEntry>)
    ensures AllInScope(DEMO_ALLOWED_SCOPE, entries) <==> forall e :: e in entries ==> BelowDemoDirectory(e.path)
  {
    hide PathScope.IsAllowedChange, BelowDemoDirectory;
    forall e | e in entries
      ensures PathScope.IsAllowedChange(DEMO_ALLOWED_SCOPE, e.path) <==> BelowDemoDirectory(e.path) {
      DemoScopeMeaning(e.path);
    }
  }

  // ---------------------------------------------------------------- approvals and the verifications of the run

  /** Step `k` of the run ended a verification of job `id` with this report. */
  predicate VerifiedAt(config: Config, steps: seq<Step>, k: nat, id: J.JobId, report: Report) {
    && k < |steps| && steps[k].VerifyEnds? && steps[k].ok
    && var verifies := Run(config, steps[..k]).verifies;
       && steps[k].call in verifies && verifies[steps[k].call].jobId == id
       && report == Verify(verifies[steps[k].call], steps[k].seen, config.settings.hash)
  }

  ghost predicate VerifiedInRun(config: Config, steps: seq<Step>, id: J.JobId, report: Report) {
    exists k: nat :: VerifiedAt(config, steps, k, id, report)
  }

  lemma VerifiedStays(config: Config, steps: seq<Step>, id: J.JobId, report: Report)
    requires steps != [] && VerifiedInRun(config, steps[..|steps| - 1], id, report)
    ensures VerifiedInRun(config, steps, id, report)
  {
    hide Run, Verify;
    var init := steps[..|steps| - 1];
    var k: nat :| VerifiedAt(config, init, k, id, report);
    assert init[..k] == steps[..k];
    assert VerifiedAt(config, steps, k, id, report);
  }

  /** The job and report that a review still speaks about come from a verification of the run. */
  ghost predicate ReviewFromRun(config: Config, steps: seq<Step>, r: ReviewCall) {
    r.SentBack? || VerifiedInRun(config, steps, r.job.jobId, r.report)
  }

  /** Where the job and report of a review come from. */
  lemma ReviewSource(config: Config, s: State, step: Step, call: Call)
    requires Enabled(s, step) && call in Next(s, config, step).reviews
    ensures var r := Next(s, config, step).reviews[call];
      || r.SentBack?
      || (call in s.reviews && !s.reviews[call].SentBack?
          && s.reviews[call].job == r.job && s.reviews[call].report == r.report)
      || (step.ReviewBegins? && step.jobId in s.jm.jobs && step.jobId in s.reports
          && r.job == s.jm.jobs[step.jobId] && r.report == s.reports[step.jobId])
  {
    hide GoodObservation, GoodEntries, StatusOutput, JobsAfterFix, Verify, Reproduce, MayVerify, MayReproduce,
      Review.ReviewPatch;
  }

  ghost predicate ReportsFromRun(config: Config, steps: seq<Step>) {
    var reports := Run(config, steps).reports;
    forall id :: id in reports ==> VerifiedInRun(config, steps, id, reports[id])
  }

  lemma ReportFromRun(config: Config, steps: seq<Step>, id: J.JobId)
    requires steps != [] && IsRun(config, steps)
    requires ReportsFromRun(config, steps[..|steps| - 1])
    requires id in Run(config, steps).reports
    ensures VerifiedInRun(config, steps, id, Run(config, steps).reports[id])
  {
    hide Next, Verify, VerifiedInRun, MayVerify;
    var init, last := steps[..|steps| - 1], steps[|steps| - 1];
    var s := Run(config, init);
    ReportsFrame(config, s, last);
    if last.VerifyEnds? && last.ok && s.verifies[last.call].jobId == id {
      EndedJustNow(config, steps);
    } else {
      VerifiedStays(config, steps, id, s.reports[id]);
    }
  }

  lemma EndedJustNow(config: Config, steps: seq<Step>)
    requires steps != [] && IsRun(config, steps) && steps[|steps| - 1].VerifyEnds? && steps[|steps| - 1].ok
    ensures var s, last := Run(config, steps[..|steps| - 1]), steps[|steps| - 1];
      && last.call in s.verifies
      && VerifiedInRun(config, steps, s.verifies[last.call].jobId,
                       Verify(s.verifies[last.call], last.seen, config.settings.hash))
  {
    hide Next, Verify;
    var s, last := Run(config, steps[..|steps| - 1]), steps[|steps| - 1];
    assert VerifiedAt(config, steps, |steps| - 1, s.verifies[last.call].jobId,
                      Verify(s.verifies[last.call], last.seen, config.settings.hash));
  }

  /** Every stored report, and every review still under way or answered, rests on a verification of the run. */
  lemma {:induction false} ReportsComeFromVerifications(config: Config, steps: seq<Step>)
    requires IsRun(config, steps)
    ensures ReportsFromRun(config, steps)
    ensures forall call :: call in Run(config, steps).reviews ==>
      ReviewFromRun(config, steps, Run(config, steps).reviews[call])
  {
    hide Next, VerifiedInRun, Inv, FilesOk, JobsPermitted, ReviewsOk, J.Inv;
    if steps == [] {
    } else {
      var init, last := steps[..|steps| - 1], steps[|steps| - 1];
      var s, t := Run(config, init), Run(config, steps);
      ReportsComeFromVerifications(config, init);
      JobIdsMatchOverRuns(config, init);
      forall id | id in t.reports ensures VerifiedInRun(config, steps, id, t.reports[id]) {
        ReportFromRun(config, steps, id);
      }
      forall call | call in t.reviews ensures ReviewFromRun(config, steps, t.reviews[call]) {
        ReviewSource(config, s, last, call);
        var r := t.reviews[call];
        if !r.SentBack? {
          VerifiedStays(config, steps, r.job.jobId, r.report);
        }
      }
    }
  }

  lemma JobIdsMatchOverRuns(config: Config, steps: seq<Step>)
    requires IsRun(config, steps)
    ensures forall id :: id in Run(config, steps).jm.jobs ==> Run(config, steps).jm.jobs[id].jobId == id
  {
    hide Run, IsRun, FilesOk, JobsPermitted, ReviewsOk, J.Inv;
    InvHoldsOverRuns(config, steps);
    JobIdsMatch(config, Run(config, steps));
  }

  lemma {:induction false} RunPrefix(config: Config, steps: seq<Step>, k: nat)
    requires IsRun(config, steps) && k <= |steps|
    ensures IsRun(config, steps[..k])
  {
    hide Next, Enabled;
    if k == |steps| {
      assert steps[..k] == steps;
    } else {
      RunPrefix(config, steps[..|steps| - 1], k);
      assert steps[..|steps| - 1][..k] == steps[..k];
    }
  }

  /** A job is the same job at every later point of a run. */
  lemma {:induction false} IdentityOverRuns(config: Config, steps: seq<Step>, k: nat, id: J.JobId)
    requires IsRun(config, steps) && k <= |steps| && id in Run(config, steps[..k]).jm.jobs
    ensures id in Run(config, steps).jm.jobs
    ensures J.SameIdentity(Run(config, steps).jm.jobs[id], Run(config, steps[..k]).jm.jobs[id])
  {
    hide Next, Enabled, FilesOk, JobsPermitted, ReviewsOk, J.Inv;
    if k == |steps| {
      assert steps[..k] == steps;
    } else {
      var init := steps[..|steps| - 1];
      assert init[..k] == steps[..k];
      IdentityOverRuns(config, init, k, id);
      InvHoldsOverRuns(config, init);
      JobsKeepIdentity(config, Run(config, init), steps[|steps| - 1], id);
    }
  }

  lemma SameVerification(config: Config, a: J.JobRecord, b: J.JobRecord, seen: Observation)
    requires J.SameIdentity(a, b)
    ensures Verify(a, seen, config.settings.hash) == Verify(b, seen, config.settings.hash)
  {
    hide StatusOutput, ChangedFiles, PathScope.IsAllowedChange, J.TestsHash;
  }

  /** The verification behind an answered review, as a step of the run. */
  lemma VerificationOf(config: Config, steps: seq<Step>, call: Call) returns (k: nat, seen: Observation)
    requires IsRun(config, steps) && call in Run(config, steps).reviews && Run(config, steps).reviews[call].Answered?
    ensures var r := Run(config, steps).reviews[call];
      && VerifiedAt(config, steps, k, r.job.jobId, r.report)
      && k < |steps| && steps[k].VerifyEnds? && seen == steps[k].seen && GoodObservation(seen)
      && steps[k].call in Run(config, steps[..k]).verifies
      && Run(config, steps[..k]).verifies[steps[k].call].state.Completed?
      && r.report == Verify(r.job, seen, config.settings.hash)
  {
    hide Next, FilesOk, JobsPermitted, J.Inv, Verify, ReviewOk;
    ReportsComeFromVerifications(config, steps);
    var s := Run(config, steps);
    var r := s.reviews[call];
    k :| VerifiedAt(config, steps, k, r.job.jobId, r.report);
    seen := steps[k].seen;
    RunPrefix(config, steps, k + 1);
    assert steps[..k + 1][..k] == steps[..k];
    RunPrefix(config, steps, k);
    InvHoldsOverRuns(config, steps[..k]);
    InvHoldsOverRuns(config, steps);
    IdentityOverRuns(config, steps, k, r.job.jobId);
    KnownJob(config, s, call);
    SameVerification(config, r.job, Run(config, steps[..k]).verifies[steps[k].call], steps[k].seen);
  }

  lemma KnownJob(config: Config, s: State, call: Call)
    requires ReviewsOk(config, s) && call in s.reviews && s.reviews[call].Answered?
    ensures Known(s.jm, s.reviews[call].job)
  {
    hide IsVerified, GoodEntries, StatusOutput, Review.ReviewPatch;
    assert ReviewOk(config, s.jm, s.reviews[call]);
  }

  /** Both acceptance trees of a job are the ones its recorded hashes were taken of. */
  lemma JobBaseline(config: Config, s: State, job: J.JobRecord)
    requires J.Inv(s.jm, config.settings) && Known(s.jm, job)
    ensures J.Baseline(config.settings, job)
  {
    hide J.IdsOk, J.OrderOk, J.StatesOk, J.PendingOk, J.AttemptsOk, J.LimitOk;
    assert J.Baseline(config.settings, s.jm.jobs[job.jobId]);
  }

  /** What passed tests say about one of the two acceptance trees. */
  ghost predicate TreeUnchanged(config: Config, start: seq<Entry>, now: seq<Entry>) {
    && J.TestsHash(config.settings.hash, now) == J.TestsHash(config.settings.hash, start)
    && (Unforgeable(J.ACCEPTANCE_DIRECTORY, start) || (NulFreeContents(start) && NulFreeContents(now)) ==>
          SameFiles(start, now))
  }

  /** What an approving answer says, given the verification that its report came from. */
  lemma ApprovalFacts(config: Config, s: State, call: Call, seen: Observation)
    requires Injective(config.settings.hash) && J.Inv(s.jm, config.settings) && ReviewsOk(config, s)
    requires call in s.reviews && s.reviews[call].Answered? && Approves(s.reviews[call].answer)
    requires GoodObservation(seen) && s.reviews[call].report == Verify(s.reviews[call].job, seen, config.settings.hash)
    ensures var r := s.reviews[call];
      && Known(s.jm, r.job) && r.job.state.Completed?
      && seen.exitCode == 0 && AllInScope(r.job.allowedScope, seen.entries)
      && TreeUnchanged(config, r.job.protectedTests, seen.protectedTests)
      && TreeUnchanged(config, r.job.independentTests, seen.independentTests)
      && r.entries == seen.entries && r.patch == seen.patch && !config.destructive(r.reviewed)
  {
    hide J.Inv, Verify, Review.ReviewPatch, AllInScope, IsVerified, J.TestsHash, WellFormed, StatusOutput, GoodEntries,
      TreeUnchanged, Injective;
    var r, hash := s.reviews[call], config.settings.hash;
    assert ReviewOk(config, s.jm, r);
    ApprovalMeaning(ReviewClientOf(config, r.answers), r.job, seen, hash, config.destructive(r.reviewed));
    FingerprintOf(r.job, seen, hash);
    FingerprintDeterminesPatch(hash, r.entries, r.patch, seen.entries, seen.patch);
    JobBaseline(config, s, r.job);
    TreeIsUnchanged(config, r.job.protectedTests, r.job.protectedHash, seen.protectedTests);
    TreeIsUnchanged(config, r.job.independentTests, r.job.independentHash, seen.independentTests);
  }

  /**
   An approval speaks of a job that was completed when the review began, and rests on a step of this very run that
   verified that job: the script exited 0, every changed file was below the demo directory, and both acceptance
   trees were those of the job's start. The worktree fingerprinted by the review has the verified changed files and
   patch, and the text handed to the review client is not destructive.
   */
  lemma ApprovalIsSound(config: Config, steps: seq<Step>, call: Call) returns (k: nat, seen: Observation)
    requires IsRun(config, steps) && Injective(config.settings.hash)
    requires var reviews := Run(config, steps).reviews;
      call in reviews && reviews[call].Answered? && Approves(reviews[call].answer)
    ensures var s := Run(config, steps); var r := s.reviews[call];
      && Known(s.jm, r.job) && r.job.state.Completed? && config.mode == Demo
      && VerifiedAt(config, steps, k, r.job.jobId, r.report)
      && k < |steps| && steps[k].VerifyEnds? && seen == steps[k].seen
      && steps[k].call in Run(config, steps[..k]).verifies
      && Run(config, steps[..k]).verifies[steps[k].call].state.Completed?
      && seen.exitCode == 0 && (forall e :: e in seen.entries ==> BelowDemoDirectory(e.path))
      && TreeUnchanged(config, r.job.protectedTests, seen.protectedTests)
      && TreeUnchanged(config, r.job.independentTests, seen.independentTests)
      && r.entries == seen.entries && r.patch == seen.patch
      && !config.destructive(r.reviewed)
  {
    hide Run, IsRun, FilesOk, JobsPermitted, ReviewsOk, J.Inv, Verify, VerifiedAt, AllInScope, BelowDemoDirectory,
      TreeUnchanged, GoodObservation, Injective, EstablishedRoute;
    InvHoldsOverRuns(config, steps);
    var s := Run(config, steps);
    k, seen := VerificationOf(config, steps, call);
    ApprovalFacts(config, s, call, seen);
    EvidenceSafety(config, steps, s.reviews[call].job.jobId, ReactUi);
    ScopeOfEntries(seen.entries);
  }

  lemma FingerprintOf(job: J.JobRecord, seen: Observation, hash: string -> string)
    ensures Verify(job, seen, hash).fingerprint == hash(Preimage(StatusOutput(seen.entries), seen.patch))
  {
    hide StatusOutput, ChangedFiles, PathScope.IsAllowedChange, J.TestsHash;
  }

  lemma TreeIsUnchanged(config: Config, start: seq<Entry>, digest: string, now: seq<Entry>)
    requires Injective(config.settings.hash) && WellFormed(start) && WellFormed(now)
    requires digest == J.TestsHash(config.settings.hash, start) == J.TestsHash(config.settings.hash, now)
    ensures TreeUnchanged(config, start, now)
  {
    hide J.TestsHash, WellFormed, Unforgeable, NulFreeContents, SameFiles;
    UnchangedHashMeaning(config.settings.hash, start, now);
  }

  /**
   What decides the demo client's answer once the fingerprint matched: the verdict, and the text as read again. So a
   destructive patch that was verified can be approved exactly when the text read again differs and is not destructive.
   */
  lemma ApprovalReadsAgain(config: Config, steps: seq<Step>, call: Call, text: string, answers: Option<Answers>)
    requires IsRun(config, steps) && Enabled(Run(config, steps), PatchRead(call, text, answers, true))
    ensures var s := Run(config, steps); var t := Next(s, config, PatchRead(call, text, answers, true));
      && call in t.reviews && t.reviews[call].Answered?
      && (Approves(t.reviews[call].answer) <==> s.reviews[call].report.testsPassed && !config.destructive(text))
      && (text == s.reviews[call].patch && Approves(t.reviews[call].answer) ==>
            !config.destructive(s.reviews[call].patch))
  {
    hide Run, IsRun, FilesOk, JobsPermitted, J.Inv, Verify, Review.ReviewPatch, AllInScope, GoodEntries, StatusOutput,
      EstablishedRoute;
    InvHoldsOverRuns(config, steps);
    var s := Run(config, steps);
    var r := s.reviews[call];
    assert ReviewOk(config, s.jm, r);
    EvidenceSafety(config, steps, r.job.jobId, ReactUi);
    var seen: Observation :| GoodObservation(seen) && r.report == Verify(r.job, seen, config.settings.hash);
    VerdictMeaning(r.job, seen, config.settings.hash);
    ApprovalMeaning(ReviewClientOf(config, answers), r.job, seen, config.settings.hash, config.destructive(text));
  }

  /** What the service answers by itself never approves. */
  lemma SentBackIsRevised(config: Config, steps: seq<Step>, call: Call)
    requires IsRun(config, steps) && call in Run(config, steps).reviews && Run(config, steps).reviews[call].SentBack?
    ensures Run(config, steps).reviews[call].verdict.decision == Revise
  {
    hide FilesOk, JobsPermitted, J.Inv, Next, Enabled, Run, IsRun;
    InvHoldsOverRuns(config, steps);
    assert ReviewOk(config, Run(config, steps).jm, Run(config, steps).reviews[call]);
  }

  /** Every answered review, in terms of the verification it rests on: what goes back, to a human, or is approved. */
  lemma EveryAnswerIsExplained(config: Config, steps: seq<Step>, call: Call) returns (k: nat, seen: Observation)
    requires IsRun(config, steps) && call in Run(config, steps).reviews && Run(config, steps).reviews[call].Answered?
    ensures var r := Run(config, steps).reviews[call];
      var passed := seen.exitCode == 0 && AllInScope(r.job.allowedScope, seen.entries)
        && J.TestsHash(config.settings.hash, seen.protectedTests) == r.job.protectedHash
        && J.TestsHash(config.settings.hash, seen.independentTests) == r.job.independentHash;
      && VerifiedAt(config, steps, k, r.job.jobId, r.report)
      && k < |steps| && steps[k].VerifyEnds? && seen == steps[k].seen
      && r.answer.Some?
      && (r.answer.value.decision == Revise <==> !passed)
      && (r.answer.value.decision == Handoff <==> passed && config.destructive(r.reviewed))
      && (r.answer.value.decision == Approve <==> passed && !config.destructive(r.reviewed))
  {
    hide Run, IsRun, FilesOk, JobsPermitted, J.Inv, Verify, VerifiedAt, AllInScope, GoodEntries, StatusOutput,
      Review.ReviewPatch, EstablishedRoute, J.TestsHash;
    InvHoldsOverRuns(config, steps);
    var s := Run(config, steps);
    var r := s.reviews[call];
    k, seen := VerificationOf(config, steps, call);
    assert ReviewOk(config, s.jm, r);
    EvidenceSafety(config, steps, r.job.jobId, ReactUi);
    WhoDecidesNext(DemoClient, r.job, seen, config.settings.hash, config.destructive(r.reviewed));
  }

  /** Who answers: the demo client's in demo mode, the remote model's in live mode with a key, else a hand-off. */
  lemma AnsweringClient(config: Config, s: State, call: Call, text: string, answers: Option<Answers>)
    requires Enabled(s, PatchRead(call, text, answers, true)) && s.reviews[call].report.testsPassed
    ensures var r, t := s.reviews[call], Next(s, config, PatchRead(call, text, answers, true));
      && call in t.reviews && t.reviews[call].Answered?
      && t.reviews[call].job == r.job && t.reviews[call].report == r.report && t.reviews[call].reviewed == text
      && var answer := t.reviews[call].answer;
         && (config.mode == Demo ==> answer.Some? && answer.value.decision != Revise)
         && (config.mode == Live && !config.hasApiKey ==> answer.Some? && answer.value.decision == Handoff)
         && (config.mode == Live && config.hasApiKey ==>
               && (answer.Some? <==> answers.Some?)
               && (answers.Some? ==> answer.value.issueCovered == answers.value.issueCovered)
               && (answers.Some? && !config.destructive(text) && !answers.value.destructive ==>
                     answer.value.decision == answers.value.decision))
  {
    hide Review.ReviewPatch, ScopeExpanded, LeavesScope;
    var r, destructive := s.reviews[call], config.destructive(text);
    DemoHandsOff(r.job, r.report, destructive);
    UnavailableHandsOff(r.job, r.report, destructive);
    RemoteAnswersStand(answers, r.job, r.report, destructive);
  }

  // ---------------------------------------------------------------- what starts a call, and what it leaves behind

  function Triages(steps: seq<Step>): nat {
    if steps == [] then 0 else Triages(steps[..|steps| - 1]) + if steps[|steps| - 1].Triaged? then 1 else 0
  }

  lemma CasesStep(config: Config, s: State, step: Step)
    requires Enabled(s, step)
    ensures var t := Next(s, config, step);
      && t.caseOrdinal == s.caseOrdinal + (if step.Triaged? then 1 else 0)
      && forall c :: c in t.cases <==>
           c in s.cases || (step.Triaged? && c == s.caseOrdinal + 1 && step.issue != "" && step.routes != [])
    ensures forall c :: c in Next(s, config, step).cases ==>
      Next(s, config, step).cases[c] ==
        if step.Triaged? && c == s.caseOrdinal + 1 && step.issue != "" && step.routes != []
        then CaseRecord(step.issue, step.routes) else s.cases[c]
  {
    hide JobsAfterFix, ReviewsBegun, Fingerprinted, AnsweredBy, MayReproduce, MayVerify, Verify, Policy.Reproduce;
  }

  lemma {:induction false} CasesAreNumbered(config: Config, steps: seq<Step>)
    requires IsRun(config, steps)
    ensures Run(config, steps).caseOrdinal == Triages(steps)
    ensures forall c :: c in Run(config, steps).cases ==> 1 <= c <= Triages(steps)
  {
    hide Next, Enabled;
    if steps == [] {
    } else {
      CasesAreNumbered(config, steps[..|steps| - 1]);
      CasesStep(config, Run(config, steps[..|steps| - 1]), steps[|steps| - 1]);
    }
  }

  /** The n-th triage decides case n, for good: its issue and routes, or no case at all when they are not valid. */
  lemma {:induction false} CaseOfTriage(config: Config, steps: seq<Step>, k: nat)
    requires IsRun(config, steps) && k < |steps| && steps[k].Triaged?
    ensures var c, valid := Triages(steps[..k]) + 1, steps[k].issue != "" && steps[k].routes != [];
      && c <= Triages(steps)
      && (c in Run(config, steps).cases <==> valid)
      && (valid ==> Run(config, steps).cases[c] == CaseRecord(steps[k].issue, steps[k].routes))
  {
    hide Next, Enabled;
    var init, last := steps[..|steps| - 1], steps[|steps| - 1];
    CasesAreNumbered(config, init);
    CasesStep(config, Run(config, init), last);
    assert init[..k] == steps[..k];
    if k == |steps| - 1 {
      assert steps[..k] == init;
    } else {
      CaseOfTriage(config, init, k);
    }
  }

  /** reproduce goes on exactly for a triaged case, its own issue and all of its routes. */
  lemma ReproduceSaves(config: Config, s: State, call: Call, caseId: CaseId, issue: string, routes: seq<Route>)
    requires call !in s.writes
    ensures var t := Next(s, config, ReproduceBegins(call, caseId, issue, routes));
      && (call in t.writes <==>
            && caseId in s.cases && s.cases[caseId].issue == issue
            && forall route :: route in s.cases[caseId].routes ==> route in routes)
      && (call !in t.writes ==> t == s)
      && (call in t.writes ==>
            && t == s.(writes := s.writes[call := t.writes[call]])
            && t.writes[call].caseId == caseId && t.writes[call].issue == issue
            && forall route :: Covers(t.writes[call], route) <==> route in routes)
  {
    hide Covers, Policy.Reproduce;
    ReproducesInput(config.mode, caseId, issue, routes, config.mentionsTax(issue));
  }

  lemma ReproducesInput(mode: Mode, caseId: CaseId, issue: string, routes: seq<Route>, taxIssue: bool)
    ensures var e := Policy.Reproduce(mode, caseId, issue, routes, taxIssue);
      && e.caseId == caseId && e.issue == issue
      && forall route :: Covers(e, route) <==> route in routes
  {
    forall route ensures Covers(Policy.Reproduce(mode, caseId, issue, routes, taxIssue), route) <==> route in routes {
      ReproduceCovers(mode, caseId, issue, routes, taxIssue, route);
    }
  }

  /** A save may land at any time before its call goes on, and puts just its evidence into the file of its own case. */
  lemma SavesLand(config: Config, s: State, call: Call)
    ensures call in s.writes ==>
      && Enabled(s, EvidenceLands(call)) && Enabled(s, ReproduceEnds(call))
      && Next(s, config, EvidenceLands(call)) == s.(files := s.files[s.writes[call].caseId := s.writes[call]])
      && Next(s, config, ReproduceEnds(call)) == s.(writes := s.writes - {call})
    ensures call in s.jm.starts && s.jm.starts[call].phase.SavingEvidence? ==>
      && Enabled(s, JobEvidenceLands(call)) && Enabled(s, JobMoves(J.EvidenceSaved(call)))
      && var e := s.jm.starts[call].input.evidence;
         Next(s, config, JobEvidenceLands(call)) == s.(files := s.files[e.caseId := e])
  {
  }

  /** startFix goes on exactly in the demo scope and with a repository. */
  lemma FixBeginsInScope(config: Config, s: State, call: Call, caseId: CaseId, scope: string)
    requires Enabled(s, FixBegins(call, caseId, scope))
    ensures var t := Next(s, config, FixBegins(call, caseId, scope));
      && (call in t.fixes <==> scope == "packages/resolveforge-demo/src" && config.hasTargetRepo)
      && (call in t.fixes ==> t.fixes[call] == FixCall(caseId, scope, None))
      && t == s.(fixes := t.fixes) && t.fixes - {call} == s.fixes
  {
  }

  /** It sees the evidence file of its case as it is when the read lands. */
  lemma FixSeesFile(config: Config, s: State, call: Call)
    requires Enabled(s, FixReads(call))
    ensures var t, f := Next(s, config, FixReads(call)), s.fixes[call];
      && f.caseId in s.files
      && t == s.(fixes := s.fixes[call := FixCall(f.caseId, f.scope, Some(s.files[f.caseId]))])
  {
  }

  /**
   And it starts a job exactly when it read evidence in which every route is reproduced with an assertion, and the case
   has fewer jobs and starts in flight than attempts; the start is given that evidence, its issue, case and scope.
   */
  lemma FixStartsExactly(config: Config, s: State, call: Call, stamp: nat)
    requires J.Inv(s.jm, config.settings) && Enabled(s, FixResumes(call, stamp))
    ensures var t, f := Next(s, config, FixResumes(call, stamp)), s.fixes[call];
      && t.fixes == s.fixes - {call}
      && (call in t.jm.starts <==>
            && f.evidence.Some? && (forall e :: e in f.evidence.value.routes ==> Established(e))
            && |J.Attempts(s.jm.jobs, s.jm.order, f.caseId)| + |J.Calls(s.jm.starts, f.caseId)|
                 < config.settings.maxAttempts)
      && (call in t.jm.starts ==>
            t.jm.starts[call].input == J.StartInput(f.caseId, f.evidence.value, f.evidence.value.issue, f.scope))
      && (call !in t.jm.starts ==> t.jm == s.jm)
  {
    hide J.IdsOk, J.OrderOk, J.StatesOk, J.BaselinesOk, J.AttemptsOk, J.LimitOk, J.Attempts, EvaluateEvidenceGate,
      Established, ReviewsBegun, Fingerprinted, AnsweredBy, MayReproduce, MayVerify, Verify, Policy.Reproduce;
    var f := s.fixes[call];
    if f.evidence.Some? {
      GateMeaning(f.evidence.value);
    }
    assert J.PendingOf(s.jm, f.caseId) == |J.Calls(s.jm.starts, f.caseId)|;
  }

  /** A verification starts exactly for a completed job of the given case, on the record as it then is. */
  lemma VerifyStartsExactly(config: Config, s: State, call: Call, caseId: CaseId, jobId: J.JobId)
    requires call !in s.verifies
    ensures var t := Next(s, config, VerifyBegins(call, caseId, jobId));
      && (call in t.verifies <==>
            jobId in s.jm.jobs && s.jm.jobs[jobId].caseId == caseId && s.jm.jobs[jobId].state.Completed?)
      && (call in t.verifies ==> t == s.(verifies := s.verifies[call := s.jm.jobs[jobId]]))
      && (call !in t.verifies ==> t == s)
  {
  }

  /** A verification or review that throws leaves no report and no answer behind. */
  lemma ThrownCallsLeaveNothing(config: Config, s: State, step: Step)
    requires Enabled(s, step)
    requires (step.VerifyEnds? || step.FingerprintRead? || step.PatchRead?) && !step.ok
    ensures var t := Next(s, config, step);
      && step.call !in (if step.VerifyEnds? then t.verifies.Keys else t.reviews.Keys)
      && t == s.(verifies := s.verifies - (if step.VerifyEnds? then {step.call} else {}),
                 reviews := s.reviews - (if step.VerifyEnds? then {} else {step.call}))
  {
    hide Verify, GoodEntries, Fingerprinted, AnsweredBy;
    assert s.verifies - {} == s.verifies && s.reviews - {} == s.reviews;
  }

  // ---------------------------------------------------------------- the class

  /** ResolveForgeService with the evidence files it shares with its job manager. */
  class ResolveForgeService {
    const config: Config
    const jobManager: J.Manager
    var cases: map<CaseId, CaseRecord>
    var caseOrdinal: nat
    var reports: map<J.JobId, Report>
    // the file system and the calls that will come back
    var files: map<CaseId, Evidence>
    var writes: map<Call, Evidence>
    var fixes: map<Call, FixCall>
    var verifies: map<Call, J.JobRecord>
    var reviews: map<Call, ReviewCall>

    constructor (config: Config)
      ensures this.config == config && Valid() && View() == INITIAL && fresh(jobManager)
    {
      this.config := config;
      jobManager := new J.Manager(config.settings);
      cases, caseOrdinal, reports := map[], 0, map[];
      files, writes, fixes, verifies, reviews := map[], map[], map[], map[], map[];
    }

    ghost predicate Valid() {
      jobManager.settings == config.settings
    }

    ghost function View(): State
      reads this, jobManager
    {
      State(cases, caseOrdinal, files, writes, fixes, jobManager.View(), verifies, reports, reviews)
    }

    /** triage(), after the classifier answered. */
    method AfterTriage(issue: string, routes: seq<Route>) returns (ok: bool)
      modifies this
      ensures View() == Next(old(View()), config, Triaged(issue, routes))
      ensures ok == (issue != "" && routes != [])
      ensures ok ==> caseOrdinal in cases && cases[caseOrdinal] == CaseRecord(issue, routes)
    {
      caseOrdinal := caseOrdinal + 1;
      ok := issue != "" && routes != [];
      if ok {
        cases := cases[caseOrdinal := CaseRecord(issue, routes)];
      }
    }

    /** reproduce(), up to the save; `ok` is false when it throws. */
    method Reproduce(call: Call, caseId: CaseId, issue: string, routes: seq<Route>) returns (ok: bool)
      requires call !in writes
      modifies this
      ensures View() == Next(old(View()), config, ReproduceBegins(call, caseId, issue, routes))
      ensures ok == MayReproduce(old(View()), caseId, issue, routes)
    {
      if caseId !in cases {
        return false;
      }
      var triage := cases[caseId];
      if exists i :: 0 <= i < |triage.routes| && triage.routes[i] !in routes {
        return false;
      }
      if issue != triage.issue {
        return false;
      }
      writes := writes[call := Policy.Reproduce(config.mode, caseId, issue, routes, config.mentionsTax(issue))];
      ok := true;
    }

    method SaveLands(call: Call)
      requires call in writes
      modifies this`files
      ensures View() == Next(old(View()), config, EvidenceLands(call))
    {
      files := files[writes[call].caseId := writes[call]];
    }

    method AfterSave(call: Call)
      requires call in writes
      modifies this`writes
      ensures View() == Next(old(View()), config, ReproduceEnds(call))
    {
      writes := writes - {call};
    }

    /** startFix(), up to reading the evidence. */
    method StartFix(call: Call, caseId: CaseId, scope: string) returns (ok: bool)
      requires Enabled(View(), FixBegins(call, caseId, scope))
      modifies this`fixes
      ensures View() == Next(old(View()), config, FixBegins(call, caseId, scope))
      ensures ok == (scope == DEMO_ALLOWED_SCOPE && config.hasTargetRepo)
    {
      if scope != DEMO_ALLOWED_SCOPE {
        return false;
      }
      if !config.hasTargetRepo {
        return false;
      }
      fixes := fixes[call := FixCall(caseId, scope, None)];
      ok := true;
    }

    method ReadLands(call: Call)
      requires Enabled(View(), FixReads(call))
      modifies this`fixes
      ensures View() == Next(old(View()), config, FixReads(call))
    {
      fixes := fixes[call := fixes[call].(evidence := Some(files[fixes[call].caseId]))];
    }

    /** The rest of startFix(): the gate, then the job manager. */
    method AfterRead(call: Call, stamp: nat) returns (started: bool)
      requires Valid() && Enabled(View(), FixResumes(call, stamp))
      modifies this`fixes, jobManager
      ensures View() == Next(old(View()), config, FixResumes(call, stamp))
      ensures var f := old(fixes)[call];
        started == (f.evidence.Some? && EvaluateEvidenceGate(f.evidence.value).Allowed?
                    && J.Admits(old(jobManager.View()), config.settings, f.caseId))
    {
      hide J.Attempts, EvaluateEvidenceGate;
      var f := fixes[call];
      fixes := fixes - {call};
      if f.evidence.None? {
        return false;
      }
      var evidence := f.evidence.value;
      var gate := EvaluateEvidenceGate(evidence);
      if !gate.Allowed? {
        return false;
      }
      started := jobManager.Start(call, J.StartInput(f.caseId, evidence, evidence.issue, f.scope), stamp);
    }

    method JobSaveLands(call: Call)
      requires Enabled(View(), JobEvidenceLands(call))
      modifies this`files
      ensures View() == Next(old(View()), config, JobEvidenceLands(call))
    {
      var evidence := jobManager.starts[call].input.evidence;
      files := files[evidence.caseId := evidence];
    }

    method CancelFix(cancel: Call, jobId: J.JobId) returns (done: bool)
      requires Valid() && cancel !in jobManager.cancels
      modifies jobManager
      ensures View() == Next(old(View()), config, JobMoves(J.CancelBegins(cancel, jobId)))
    {
      hide J.Next;
      done := jobManager.Cancel(cancel, jobId);
    }

    /** verifyFix(), up to the verification. */
    method VerifyFix(call: Call, caseId: CaseId, jobId: J.JobId) returns (ok: bool)
      requires call !in verifies
      modifies this`verifies
      ensures View() == Next(old(View()), config, VerifyBegins(call, caseId, jobId))
      ensures ok == MayVerify(old(View()), caseId, jobId)
    {
      if jobId !in jobManager.jobs {
        return false;
      }
      var job := jobManager.jobs[jobId];
      if job.caseId != caseId {
        return false;
      }
      if !job.state.Completed? {
        return false;
      }
      verifies := verifies[call := job];
      ok := true;
    }

    method AfterVerify(call: Call, seen: Observation, ok: bool)
      requires Enabled(View(), VerifyEnds(call, seen, ok))
      modifies this`verifies, this`reports
      ensures View() == Next(old(View()), config, VerifyEnds(call, seen, ok))
    {
      hide Verify;
      var job := verifies[call];
      verifies := verifies - {call};
      if ok {
        reports := reports[job.jobId := Verify(job, seen, config.settings.hash)];
      }
    }

    /** reviewPatch(), up to the fingerprint. */
    method ReviewPatch(call: Call, caseId: CaseId, jobId: J.JobId)
      requires call !in reviews
      modifies this`reviews
      ensures View() == Next(old(View()), config, ReviewBegins(call, caseId, jobId))
    {
      if jobId !in jobManager.jobs {
        return;
      }
      var job := jobManager.jobs[jobId];
      if jobId !in reports || reports[jobId].caseId != caseId {
        return;
      }
      if !job.state.Completed? {
        reviews := reviews[call := SentBack(Stale(false))];
        return;
      }
      reviews := reviews[call := Fingerprinting(job, reports[jobId])];
    }

    method AfterFingerprint(call: Call, entries: seq<StatusEntry>, patch: string, ok: bool)
      requires Enabled(View(), FingerprintRead(call, entries, patch, ok))
      modifies this`reviews
      ensures View() == Next(old(View()), config, FingerprintRead(call, entries, patch, ok))
    {
      hide StatusOutput, GoodEntries;
      if !ok {
        reviews := reviews - {call};
        return;
      }
      var r := reviews[call];
      if config.settings.hash(Preimage(StatusOutput(entries), patch)) != r.report.fingerprint {
        reviews := reviews[call := SentBack(Stale(true))];
        return;
      }
      reviews := reviews[call := ReadingPatch(r.job, r.report, entries, patch)];
    }

    method AfterPatchText(call: Call, patch: string, answers: Option<Answers>, ok: bool)
      requires Enabled(View(), PatchRead(call, patch, answers, ok))
      modifies this`reviews
      ensures View() == Next(old(View()), config, PatchRead(call, patch, answers, ok))
    {
      hide Review.ReviewPatch;
      if !ok {
        reviews := reviews - {call};
        return;
      }
      var r := reviews[call];
      var answer := Review.ReviewPatch(ReviewClientOf(config, answers), r.job, r.report, config.destructive(patch));
      reviews := reviews[call := Answered(r.job, r.report, r.entries, r.patch, patch, answers, answer)];
    }
  }
}
