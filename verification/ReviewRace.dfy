/**
 A run of the service in which the verified patch is destructive and is approved all the same, because the
 worktree changes between the fingerprint and the second reading of the patch.
 */
module ReviewRace {
  import opened Prelude
  import opened Policy
  import opened Verifier
  import opened Review
  import opened Service
  import J = JobManager

  const JOB := J.JobId(0, 1)

  predicate Suitable(config: Config, issue: string, patch: string, text: string) {
    && config.mode == Demo && config.hasTargetRepo && config.settings.maxAttempts > 0 && issue != ""
    && config.destructive(patch) && !config.destructive(text)
  }

  // ---------------------------------------------------------------- the run

  function Seen(patch: string): Observation {
    Observation([], patch, [], 0, [])
  }

  function Reproducing(issue: string): seq<Step> {
    [Triaged(issue, [ReactUi]), ReproduceBegins(0, 1, issue, [ReactUi]), EvidenceLands(0)]
  }

  function Starting(issue: string): seq<Step> {
    Reproducing(issue) + [FixBegins(0, 1, DEMO_ALLOWED_SCOPE), FixReads(0), FixResumes(0, 0)]
  }

  function Fixing(issue: string): seq<Step> {
    Starting(issue)
    + [JobMoves(J.WorktreeReady(0, [], [])), JobMoves(J.EvidenceSaved(0)), JobMoves(J.WorkerStarted(0)),
       JobMoves(J.Completes(JOB, "done"))]
  }

  function Verifying(issue: string, patch: string): seq<Step> {
    Fixing(issue) + [VerifyBegins(0, 1, JOB), VerifyEnds(0, Seen(patch), true)]
  }

  function Reviewing(issue: string, patch: string, text: string): seq<Step> {
    Verifying(issue, patch)
    + [ReviewBegins(0, 1, JOB), FingerprintRead(0, [], patch, true), PatchRead(0, text, None, true)]
  }

  // ---------------------------------------------------------------- the states it passes

  function EvidenceOf(config: Config, issue: string): Evidence {
    Reproduce(config.mode, 1, issue, [ReactUi], config.mentionsTax(issue))
  }

  function InputOf(config: Config, issue: string): J.StartInput {
    J.StartInput(1, EvidenceOf(config, issue), issue, DEMO_ALLOWED_SCOPE)
  }

  function Reproduced(config: Config, issue: string): State {
    var e := EvidenceOf(config, issue);
    State(map[1 := CaseRecord(issue, [ReactUi])], 1, map[1 := e], map[0 := e], map[], J.INITIAL, map[], map[], map[])
  }

  function Started(config: Config, issue: string): State {
    Reproduced(config, issue).(jm := J.INITIAL.(
      pending := map[1 := 1], ordinal := 1,
      starts := map[0 := J.InFlight(InputOf(config, issue), JOB, J.CreatingWorktree)]))
  }

  function JobOf(config: Config, issue: string): J.JobRecord {
    var none := J.TestsHash(config.settings.hash, []);
    J.JobRecord(JOB, 1, issue, DEMO_ALLOWED_SCOPE, [], [], none, none, 1, J.Completed("done"), [])
  }

  function Fixed(config: Config, issue: string): State {
    Reproduced(config, issue).(jm := J.State(
      map[JOB := JobOf(config, issue)], [JOB], map[1 := 1], {}, 1,
      map[0 := J.InFlight(InputOf(config, issue), JOB, J.Finishing)], map[], {}, {JOB},
      map[JOB := EvidenceOf(config, issue)]))
  }

  function Verified(config: Config, issue: string, patch: string): State {
    Fixed(config, issue).(reports := map[JOB := Verify(JobOf(config, issue), Seen(patch), config.settings.hash)])
  }

  // ---------------------------------------------------------------- that it happens

  lemma OneMore(config: Config, steps: seq<Step>, step: Step)
    requires IsRun(config, steps) && Enabled(Run(config, steps), step)
    ensures IsRun(config, steps + [step])
    ensures Run(config, steps + [step]) == Next(Run(config, steps), config, step)
  {
    assert (steps + [step])[..|steps|] == steps;
  }

  lemma ReproducedHappens(config: Config, issue: string)
    requires issue != ""
    ensures IsRun(config, Reproducing(issue)) && Run(config, Reproducing(issue)) == Reproduced(config, issue)
  {
    hide Reproduce;
    var steps := Reproducing(issue);
    OneMore(config, [], steps[0]);
    assert [] + [steps[0]] == [steps[0]];
    OneMore(config, [steps[0]], steps[1]);
    assert [steps[0]] + [steps[1]] == [steps[0], steps[1]];
    assert EvidenceOf(config, issue).caseId == 1 by { EvidenceIsFor(config, issue); }
    OneMore(config, [steps[0], steps[1]], steps[2]);
    assert [steps[0], steps[1]] + [steps[2]] == steps;
  }

  lemma EvidenceIsFor(config: Config, issue: string)
    ensures EvidenceOf(config, issue).caseId == 1 && EvidenceOf(config, issue).issue == issue
    ensures config.mode == Demo ==> EvaluateEvidenceGate(EvidenceOf(config, issue)).Allowed?
  {
    GateOfReproduction(config.mode, 1, issue, [ReactUi], config.mentionsTax(issue));
  }

  /** Once the evidence is there, startFix reads it and reserves an attempt. */
  lemma StartSteps(config: Config, issue: string)
    requires config.mode == Demo && config.hasTargetRepo && config.settings.maxAttempts > 0
    ensures var s := Reproduced(config, issue);
      var begun := Next(s, config, FixBegins(0, 1, DEMO_ALLOWED_SCOPE));
      var read := Next(begun, config, FixReads(0));
      && Enabled(s, FixBegins(0, 1, DEMO_ALLOWED_SCOPE))
      && Enabled(begun, FixReads(0)) && Enabled(read, FixResumes(0, 0))
      && Next(read, config, FixResumes(0, 0)) == Started(config, issue)
  {
    hide Reproduce, EvaluateEvidenceGate;
    EvidenceIsFor(config, issue);
  }

  lemma StartedHappens(config: Config, issue: string)
    requires issue != "" && config.mode == Demo && config.hasTargetRepo && config.settings.maxAttempts > 0
    ensures IsRun(config, Starting(issue)) && Run(config, Starting(issue)) == Started(config, issue)
  {
    hide IsRun, Run, Reproducing, Next, Enabled, Reproduced, Started;
    ReproducedHappens(config, issue);
    StartSteps(config, issue);
    var a := Reproducing(issue);
    var b := a + [FixBegins(0, 1, DEMO_ALLOWED_SCOPE)];
    var c := b + [FixReads(0)];
    OneMore(config, a, FixBegins(0, 1, DEMO_ALLOWED_SCOPE));
    OneMore(config, b, FixReads(0));
    OneMore(config, c, FixResumes(0, 0));
    assert c + [FixResumes(0, 0)] == Starting(issue);
  }

  lemma JobSteps(config: Config, issue: string)
    ensures var s := Started(config, issue).jm; var settings := config.settings;
      var registered, saved, running, completed :=
        J.WorktreeReady(0, [], []), J.EvidenceSaved(0), J.WorkerStarted(0), J.Completes(JOB, "done");
      && J.Enabled(s, registered)
      && J.Enabled(J.Next(s, settings, registered), saved)
      && J.Enabled(J.Next(J.Next(s, settings, registered), settings, saved), running)
      && J.Enabled(J.Next(J.Next(J.Next(s, settings, registered), settings, saved), settings, running), completed)
      && J.Next(J.Next(J.Next(J.Next(s, settings, registered), settings, saved), settings, running), settings,
                completed)
           == Fixed(config, issue).jm
  {
    hide J.TestsHash, Reproduce;
    assert J.Attempts(map[], [], 1) == [];
  }

  lemma FixedHappens(config: Config, issue: string)
    requires issue != "" && config.mode == Demo && config.hasTargetRepo && config.settings.maxAttempts > 0
    ensures IsRun(config, Fixing(issue)) && Run(config, Fixing(issue)) == Fixed(config, issue)
  {
    hide IsRun, Run, Starting, Reproduce, J.Next, J.Enabled;
    StartedHappens(config, issue);
    JobSteps(config, issue);
    var a := Starting(issue);
    var b := a + [JobMoves(J.WorktreeReady(0, [], []))];
    var c := b + [JobMoves(J.EvidenceSaved(0))];
    var d := c + [JobMoves(J.WorkerStarted(0))];
    OneMore(config, a, JobMoves(J.WorktreeReady(0, [], [])));
    OneMore(config, b, JobMoves(J.EvidenceSaved(0)));
    OneMore(config, c, JobMoves(J.WorkerStarted(0)));
    OneMore(config, d, JobMoves(J.Completes(JOB, "done")));
    assert d + [JobMoves(J.Completes(JOB, "done"))] == Fixing(issue);
  }

  lemma VerifiedHappens(config: Config, issue: string, patch: string)
    requires issue != "" && config.mode == Demo && config.hasTargetRepo && config.settings.maxAttempts > 0
    ensures IsRun(config, Verifying(issue, patch))
    ensures Run(config, Verifying(issue, patch)) == Verified(config, issue, patch)
  {
    hide IsRun, Run, Fixing, Reproduce, Verify, J.TestsHash;
    FixedHappens(config, issue);
    var a := Fixing(issue);
    OneMore(config, a, VerifyBegins(0, 1, JOB));
    OneMore(config, a + [VerifyBegins(0, 1, JOB)], VerifyEnds(0, Seen(patch), true));
    assert a + [VerifyBegins(0, 1, JOB)] + [VerifyEnds(0, Seen(patch), true)] == Verifying(issue, patch);
  }

  lemma ReportOf(config: Config, issue: string, patch: string)
    ensures var report := Verify(JobOf(config, issue), Seen(patch), config.settings.hash);
      && report.testsPassed && report.caseId == 1
      && report.fingerprint == config.settings.hash(Preimage(StatusOutput([]), patch))
  {
    hide StatusOutput, J.TestsHash;
    VerdictMeaning(JobOf(config, issue), Seen(patch), config.settings.hash);
  }

  /** The review of a verified patch finds the fingerprint in place and goes on to read the patch again. */
  lemma ReviewSteps(config: Config, issue: string, patch: string)
    ensures var s := Verified(config, issue, patch);
      var begun := Next(s, config, ReviewBegins(0, 1, JOB));
      var confirmed := Next(begun, config, FingerprintRead(0, [], patch, true));
      && Enabled(s, ReviewBegins(0, 1, JOB)) && Enabled(begun, FingerprintRead(0, [], patch, true))
      && confirmed.reviews == map[0 := ReadingPatch(JobOf(config, issue), s.reports[JOB], [], patch)]
  {
    hide Reproduce, Verify, StatusOutput, J.TestsHash;
    ReportOf(config, issue, patch);
  }

  lemma ConfirmedHappens(config: Config, issue: string, patch: string)
    requires issue != "" && config.mode == Demo && config.hasTargetRepo && config.settings.maxAttempts > 0
    ensures var steps := Verifying(issue, patch) + [ReviewBegins(0, 1, JOB)] + [FingerprintRead(0, [], patch, true)];
      && IsRun(config, steps)
      && Run(config, steps).reviews
           == map[0 := ReadingPatch(JobOf(config, issue), Verified(config, issue, patch).reports[JOB], [], patch)]
  {
    hide IsRun, Run, Next, Enabled, Verifying;
    VerifiedHappens(config, issue, patch);
    ReviewSteps(config, issue, patch);
    OneMore(config, Verifying(issue, patch), ReviewBegins(0, 1, JOB));
    OneMore(config, Verifying(issue, patch) + [ReviewBegins(0, 1, JOB)], FingerprintRead(0, [], patch, true));
  }

  lemma PatchIsReadAgain(config: Config, s: State, text: string)
    requires 0 in s.reviews && s.reviews[0].ReadingPatch?
    ensures Enabled(s, PatchRead(0, text, None, true))
    ensures var t, r := Next(s, config, PatchRead(0, text, None, true)), s.reviews[0];
      && 0 in t.reviews && t.reviews[0].Answered?
      && t.reviews[0].job == r.job && t.reviews[0].report == r.report && t.reviews[0].patch == r.patch
  {
    hide Review.ReviewPatch;
  }

  /** The destructive patch was verified and its fingerprint confirmed; a harmless text was read, and approved. */
  lemma DestructivePatchApproved(config: Config, issue: string, patch: string, text: string)
    requires Suitable(config, issue, patch, text)
    ensures var steps := Reviewing(issue, patch, text);
      && IsRun(config, steps)
      && var reviews := Run(config, steps).reviews;
         && 0 in reviews && reviews[0].Answered? && Approves(reviews[0].answer)
         && reviews[0].patch == patch && reviews[0].report == Verify(reviews[0].job, Seen(patch), config.settings.hash)
         && config.destructive(patch)
  {
    hide IsRun, Run, Next, Enabled, Verifying, Verify, StatusOutput;
    ConfirmedHappens(config, issue, patch);
    ReportOf(config, issue, patch);
    var c := Verifying(issue, patch) + [ReviewBegins(0, 1, JOB)] + [FingerprintRead(0, [], patch, true)];
    PatchIsReadAgain(config, Run(config, c), text);
    OneMore(config, c, PatchRead(0, text, None, true));
    ApprovalReadsAgain(config, c, 0, text, None);
    assert c + [PatchRead(0, text, None, true)] == Reviewing(issue, patch, text);
  }
}
