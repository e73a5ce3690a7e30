/** Semantic review: the shared failure answer and the three review clients. */
module Review {
  import opened Prelude
  import opened PathScope
  import opened Verifier
  import J = JobManager

  datatype Decision = Approve | Revise | Handoff

  datatype Verdict = Verdict(
    decision: Decision,
    issueCovered: bool,
    scopeExpanded: bool,
    testsWeakened: bool,
    destructive: bool)

  /** The validated answers of the remote review model. */
  datatype Answers = Answers(
    decision: Decision,
    issueCovered: bool,
    scopeExpanded: bool,
    testsWeakened: bool,
    destructive: bool)

  /** `JevClient` carries what its request brings back; None when it fails or does not validate. */
  datatype Client = DemoClient | UnavailableClient | JevClient(answers: Option<Answers>)

  predicate ScopeExpanded(job: J.JobRecord, report: Report) {
    exists i :: 0 <= i < |report.changedFiles| && !IsAllowedChange(job.allowedScope, report.changedFiles[i])
  }

  function VerificationFailureReview(job: J.JobRecord, report: Report, destructive: bool): Option<Verdict> {
    if !report.testsPassed then
      Some(Verdict(Revise, report.originalScenariosPassed, ScopeExpanded(job, report),
                   !report.protectedUnchanged || !report.independentUnchanged, destructive))
    else None
  }

  /** `destructive` is whether the destructive-command pattern occurs in the patch. None stands for a thrown error. */
  function ReviewPatch(client: Client, job: J.JobRecord, report: Report, destructive: bool): Option<Verdict> {
    var failure := VerificationFailureReview(job, report, destructive);
    if failure.Some? then failure
    else
      match client
      case DemoClient =>
        var scopeExpanded := ScopeExpanded(job, report);
        if scopeExpanded || destructive then
          Some(Verdict(Handoff, report.originalScenariosPassed, scopeExpanded, false, destructive))
        else Some(Verdict(Approve, true, false, false, false))
      case UnavailableClient =>
        Some(Verdict(Handoff, report.originalScenariosPassed, false, false, destructive))
      case JevClient(None) => None
      case JevClient(Some(answers)) =>
        var irreversible := answers.destructive || destructive;
        var decision := if irreversible && answers.decision == Approve then Handoff else answers.decision;
        Some(Verdict(decision, answers.issueCovered, answers.scopeExpanded, answers.testsWeakened, irreversible))
  }

  predicate Approves(answer: Option<Verdict>) {
    answer.Some? && answer.value.decision == Approve
  }

  /** Who can approve, and when: over any verification of the job, whatever the client. */
  lemma ApprovalMeaning(client: Client, job: J.JobRecord, seen: Observation, hash: string -> string, destructive: bool)
    requires GoodEntries(seen.entries)
    ensures Approves(ReviewPatch(client, job, Verify(job, seen, hash), destructive)) <==>
      && seen.exitCode == 0
      && AllInScope(job.allowedScope, seen.entries)
      && J.TestsHash(hash, seen.protectedTests) == job.protectedHash
      && J.TestsHash(hash, seen.independentTests) == job.independentHash
      && !destructive
      && (client.DemoClient?
          || (client.JevClient? && client.answers.Some?
              && client.answers.value.decision == Approve && !client.answers.value.destructive))
  {
    hide Verify, AllInScope, IsAllowedChange, PathsOf;
    VerdictMeaning(job, seen, hash);
    ScopeAgrees(job, seen, hash);
  }

  /** Some changed file of the report is outside the job's scope. */
  ghost predicate LeavesScope(job: J.JobRecord, report: Report) {
    exists file :: file in report.changedFiles && !IsAllowedChange(job.allowedScope, file)
  }

  lemma ScopeExpandedMeaning(job: J.JobRecord, report: Report)
    ensures ScopeExpanded(job, report) <==> LeavesScope(job, report)
  {
    hide IsAllowedChange;
    if ScopeExpanded(job, report) {
      var i :| 0 <= i < |report.changedFiles| && !IsAllowedChange(job.allowedScope, report.changedFiles[i]);
      assert report.changedFiles[i] in report.changedFiles;
    }
  }

  /** A failed report is sent back by every client, with exactly what is wrong with it. */
  lemma FailureIsRevised(client: Client, job: J.JobRecord, report: Report, destructive: bool)
    requires !report.testsPassed
    ensures var answer := ReviewPatch(client, job, report, destructive);
      && answer.Some? && answer.value.decision == Revise
      && (answer.value.issueCovered <==> report.originalScenariosPassed)
      && (answer.value.scopeExpanded <==> LeavesScope(job, report))
      && (answer.value.testsWeakened <==> !(report.protectedUnchanged && report.independentUnchanged))
      && (answer.value.destructive <==> destructive)
  {
    hide ScopeExpanded, LeavesScope;
    ScopeExpandedMeaning(job, report);
  }

  /** On a passed report the demo client hands off exactly an expanded scope or a destructive patch, never revising. */
  lemma DemoHandsOff(job: J.JobRecord, report: Report, destructive: bool)
    requires report.testsPassed
    ensures var answer := ReviewPatch(DemoClient, job, report, destructive);
      && answer.Some?
      && (answer.value.decision == Handoff <==> LeavesScope(job, report) || destructive)
      && (answer.value.decision == Approve <==> !LeavesScope(job, report) && !destructive)
      && (answer.value.scopeExpanded <==> LeavesScope(job, report))
      && (answer.value.destructive <==> destructive)
      && !answer.value.testsWeakened
      && (answer.value.issueCovered <==> answer.value.decision == Approve || report.originalScenariosPassed)
  {
    hide ScopeExpanded, LeavesScope;
    ScopeExpandedMeaning(job, report);
  }

  /** On a passed report the unavailable client always hands off. */
  lemma UnavailableHandsOff(job: J.JobRecord, report: Report, destructive: bool)
    requires report.testsPassed
    ensures var answer := ReviewPatch(UnavailableClient, job, report, destructive);
      && answer.Some? && answer.value.decision == Handoff
      && (answer.value.issueCovered <==> report.originalScenariosPassed)
      && (answer.value.destructive <==> destructive)
      && !answer.value.scopeExpanded && !answer.value.testsWeakened
  {
  }

  /** On a passed report the remote client's answers stand, except that nothing destructive is approved. */
  lemma RemoteAnswersStand(answers: Option<Answers>, job: J.JobRecord, report: Report, destructive: bool)
    requires report.testsPassed
    ensures var answer := ReviewPatch(JevClient(answers), job, report, destructive);
      && (answer.Some? <==> answers.Some?)
      && (answers.Some? ==>
            var given, verdict := answers.value, answer.value;
            && (verdict.destructive <==> given.destructive || destructive)
            && (verdict.decision == Approve <==> given.decision == Approve && !verdict.destructive)
            && (verdict.decision == Revise <==> given.decision == Revise)
            && verdict.issueCovered == given.issueCovered && verdict.scopeExpanded == given.scopeExpanded
            && verdict.testsWeakened == given.testsWeakened)
  {
  }

  /** Over any verification of a job: which patches go back to the worker, and which to a human. */
  lemma WhoDecidesNext(client: Client, job: J.JobRecord, seen: Observation, hash: string -> string, destructive: bool)
    requires GoodEntries(seen.entries)
    ensures var answer := ReviewPatch(client, job, Verify(job, seen, hash), destructive);
      var passed := seen.exitCode == 0 && AllInScope(job.allowedScope, seen.entries)
        && J.TestsHash(hash, seen.protectedTests) == job.protectedHash
        && J.TestsHash(hash, seen.independentTests) == job.independentHash;
      && (answer.None? <==> passed && client == JevClient(None))
      && (answer.Some? && answer.value.decision == Revise <==>
            !passed
            || (client.JevClient? && client.answers.Some? && client.answers.value.decision == Revise))
      && (answer.Some? && answer.value.decision == Handoff <==>
            && passed
            && match client
               case DemoClient => destructive
               case UnavailableClient => true
               case JevClient(None) => false
               case JevClient(Some(answers)) =>
                 || answers.decision == Handoff
                 || (answers.decision == Approve && (answers.destructive || destructive)))
  {
    hide Verify, AllInScope, IsAllowedChange, ScopeExpanded;
    VerdictMeaning(job, seen, hash);
    ScopeAgrees(job, seen, hash);
  }

  lemma ScopeAgrees(job: J.JobRecord, seen: Observation, hash: string -> string)
    requires GoodEntries(seen.entries)
    ensures ScopeExpanded(job, Verify(job, seen, hash)) <==> !AllInScope(job.allowedScope, seen.entries)
  {
    hide Verify, IsAllowedChange, AllInScope;
    VerdictMeaning(job, seen, hash);
    PathsInScope(job.allowedScope, seen.entries);
  }

  /** A failed verification is sent back with a reason, and a passed one never is by the failure review. */
  lemma RevisionIsExplained(job: J.JobRecord, seen: Observation, hash: string -> string, destructive: bool)
    requires GoodEntries(seen.entries)
    ensures var failure := VerificationFailureReview(job, Verify(job, seen, hash), destructive);
      && (failure.Some? <==> !Verify(job, seen, hash).testsPassed)
      && (failure.Some? ==>
            failure.value.decision == Revise
            && (!failure.value.issueCovered || failure.value.scopeExpanded || failure.value.testsWeakened))
  {
    hide Verify, AllInScope, IsAllowedChange;
    VerdictMeaning(job, seen, hash);
    ScopeAgrees(job, seen, hash);
    VerifyHashes(job, seen, hash);
  }

  lemma VerifyHashes(job: J.JobRecord, seen: Observation, hash: string -> string)
    ensures Verify(job, seen, hash).protectedUnchanged <==> J.TestsHash(hash, seen.protectedTests) == job.protectedHash
    ensures Verify(job, seen, hash).independentUnchanged <==>
      J.TestsHash(hash, seen.independentTests) == job.independentHash
  {
    hide IsAllowedChange, ChangedFiles;
  }

  /** The remote client approves a verified patch although it answers that scope expanded and tests weakened. */
  lemma ExpandedScopeCanBeApproved(job: J.JobRecord, report: Report)
    requires report.testsPassed
    ensures ReviewPatch(JevClient(Some(Answers(Approve, true, true, true, false))), job, report, false)
         == Some(Verdict(Approve, true, true, true, false))
  {
  }
}
