/** Per-phase verdicts inferred from the phases a job log reported. */
module PhaseVerdicts {
  import opened Basics
  import opened PhaseLog

  datatype Verdict = Success | Failure | Cancelled | TimedOut | Skipped

  datatype VerdictError = UnreviewedPhases | UnknownPhase

  /** Phases published as Check Runs; the last phase of the profile only serves as evidence. */
  const PUBLISHED := {"backend", "frontend"}

  function LeftmostVerdict(jobConclusion: string): Verdict {
    if jobConclusion in {"cancelled", "cancel"} then Cancelled
    else if jobConclusion in {"timed_out", "timeout"} then TimedOut
    else Failure
  }

  /** A phase is taken as passed when the job passed or the next phase left evidence. */
  predicate Proven(jobConclusion: string, observed: seq<string>, i: nat) {
    jobConclusion == "success" || (i + 1 < |PROFILE_PHASES| && PROFILE_PHASES[i + 1] in observed)
  }

  predicate AllProvenBefore(jobConclusion: string, observed: seq<string>, i: nat) {
    forall j :: 0 <= j < i ==> Proven(jobConclusion, observed, j)
  }

  function VerdictOf(jobConclusion: string, observed: seq<string>, i: nat): Verdict {
    if Proven(jobConclusion, observed, i) then Success
    else if !AllProvenBefore(jobConclusion, observed, i) then Skipped
    else LeftmostVerdict(jobConclusion)
  }

  function PublishedAmong(i: nat): set<string> {
    if i == 0 then {} else if i == 1 then {PROFILE_PHASES[0]} else PUBLISHED
  }

  /** Refuses any other phase list or a phase outside it, and otherwise judges every published phase. */
  method InferVerdicts(jobConclusion: string, observed: seq<string>, phases: seq<string>)
    returns (r: Result<map<string, Verdict>, VerdictError>)
    ensures phases != PROFILE_PHASES ==> r == Err(UnreviewedPhases)
    ensures phases == PROFILE_PHASES && (exists p :: p in observed && p !in PROFILE_PHASES) ==> r == Err(UnknownPhase)
    ensures phases == PROFILE_PHASES && (forall p :: p in observed ==> p in PROFILE_PHASES) ==> r.Ok?
    ensures r.Ok? ==> r.value.Keys == PUBLISHED
                      && forall i :: 0 <= i < 2 ==> r.value[PROFILE_PHASES[i]] == VerdictOf(jobConclusion, observed, i)
  {
    if phases != PROFILE_PHASES {
      return Err(UnreviewedPhases);
    }
    if exists p :: p in observed && p !in PROFILE_PHASES {
      return Err(UnknownPhase);
    }
    var verdicts: map<string, Verdict> := map[];
    var failedBefore := false;
    for i := 0 to |phases|
      invariant failedBefore == !AllProvenBefore(jobConclusion, observed, i)
      invariant verdicts.Keys == PublishedAmong(i)
      invariant forall j :: 0 <= j < i && j < 2 ==> verdicts[PROFILE_PHASES[j]] == VerdictOf(jobConclusion, observed, j)
    {
      var phase := phases[i];
      var passed := jobConclusion == "success" || (i + 1 < |phases| && phases[i + 1] in observed);
      if phase in PUBLISHED {
        var verdict :=
          if passed then Success
          else if failedBefore then Skipped
          else if jobConclusion in {"cancelled", "cancel"} then Cancelled
          else if jobConclusion in {"timed_out", "timeout"} then TimedOut
          else Failure;
        verdicts := verdicts[phase := verdict];
      }
      assert passed == Proven(jobConclusion, observed, i);
      assert AllProvenBefore(jobConclusion, observed, i + 1) <==> AllProvenBefore(jobConclusion, observed, i) && passed;
      failedBefore := failedBefore || !passed;
    }
    return Ok(verdicts);
  }

  /**
   One run of the reviewed script: `passed` phases succeed in order, then the next one fails or is
   stopped. `reported` says whether that last phase still left its measurement line.
   */
  datatype Pipeline = Pipeline(passed: nat, reported: bool, conclusion: string)

  ghost predicate Ran(run: Pipeline) {
    run.passed <= |PROFILE_PHASES|
    && (run.conclusion == "success" ==> run.passed == |PROFILE_PHASES|)
  }

  ghost predicate Reported(run: Pipeline, i: nat) {
    i < run.passed || (i == run.passed && run.reported)
  }

  /** The job log of a run: of the profile's phases it names those that reported, and no other. */
  ghost predicate LogOf(run: Pipeline, log: string) {
    forall i :: 0 <= i < |PROFILE_PHASES| ==> (Names(log, PROFILE_PHASES[i]) <==> Reported(run, i))
  }

  predicate Alarming(v: Verdict) {
    v in {Failure, Cancelled, TimedOut}
  }

  /**
   For every run and every log it leaves: a published success means the phase passed, at most one
   published phase carries an alarming verdict, which is the one the job's conclusion calls for, and
   when the stopped phase did report, success is published for exactly the phases that passed and
   the alarm for the one that stopped.
   */
  lemma VerdictSoundness(run: Pipeline, log: string)
    requires Ran(run) && LogOf(run, log)
    ensures forall i :: 0 <= i < 2 && VerdictOf(run.conclusion, Evidence(log), i) == Success ==> i < run.passed
    ensures forall i, j :: 0 <= i < j < 2 && Alarming(VerdictOf(run.conclusion, Evidence(log), i))
                           ==> !Alarming(VerdictOf(run.conclusion, Evidence(log), j))
    ensures forall i :: 0 <= i < 2 ==> (VerdictOf(run.conclusion, Evidence(log), i) == Success
                                        <==> run.conclusion == "success" || Reported(run, i + 1))
    ensures run.reported ==>
              forall i :: 0 <= i < 2 ==> (VerdictOf(run.conclusion, Evidence(log), i) == Success <==> i < run.passed)
    ensures forall i :: 0 <= i < 2 && VerdictOf(run.conclusion, Evidence(log), i) == Skipped ==> run.passed < i || !run.reported
    ensures forall i :: 0 <= i < 2 && Alarming(VerdictOf(run.conclusion, Evidence(log), i)) ==>
              run.conclusion != "success"
              && (VerdictOf(run.conclusion, Evidence(log), i) == Cancelled <==> run.conclusion in {"cancelled", "cancel"})
              && (VerdictOf(run.conclusion, Evidence(log), i) == TimedOut <==> run.conclusion in {"timed_out", "timeout"})
    ensures run.reported && run.passed < 2 ==> Alarming(VerdictOf(run.conclusion, Evidence(log), run.passed))
  {
    EvidenceIsFirstAppearances(log);
    hide Evidence, Names;
    forall i | 0 <= i < 3 ensures PROFILE_PHASES[i] in Evidence(log) <==> Reported(run, i) {
      assert PROFILE_PHASES[i] in PROFILE_PHASES;
    }
    assert Proven(run.conclusion, Evidence(log), 0) ==> 0 < run.passed;
    assert Proven(run.conclusion, Evidence(log), 1) ==> 1 < run.passed;
    assert !Proven(run.conclusion, Evidence(log), 0) ==> !AllProvenBefore(run.conclusion, Evidence(log), 1);
  }

  /**
   The line of a stopped phase matters: a cancelled run whose second phase left none publishes the
   first phase as cancelled although it passed.
   */
  lemma UnreportedPhaseHidesAPass(log: string)
    requires LogOf(Pipeline(1, false, "cancelled"), log)
    ensures VerdictOf("cancelled", Evidence(log), 0) == Cancelled
  {
    EvidenceIsFirstAppearances(log);
    hide Evidence, Names;
    assert !Reported(Pipeline(1, false, "cancelled"), 1);
    assert PROFILE_PHASES[1] == "frontend";
  }
}
