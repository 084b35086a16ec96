/** The three durable stores an orchestrator owns, and the outside world it calls. */
module Stores {
  import opened Common
  import opened Stages
  import opened Checkpoints
  import opened Plans
  import opened RunClock
  import opened RunMachine

  datatype RegistryError = StaleVersion | IllegalTransition

  /** One run's registry row. Every write is a compare-and-swap on the version last read. */
  class RunRegistry {
    var row: Run

    /** create_run: a new row at intake, version 1, first attempt open. */
    constructor ()
      ensures row == INITIAL_DISK.run
    {
      row := Run(Intake, 1, 1, None);
    }

    method TransitionStage(expectedVersion: nat, next: Stage) returns (r: Result<Run, RegistryError>)
      modifies this
      ensures r.Success? <==> expectedVersion == old(row.version) && LegalTransition(old(row.stage), next)
      ensures r.Success? ==> r.value == row == old(row).(stage := next, version := old(row.version) + 1)
      ensures r.Failure? ==> row == old(row)
      ensures r == Failure(StaleVersion) <==> expectedVersion != old(row.version)
    {
      if row.version != expectedVersion {
        return Failure(StaleVersion);
      }
      if !LegalTransition(row.stage, next) {
        return Failure(IllegalTransition);
      }
      row := row.(stage := next, version := row.version + 1);
      return Success(row);
    }

    method WriteCheckpoint(expectedVersion: nat, pointer: Elicitation) returns (r: Result<Run, RegistryError>)
      modifies this
      ensures r.Success? <==> expectedVersion == old(row.version)
      ensures r.Success? ==> r.value == row == old(row).(pointer := Some(pointer), version := old(row.version) + 1)
      ensures r.Failure? ==> row == old(row) && r.error.StaleVersion?
    {
      if row.version != expectedVersion {
        return Failure(StaleVersion);
      }
      row := row.(pointer := Some(pointer), version := row.version + 1);
      return Success(row);
    }

    /** A new attempt starts at its own stage, which must be a legal next stage or the current one. */
    method AppendAttempt(expectedVersion: nat, start: Stage) returns (r: Result<nat, RegistryError>)
      modifies this
      ensures r.Success? <==>
                expectedVersion == old(row.version) && (start == old(row.stage) || LegalTransition(old(row.stage), start))
      ensures r.Success? ==>
                && row == old(row).(stage := start, attempt := old(row.attempt) + 1, version := old(row.version) + 1)
                && r.value == row.attempt
      ensures r.Failure? ==> row == old(row)
    {
      if row.version != expectedVersion {
        return Failure(StaleVersion);
      }
      if start != row.stage && !LegalTransition(row.stage, start) {
        return Failure(IllegalTransition);
      }
      row := row.(stage := start, attempt := row.attempt + 1, version := row.version + 1);
      return Success(row.attempt);
    }
  }

  /** One file per version, and one file for the latest. A save writes them in that order. */
  class PlanArtifactStore {
    var versions: map<nat, PlanArtifact>
    var latest: Option<PlanArtifact>

    constructor ()
      ensures versions == map[] && latest.None?
    {
      versions, latest := map[], None;
    }

    method WriteVersion(a: PlanArtifact)
      modifies this
      ensures versions == old(versions)[a.planVersion := a] && latest == old(latest)
    {
      versions := versions[a.planVersion := a];
    }

    method WriteLatest(a: PlanArtifact)
      modifies this
      ensures latest == Some(a) && versions == old(versions)
    {
      latest := Some(a);
    }
  }

  class RunProgressStore {
    var saved: Option<RunProgress>

    constructor ()
      ensures saved.None?
    {
      saved := None;
    }

    method Save(p: RunProgress)
      modifies this
      ensures saved == Some(p)
    {
      saved := Some(p);
    }
  }

  /** A clock that moves on by at least tick between two readings. */
  class Clock {
    const tick: Positive
    var now: real

    constructor (tick: Positive, now: real)
      ensures this.tick == tick && this.now == now
    {
      this.tick, this.now := tick, now;
    }

    method Read() returns (t: real)
      modifies this
      ensures t == now >= old(now) + tick
    {
      var passed: real := *;
      now := now + (if passed >= tick then passed else tick);
      t := now;
    }
  }

  /** Any backend. Raising is None. */
  class AgentBackend {
    constructor () {
    }

    method AuthorPlan() returns (out: Option<PlanOutput>) {
      out := *;
    }

    method RePlan(feedback: string) returns (out: Option<PlanOutput>) {
      out := *;
    }

    method ImplementSubtask() returns (diff: Option<DiffOutput>) {
      diff := *;
    }

    method ImplementSubtasksParallel(tasks: seq<PlannedTask>) returns (diffs: Diffs) {
      diffs := *;
    }
  }

  /** Any verification runner. */
  class VerificationRunner {
    constructor () {
    }

    method Run() returns (result: Option<VerificationResult>) {
      result := *;
    }
  }
}
