/** The device workflow around the verifier: its steps, its manifest, and what a pass stands for. */
module Workflow {
  import opened Options
  import opened Json
  import opened GpuGates
  import opened Classifier
  import opened GpuClaims
  import Q6Writeback

  datatype StepId = LocalChecks | Readiness | Compare | Verify

  datatype StepStatus = DryRun | StepPassed | StepFailed

  datatype Step = Step(id: StepId, exitCode: int, status: StepStatus)

  datatype Status = Running | BlockedLocalContract | BlockedMemory | DryRunOnly | Passed | Failed

  datatype Arguments = Arguments(skipLocalChecks: bool, dryRun: bool)

  /** What the commands answer and what they leave behind; an artifact that cannot be read is None. */
  datatype World = World(
    cfg: Config,
    localExit: int,
    readinessExit: int,
    readiness: Option<Json>,
    compareExit: int,
    artifact: Option<Json>)

  const CLEAR_ONLY := Flags(false, true, false)

  function ExitOf(world: World, id: StepId): int {
    match id
    case LocalChecks => world.localExit
    case Readiness => world.readinessExit
    case Compare => world.compareExit
    case Verify => VerifierExit(world.cfg, world.artifact, CLEAR_ONLY)
  }

  /** `load_json`: anything but an object counts as empty. */
  function Loaded(artifact: Option<Json>): Json {
    if artifact.Some? && artifact.value.Obj? then artifact.value else Obj([])
  }

  /** `run_step`: a dry run reports success without running anything. */
  function RunStep(options: Arguments, world: World, id: StepId): Step {
    if options.dryRun then Step(id, 0, DryRun)
    else Step(id, ExitOf(world, id), if ExitOf(world, id) == 0 then StepPassed else StepFailed)
  }

  predicate IsReady(options: Arguments, world: World) {
    !options.dryRun && Truthy(Field(Loaded(world.readiness), "ready"))
  }

  function LocalSteps(options: Arguments): seq<StepId> {
    if options.skipLocalChecks then [] else [LocalChecks]
  }

  /** The local checks were skipped, or they ran and succeeded. */
  predicate LocalClear(options: Arguments, world: World) {
    options.skipLocalChecks || world.localExit == 0
  }

  function IdsOf(steps: seq<Step>): seq<StepId> {
    seq(|steps|, i requires 0 <= i < |steps| => steps[i].id)
  }

  class Manifest {
    var steps: seq<Step>
    var status: Status

    constructor ()
      ensures steps == [] && status == Running
    {
      steps, status := [], Running;
    }

    method Add(step: Step)
      modifies this`steps
      ensures steps == old(steps) + [step] && IdsOf(steps) == IdsOf(old(steps)) + [step.id]
    {
      steps := steps + [step];
    }

    /** `main`: the steps in order, each only after the one before it let it through. */
    method Run(options: Arguments, world: World) returns (exitCode: int)
      requires steps == [] && status == Running
      modifies this
      ensures status == Passed <==>
              && !options.dryRun && LocalClear(options, world)
              && world.readinessExit == 0 && IsReady(options, world)
              && world.compareExit == 0 && VerifierExit(world.cfg, world.artifact, CLEAR_ONLY) == 0
      ensures exitCode == 0 <==> status == Passed || status == BlockedMemory || status == DryRunOnly
      ensures options.dryRun ==> status == DryRunOnly && Compare !in IdsOf(steps) && Verify !in IdsOf(steps)
      ensures Compare in IdsOf(steps) ==> IsReady(options, world) && world.readinessExit == 0 && LocalClear(options, world)
      ensures IdsOf(steps) == (match status
                        case Running | BlockedLocalContract => [LocalChecks]
                        case BlockedMemory | DryRunOnly => LocalSteps(options) + [Readiness]
                        case Passed | Failed => LocalSteps(options) + [Readiness, Compare, Verify])
      ensures status != Running
      ensures forall k :: 0 <= k < |steps| ==> steps[k] == RunStep(options, world, steps[k].id)
    {
      hide VerifierExit, Loaded, Truthy, Field;
      if !options.skipLocalChecks {
        var local := RunStep(options, world, LocalChecks);
        Add(local);
        if local.exitCode != 0 {
          status := BlockedLocalContract;
          return 10;
        }
      }
      var readiness := RunStep(options, world, Readiness);
      Add(readiness);
      var ready := IsReady(options, world);
      if readiness.exitCode != 0 || !ready {
        status := if options.dryRun then DryRunOnly else BlockedMemory;
        return 0;
      }
      var compare := RunStep(options, world, Compare);
      Add(compare);
      var verify := RunStep(options, world, Verify);
      Add(verify);
      status := if compare.exitCode == 0 && verify.exitCode == 0 then Passed else Failed;
      exitCode := if status == Passed then 0 else 1;
    }
  }

  /**
   * What a passed workflow stands for: the artifact is well shaped, every gate up to the writeback
   * is open, and the oracle gave a verdict on a writeback proven binding by binding.
   */
  lemma PassIsBacked(world: World)
    requires VerifierExit(world.cfg, world.artifact, CLEAR_ONLY) == 0
    ensures world.artifact.Some? && world.artifact.value.Obj?
    ensures var data := world.artifact.value;
            && WellShaped(world.cfg, data)
            && (forall g :: g != MatchGate ==> Open(world.cfg, data, g))
            && (SaysMatch(Q6Of(data)) || SaysMismatch(Q6Of(data)))
            && Q6Writeback.WritebackProven(Q6Writeback.ReadQ6(Q6Of(data)))
  {
    RequireClearExact(world.cfg, world.artifact, CLEAR_ONLY);
    hide *;
    var data := world.artifact.value;
    assert Open(world.cfg, data, WritebackGate);
    WritebackOpen(world.cfg, data);
  }

  lemma WritebackOpen(cfg: Config, data: Json)
    requires Open(cfg, data, WritebackGate)
    ensures Q6Writeback.WritebackProven(Q6Writeback.ReadQ6(Q6Of(data)))
  {
    hide Q6Writeback.WritebackProven, Q6Writeback.ReadQ6, Q6Of;
  }
}
