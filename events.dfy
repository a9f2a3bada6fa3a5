/**
 * The event handler: which branch an incoming CloudEvent selects, and what
 * the build branch (`buildAlgorithm`) and the execution branch
 * (`triggerExecution`) do to the host, step by step, as functions of the
 * host's state and of the outside world. The Host class in module Service
 * runs these steps imperatively and is proved to do exactly this.
 */
module Events {
  import opened Common
  import opened TextFiles
  import opened DeploymentDescriptor
  import opened Archive
  import opened Jobs

  const CreateType: string := "org.lowcomote.panoptes.baseAlgorithm.create"
  const TriggerType: string := "org.lowcomote.panoptes.baseAlgorithmExecution.trigger"
  const GatewayUrl: string := "http://unstable-gateway.rp.bt.com/function/deploy-application"
  const Namespace: string := "panoptes"

  datatype Handler = Build | Trigger | Ignore

  /** The branch an event's `type` selects; the two known types are matched exactly, anything else is ignored. */
  function Route(eventType: string): (h: Handler)
    ensures h == Build <==> eventType == CreateType
    ensures h == Trigger <==> eventType == TriggerType
    ensures h == Ignore <==> eventType != CreateType && eventType != TriggerType
  {
    if eventType == CreateType then Build
    else if eventType == TriggerType then Trigger
    else Ignore
  }

  /** The scratch directories under /tmp, by full path. */
  type Scratch = map<string, Tree>

  /**
   * What the outside world does: the tree cloning each repository yields
   * (absent: the clone fails), the ./template directory, and whether the
   * deploy gateway, the in-cluster configuration and the job API respond.
   */
  datatype World = World(remotes: map<string, Tree>, template: Tree, gatewayUp: bool, inCluster: bool, clusterAccepts: bool)

  /** The base64 text of a file's bytes, kept symbolic. */
  datatype Encoded = Base64(file: File)

  /** The JSON body posted to the deploy gateway. */
  datatype DeployRequest = DeployRequest(action: string, value: Encoded)

  /** The externally visible steps the handler takes, each recorded when it is begun. */
  datatype Step =
    | Clone(repo: string, dir: string)
    | Describe(dir: string)
    | Package(dir: string)
    | ReadArchive(path: string)
    | Post(url: string, body: DeployRequest)
    | Remove(dir: string)
    | LoadConfig
    | SubmitJob(namespace: string, job: Job)

  /** The exceptions that escape a branch. */
  datatype Failure =
    | KeyError(key: string)
    | CloneFailed(repo: string, dir: string)
    | CannotRead(path: string)
    | ConnectionFailed(url: string)
    | NoClusterConfig
    | JobRejected(namespace: string)

  datatype Outcome = Completed | Failed(failure: Failure)

  /** The HTTP answer, or the exception that escaped the handler. */
  datatype Reply = Status(code: int) | Escaped(failure: Failure)

  datatype BuildRun = BuildRun(scratch: Scratch, steps: seq<Step>, outcome: Outcome)
  datatype TriggerRun = TriggerRun(steps: seq<Step>, outcome: Outcome)
  datatype EventRun = EventRun(scratch: Scratch, steps: seq<Step>, reply: Reply)

  function ScratchDir(uuid: string): string
  {
    "/tmp/" + uuid
  }

  /** Opening `name` in text mode: its characters after newline translation, or None when it is absent or not text. */
  function ReadText(tree: Tree, name: string): Option<string>
  {
    if name in tree && tree[name].Text? then Some(Universal(tree[name].chars)) else None
  }

  /** The files after packaging: the clone directory now also holds the archive as written. */
  function WithArchive(scratch: Scratch, dir: string, p: Packed): Scratch
    requires dir in scratch
  {
    scratch[dir := scratch[dir]["zipFile" := Zip(p.entries, p.missing.None?)]]
  }

  /** `buildAlgorithm` on payload `data`, with `uuid` the value uuid4 returns. */
  function BuildSpec(world: World, scratch: Scratch, data: map<string, string>, uuid: string): BuildRun
  {
    if "codebase" !in data then BuildRun(scratch, [], Failed(KeyError("codebase")))
    else
      var repo, dir := data["codebase"], ScratchDir(uuid);
      if repo !in world.remotes || dir in scratch then
        BuildRun(scratch, [Clone(repo, dir)], Failed(CloneFailed(repo, dir)))
      else
        var d := DeploySpec(world, scratch[dir := world.remotes[repo]], data, dir);
        BuildRun(d.scratch, [Clone(repo, dir)] + d.steps, d.outcome)
  }

  /**
   * The statements of `buildAlgorithm` after the clone, on the files
   * `cloned` whose directory `dir` now holds the clone: the name is looked
   * up, the descriptor written, the archive packed, read and posted, and
   * the directory removed.
   */
  function DeploySpec(world: World, cloned: Scratch, data: map<string, string>, dir: string): BuildRun
    requires dir in cloned
  {
    if "name" !in data then BuildRun(cloned, [], Failed(KeyError("name")))
    else
      var requirements := ReadText(cloned[dir], "requirements.txt");
      if requirements.None? then
        BuildRun(cloned, [Describe(dir)], Failed(CannotRead(dir + "/requirements.txt")))
      else
        var descriptor := Descriptor(data["name"], Lines(requirements.value));
        var p := Pack(descriptor, world.template, cloned[dir], dir);
        var packed := WithArchive(cloned, dir, p);
        var packaged := [Describe(dir), Package(dir)];
        if p.missing.Some? then BuildRun(packed, packaged, Failed(CannotRead(p.missing.value)))
        else
          var body := DeployRequest("deploy", Base64(packed[dir]["zipFile"]));
          var posted := packaged + [ReadArchive(dir + "/zipFile"), Post(GatewayUrl, body)];
          if !world.gatewayUp then BuildRun(packed, posted, Failed(ConnectionFailed(GatewayUrl)))
          else BuildRun(packed - {dir}, posted + [Remove(dir)], Completed)
  }

  /** `triggerExecution` on payload `data`, with `uuid` the value uuid4 returns in `create_job_object`. */
  function TriggerSpec(world: World, data: map<string, string>, uuid: string): TriggerRun
  {
    match EnvList(data)
    case MissingKey(k) => TriggerRun([], Failed(KeyError(k)))
    case Found(env) =>
      if "algorithmName" !in data then TriggerRun([], Failed(KeyError("algorithmName")))
      else if !world.inCluster then TriggerRun([LoadConfig], Failed(NoClusterConfig))
      else
        var submitted := [LoadConfig, SubmitJob(Namespace, JobObject(data["algorithmName"], env, uuid))];
        if world.clusterAccepts then TriggerRun(submitted, Completed)
        else TriggerRun(submitted, Failed(JobRejected(Namespace)))
  }

  /** The handler answers 200 once its branch returns; an exception escapes instead. */
  function ReplyTo(outcome: Outcome): Reply
  {
    match outcome
    case Completed => Status(200)
    case Failed(f) => Escaped(f)
  }

  /** `receiveEvent` for an event of type `eventType` carrying `data`. */
  function ReceiveSpec(world: World, scratch: Scratch, eventType: string, data: map<string, string>, uuid: string): EventRun
  {
    match Route(eventType)
    case Build =>
      var r := BuildSpec(world, scratch, data, uuid);
      EventRun(r.scratch, r.steps, ReplyTo(r.outcome))
    case Trigger =>
      var r := TriggerSpec(world, data, uuid);
      EventRun(scratch, r.steps, ReplyTo(r.outcome))
    case Ignore => EventRun(scratch, [], Status(200))
  }

  // ---------------------------------------------------------------- routing

  /** Whenever the selected branch returns normally, and always for an ignored event, the answer is 200. */
  lemma AnswersOkIffBranchReturns(world: World, scratch: Scratch, eventType: string, data: map<string, string>, uuid: string)
    ensures var reply := ReceiveSpec(world, scratch, eventType, data, uuid).reply;
      (reply == Status(200)) <==>
        (match Route(eventType)
         case Build => BuildSpec(world, scratch, data, uuid).outcome == Completed
         case Trigger => TriggerSpec(world, data, uuid).outcome == Completed
         case Ignore => true)
    ensures var reply := ReceiveSpec(world, scratch, eventType, data, uuid).reply;
      reply.Status? ==> reply.code == 200
  {
  }

  predicate IsBuildStep(s: Step)
  {
    s.Clone? || s.Describe? || s.Package? || s.ReadArchive? || s.Post? || s.Remove?
  }

  /** At most one branch runs: the steps taken are all build steps, all execution steps, or none. */
  lemma AtMostOneBranch(world: World, scratch: Scratch, eventType: string, data: map<string, string>, uuid: string)
    ensures var r := ReceiveSpec(world, scratch, eventType, data, uuid);
      (Route(eventType) == Build ==> forall i | 0 <= i < |r.steps| :: IsBuildStep(r.steps[i]))
      && (Route(eventType) == Trigger ==> forall i | 0 <= i < |r.steps| :: !IsBuildStep(r.steps[i]))
      && (Route(eventType) == Ignore ==> r.steps == [] && r.scratch == scratch)
  {
    match Route(eventType)
    case Build =>
      BuildStepsInOrder(world, scratch, data, uuid);
      OrderedStepsAreBuildSteps(BuildSpec(world, scratch, data, uuid).steps);
    case Trigger =>
      TriggerStepsInOrder(world, data, uuid);
      ExecutionStepsAreNotBuildSteps(TriggerSpec(world, data, uuid).steps);
    case Ignore =>
  }

  /** Steps in build order are build steps. */
  lemma OrderedStepsAreBuildSteps(steps: seq<Step>)
    requires forall i | 0 <= i < |steps| :: BuildOrder(steps[i]) == i
    requires |steps| <= 6
    ensures forall i | 0 <= i < |steps| :: IsBuildStep(steps[i])
  {
  }

  /** The shape of an execution's steps: the configuration is loaded, then the job may be submitted. */
  predicate IsExecutionRun(steps: seq<Step>)
  {
    steps == [] || steps == [LoadConfig]
    || (|steps| == 2 && steps[0] == LoadConfig && steps[1].SubmitJob? && steps[1].namespace == Namespace)
  }

  lemma ExecutionStepsAreNotBuildSteps(steps: seq<Step>)
    requires IsExecutionRun(steps)
    ensures forall i | 0 <= i < |steps| :: !IsBuildStep(steps[i])
  {
  }

  /** An execution loads the cluster configuration before it submits the job, and takes nothing else. */
  lemma TriggerStepsInOrder(world: World, data: map<string, string>, uuid: string)
    ensures IsExecutionRun(TriggerSpec(world, data, uuid).steps)
  {
  }

  // ------------------------------------------------------------------ build

  /** Position of each kind of build step in the fixed order clone, descriptor, package, read, post, rm. */
  function BuildOrder(s: Step): nat
  {
    match s
    case Clone(_, _) => 0
    case Describe(_) => 1
    case Package(_) => 2
    case ReadArchive(_) => 3
    case Post(_, _) => 4
    case Remove(_) => 5
    case LoadConfig => 6
    case SubmitJob(_, _) => 7
  }

  /**
   * Build steps are taken in the fixed order, stopping at the first
   * failure; the removal of the scratch directory comes last, and is
   * reached exactly when every earlier step succeeded.
   */
  lemma BuildStepsInOrder(world: World, scratch: Scratch, data: map<string, string>, uuid: string)
    ensures var r := BuildSpec(world, scratch, data, uuid);
      |r.steps| <= 6
      && (forall i | 0 <= i < |r.steps| :: BuildOrder(r.steps[i]) == i)
      && (r.outcome == Completed <==> |r.steps| == 6)
      && (r.outcome == Completed <==> Remove(ScratchDir(uuid)) in r.steps)
      && (r.steps != [] ==> r.steps[0] == Clone(data["codebase"], "/tmp/" + uuid))
      && (r.outcome == Completed ==> r.steps[5] == Remove("/tmp/" + uuid))
      && (r.outcome.Failed? ==> |r.steps| == StepsBefore(r.outcome.failure, ScratchDir(uuid)))
  {
    var r := BuildSpec(world, scratch, data, uuid);
    var dir := ScratchDir(uuid);
    assert r.outcome.Failed? ==> |r.steps| == StepsBefore(r.outcome.failure, dir) by {
      BuildStopsAtFailure(world, scratch, data, uuid);
    }
    if "codebase" in data && data["codebase"] in world.remotes && dir !in scratch {
      var repo := data["codebase"];
      var d := DeploySpec(world, scratch[dir := world.remotes[repo]], data, dir);
      DeployStepsInOrder(world, scratch[dir := world.remotes[repo]], data, dir);
      assert r.steps == [Clone(repo, dir)] + d.steps;
      PrependClone(Clone(repo, dir), d.steps, dir);
    }
  }

  /** The clone in front of steps ordered from the description gives steps ordered from the clone; a removal is then the sixth step. */
  lemma PrependClone(clone: Step, rest: seq<Step>, dir: string)
    requires BuildOrder(clone) == 0
    requires forall i | 0 <= i < |rest| :: BuildOrder(rest[i]) == i + 1
    ensures forall i | 0 <= i < |[clone] + rest| :: BuildOrder(([clone] + rest)[i]) == i
    ensures Remove(dir) in [clone] + rest ==> |rest| >= 5
  {
    var steps := [clone] + rest;
    forall i | 0 <= i < |steps| ensures BuildOrder(steps[i]) == i {
      if i > 0 {
        assert steps[i] == rest[i - 1];
      }
    }
    if Remove(dir) in steps {
      var i :| 0 <= i < |steps| && steps[i] == Remove(dir);
      assert BuildOrder(steps[i]) == 5;
    }
  }

  /** The steps after the clone follow the same order, starting at the description. */
  lemma DeployStepsInOrder(world: World, cloned: Scratch, data: map<string, string>, dir: string)
    requires dir in cloned
    ensures var d := DeploySpec(world, cloned, data, dir);
      |d.steps| <= 5
      && (forall i | 0 <= i < |d.steps| :: BuildOrder(d.steps[i]) == i + 1)
      && (d.outcome == Completed <==> |d.steps| == 5)
      && (d.outcome == Completed ==> d.steps[4] == Remove(dir))
  {
    var d := DeploySpec(world, cloned, data, dir);
    if "name" in data && ReadText(cloned[dir], "requirements.txt").Some? {
      var p := Pack(Descriptor(data["name"], Lines(ReadText(cloned[dir], "requirements.txt").value)),
                    world.template, cloned[dir], dir);
      if p.missing.None? {
        var body := DeployRequest("deploy", Base64(WithArchive(cloned, dir, p)[dir]["zipFile"]));
        var posted := [Describe(dir), Package(dir), ReadArchive(dir + "/zipFile"), Post(GatewayUrl, body)];
        if world.gatewayUp {
          assert d.steps == posted + [Remove(dir)];
        } else {
          assert d.steps == posted;
        }
      }
    }
  }

  /** What a build needs to get its archive packed: every payload key and every file it reads. */
  predicate BuildCanPackage(world: World, scratch: Scratch, data: map<string, string>, uuid: string)
  {
    "codebase" in data && "name" in data
    && data["codebase"] in world.remotes && ScratchDir(uuid) !in scratch
    && ReadText(world.remotes[data["codebase"]], "requirements.txt").Some?
    && "main.py" in world.template && "feature_store.yaml" in world.template
    && "detector.py" in world.remotes[data["codebase"]]
  }

  /** What a build needs to succeed: in addition, a reachable gateway. */
  predicate BuildCanSucceed(world: World, scratch: Scratch, data: map<string, string>, uuid: string)
  {
    BuildCanPackage(world, scratch, data, uuid) && world.gatewayUp
  }

  /**
   * How many steps a build has taken when it fails with `f`: none before the
   * payload names the codebase, one after the clone (a failed clone, or the
   * name looked up after it), two when the requirements cannot be read,
   * three when a packaged source is missing, five when the post fails.
   */
  function StepsBefore(f: Failure, dir: string): nat
  {
    match f
    case KeyError(key) => if key == "codebase" then 0 else 1
    case CloneFailed(_, _) => 1
    case CannotRead(path) => if path == dir + "/requirements.txt" then 2 else 3
    case ConnectionFailed(_) => 5
    case NoClusterConfig => 0
    case JobRejected(_) => 0
  }

  /** Only these failures end a build. */
  predicate IsBuildFailure(f: Failure, dir: string)
  {
    f == KeyError("codebase") || f == KeyError("name") || (f.CloneFailed? && f.dir == dir)
    || (f.CannotRead? && f.path in
          {dir + "/requirements.txt", "./template/main.py", "./template/feature_store.yaml", dir + "/detector.py"})
    || f == ConnectionFailed(GatewayUrl)
  }

  /** A failing build stops at the step that failed. */
  lemma BuildStopsAtFailure(world: World, scratch: Scratch, data: map<string, string>, uuid: string)
    ensures var r, dir := BuildSpec(world, scratch, data, uuid), ScratchDir(uuid);
      r.outcome.Failed? ==>
        IsBuildFailure(r.outcome.failure, dir) && |r.steps| == StepsBefore(r.outcome.failure, dir)
  {
    var r := BuildSpec(world, scratch, data, uuid);
    var dir := ScratchDir(uuid);
    if "codebase" !in data {
      assert r.steps == [] && r.outcome == Failed(KeyError("codebase"));
    } else if data["codebase"] !in world.remotes || dir in scratch {
      assert |r.steps| == 1 && r.outcome.failure.CloneFailed?;
    } else if "name" !in data {
      assert |r.steps| == 1 && r.outcome == Failed(KeyError("name"));
    } else {
      var repo := data["codebase"];
      var cloned := scratch[dir := world.remotes[repo]];
      var requirements := ReadText(cloned[dir], "requirements.txt");
      if requirements.None? {
        assert |r.steps| == 2 && r.outcome == Failed(CannotRead(dir + "/requirements.txt"));
      } else {
        var p := Pack(Descriptor(data["name"], Lines(requirements.value)), world.template, cloned[dir], dir);
        if p.missing.Some? {
          assert |r.steps| == 3 && r.outcome == Failed(CannotRead(p.missing.value));
          PackMissingIsNotRequirements(p, dir);
        } else if !world.gatewayUp {
          assert |r.steps| == 5 && r.outcome == Failed(ConnectionFailed(GatewayUrl));
        }
      }
    }
  }

  /** The source a packing misses is never the requirements file read before it. */
  lemma PackMissingIsNotRequirements(p: Packed, dir: string)
    requires p.missing.Some?
    requires p.missing.value in {"./template/main.py", "./template/feature_store.yaml", dir + "/detector.py"}
    ensures p.missing.value != dir + "/requirements.txt"
  {
    var requirementsPath := dir + "/requirements.txt";
    var detectorPath := dir + "/detector.py";
    assert requirementsPath[|dir| + 1] == 'r' && detectorPath[|dir| + 1] == 'd';
  }

  /**
   * A build gets past packaging exactly when every key and every source is
   * there; in particular it posts only a completely packed archive.
   */
  lemma BuildPackagesIff(world: World, scratch: Scratch, data: map<string, string>, uuid: string)
    ensures var r := BuildSpec(world, scratch, data, uuid);
      (|r.steps| >= 4 <==> BuildCanPackage(world, scratch, data, uuid))
      && ((exists i | 0 <= i < |r.steps| :: r.steps[i].Post?) ==> BuildCanPackage(world, scratch, data, uuid))
  {
    var r := BuildSpec(world, scratch, data, uuid);
    BuildStepsInOrder(world, scratch, data, uuid);
    if i :| 0 <= i < |r.steps| && r.steps[i].Post? {
      assert BuildOrder(r.steps[i]) == 4 == i;
    }
    var dir := ScratchDir(uuid);
    if "codebase" in data && data["codebase"] in world.remotes && dir !in scratch && "name" in data {
      var cloned := scratch[dir := world.remotes[data["codebase"]]];
      var requirements := ReadText(cloned[dir], "requirements.txt");
      if requirements.Some? {
        var p := Pack(Descriptor(data["name"], Lines(requirements.value)), world.template, cloned[dir], dir);
        assert p.missing.None? <==>
          "main.py" in world.template && "feature_store.yaml" in world.template && "detector.py" in cloned[dir];
      }
    }
  }

  /** A build completes iff everything it needs is there; it then leaves /tmp as it found it. */
  lemma BuildCompletesIff(world: World, scratch: Scratch, data: map<string, string>, uuid: string)
    ensures var r := BuildSpec(world, scratch, data, uuid);
      (r.outcome == Completed <==> BuildCanSucceed(world, scratch, data, uuid))
      && (r.outcome == Completed ==> r.scratch == scratch)
  {
    var r := BuildSpec(world, scratch, data, uuid);
    if r.outcome == Completed {
      var dir := ScratchDir(uuid);
      var cloned := scratch[dir := world.remotes[data["codebase"]]];
      var p := Pack(Descriptor(data["name"], Lines(ReadText(cloned[dir], "requirements.txt").value)), world.template, cloned[dir], dir);
      assert r.scratch == WithArchive(cloned, dir, p) - {dir};
      assert r.scratch == scratch;
    }
  }

  /**
   * No cleanup on the failure paths: once the clone has succeeded, a
   * failing build leaves its scratch directory behind.
   */
  lemma FailedBuildLeavesScratch(world: World, scratch: Scratch, data: map<string, string>, uuid: string)
    requires "codebase" in data && data["codebase"] in world.remotes && ScratchDir(uuid) !in scratch
    ensures var r := BuildSpec(world, scratch, data, uuid);
      r.outcome.Failed? ==> ScratchDir(uuid) in r.scratch && Remove(ScratchDir(uuid)) !in r.steps
  {
    BuildStepsInOrder(world, scratch, data, uuid);
  }

  /** A build that fails before its clone succeeds takes at most the clone step and changes no file. */
  lemma EarlyBuildFailureChangesNothing(world: World, scratch: Scratch, data: map<string, string>, uuid: string)
    requires "codebase" !in data || data["codebase"] !in world.remotes || ScratchDir(uuid) in scratch
    ensures var r := BuildSpec(world, scratch, data, uuid);
      r.scratch == scratch && r.outcome.Failed? && |r.steps| <= 1
      && ("codebase" !in data <==> r.outcome.failure == KeyError("codebase"))
  {
  }

  /**
   * A completed build posted the complete archive to the gateway: a
   * "deploy" action whose value encodes the closed archive of the four
   * fixed members, the descriptor built from the name and the
   * requirements' lines, and the clone's detector.
   */
  lemma BuildPostsArchive(world: World, scratch: Scratch, data: map<string, string>, uuid: string)
    requires BuildSpec(world, scratch, data, uuid).outcome == Completed
    ensures var r, dir := BuildSpec(world, scratch, data, uuid), ScratchDir(uuid);
      var clone := world.remotes[data["codebase"]];
      |r.steps| == 6 && r.steps[4].Post?
      && r.steps[4].url == GatewayUrl && r.steps[4].body.action == "deploy"
      && var archive := r.steps[4].body.value.file;
      archive.Zip? && archive.closed
      && ArcNames(archive.entries) == MemberNames
      && archive.entries[0].data == Text(Descriptor(data["name"], Lines(ReadText(clone, "requirements.txt").value)))
      && archive.entries[1].data == world.template["main.py"]
      && archive.entries[2].data == world.template["feature_store.yaml"]
      && archive.entries[3].data == clone["detector.py"]
  {
    var dir := ScratchDir(uuid);
    var clone := world.remotes[data["codebase"]];
    var cloned := scratch[dir := clone];
    var descriptor := Descriptor(data["name"], Lines(ReadText(clone, "requirements.txt").value));
    PackedMemberNames(descriptor, world.template, cloned[dir], dir);
  }

  // -------------------------------------------------------------- execution

  /** A job is submitted only with a complete environment: a missing payload key fails before any cluster call. */
  lemma MissingKeySubmitsNothing(world: World, data: map<string, string>, uuid: string)
    ensures var r := TriggerSpec(world, data, uuid);
      (r.outcome.Failed? && r.outcome.failure.KeyError?) <==>
        (exists k | k in PayloadKeys + ["algorithmName"] :: k !in data)
    ensures var r := TriggerSpec(world, data, uuid);
      r.outcome.Failed? && r.outcome.failure.KeyError? ==> r.steps == []
  {
    var r := TriggerSpec(world, data, uuid);
    if exists k | k in PayloadKeys + ["algorithmName"] :: k !in data {
      var k :| k in PayloadKeys + ["algorithmName"] && k !in data;
      if k !in PayloadKeys {
        assert k == "algorithmName";
      }
    }
  }

  /**
   * The one job submitted carries the payload's environment list unchanged,
   * runs the named algorithm's image, and goes to the "panoptes" namespace.
   */
  lemma SubmittedJob(world: World, data: map<string, string>, uuid: string)
    ensures var r := TriggerSpec(world, data, uuid);
      (|r.steps| == 2 <==> world.inCluster && "algorithmName" in data && forall k | k in PayloadKeys :: k in data)
      && (r.outcome == Completed <==> |r.steps| == 2 && world.clusterAccepts)
      && (|r.steps| == 2 ==>
            r.steps[0] == LoadConfig && r.steps[1].SubmitJob? && r.steps[1].namespace == Namespace
            && var c := r.steps[1].job.spec.template.containers;
            |c| == 1 && c[0].env == EnvList(data).value
            && AlgorithmOfImage(c[0].image) == Some(data["algorithmName"]))
  {
  }
}
