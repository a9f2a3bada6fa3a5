/**
 * The running service: a host whose scratch directories and record of
 * external steps change as `receiveEvent`, `buildAlgorithm` and
 * `triggerExecution` execute, one statement at a time. Each method is
 * proved to do what the specification functions of module Events say.
 */
module Service {
  import opened Common
  import opened DeploymentDescriptor
  import opened Archive
  import opened Jobs
  import opened Events

  /** Appending the steps of one stage after those of the stages before it. */
  lemma Extend(before: seq<Step>, done: seq<Step>, next: seq<Step>)
    ensures (before + done) + next == before + (done + next)
  {
  }

  /** Appending no steps. */
  lemma NothingAppended(before: seq<Step>)
    ensures before + [] == before
  {
  }

  class Host {
    /** The outside world, which the handler does not change. */
    const world: World
    /** Directories under /tmp. */
    var scratch: Scratch
    /** The external steps taken so far, oldest first. */
    var steps: seq<Step>

    constructor (world: World, scratch: Scratch)
      ensures this.world == world && this.scratch == scratch && steps == []
    {
      this.world := world;
      this.scratch := scratch;
      steps := [];
    }

    /** `git.clone(repo, dir)`: fails for an unknown repository or an existing directory. */
    method GitClone(repo: string, dir: string) returns (ok: bool)
      modifies this
      ensures ok == (repo in world.remotes && dir !in old(scratch))
      ensures scratch == if ok then old(scratch)[dir := world.remotes[repo]] else old(scratch)
      ensures steps == old(steps) + [Clone(repo, dir)]
    {
      steps := steps + [Clone(repo, dir)];
      ok := repo in world.remotes && dir !in scratch;
      if ok {
        scratch := scratch[dir := world.remotes[repo]];
      }
    }

    /** `createDescriptor(name, dir)`: None when requirements.txt cannot be opened. */
    method CreateDescriptor(name: string, dir: string) returns (descriptor: Option<string>)
      requires dir in scratch
      modifies this`steps
      ensures steps == old(steps) + [Describe(dir)]
      ensures descriptor == match ReadText(scratch[dir], "requirements.txt")
                            case None => None
                            case Some(text) => Some(Descriptor(name, TextFiles.Lines(text)))
    {
      steps := steps + [Describe(dir)];
      var text := ReadText(scratch[dir], "requirements.txt");
      if text.None? {
        return None;
      }
      var d := Assemble(name, TextFiles.Lines(text.value));
      descriptor := Some(d);
    }

    /** `packageDetector(descriptor, dir)`: the archive file holds what was written when a source failed to open. */
    method PackageDetector(descriptor: string, dir: string) returns (missing: Option<string>)
      requires dir in scratch
      modifies this
      ensures var p := Pack(descriptor, world.template, old(scratch)[dir], dir);
        missing == p.missing && scratch == WithArchive(old(scratch), dir, p)
      ensures steps == old(steps) + [Package(dir)]
    {
      steps := steps + [Package(dir)];
      var clone := scratch[dir];
      var zip := new ZipFile();
      var ok := zip.WriteStr("deployment-desc.yml", descriptor);
      ok := zip.Write(if "main.py" in world.template then Some(world.template["main.py"]) else None, "main.py");
      if !ok {
        missing := Some("./template/main.py");
      } else {
        ok := zip.Write(if "feature_store.yaml" in world.template then Some(world.template["feature_store.yaml"]) else None, "feature_store.yaml");
        if !ok {
          missing := Some("./template/feature_store.yaml");
        } else {
          ok := zip.Write(if "detector.py" in clone then Some(clone["detector.py"]) else None, "detector.py");
          if !ok {
            missing := Some(dir + "/detector.py");
          } else {
            zip.Close();
            missing := None;
          }
        }
      }
      ghost var p := Pack(descriptor, world.template, clone, dir);
      assert zip.entries == p.entries && zip.closed == p.missing.None?;
      scratch := scratch[dir := clone["zipFile" := zip.Contents()]];
    }

    /** `open(dir + "/zipFile", "rb").read()`. */
    method ReadArchiveFile(dir: string) returns (file: File)
      requires dir in scratch && "zipFile" in scratch[dir]
      modifies this`steps
      ensures file == scratch[dir]["zipFile"]
      ensures steps == old(steps) + [ReadArchive(dir + "/zipFile")]
    {
      steps := steps + [ReadArchive(dir + "/zipFile")];
      file := scratch[dir]["zipFile"];
    }

    /** `requests.post(GatewayUrl, json=body)`: raises only when the gateway cannot be reached. */
    method PostDeploy(body: DeployRequest) returns (ok: bool)
      modifies this`steps
      ensures ok == world.gatewayUp
      ensures steps == old(steps) + [Post(GatewayUrl, body)]
    {
      steps := steps + [Post(GatewayUrl, body)];
      ok := world.gatewayUp;
    }

    /** `rm("-rf", dir)`. */
    method RemoveTree(dir: string)
      modifies this
      ensures scratch == old(scratch) - {dir}
      ensures steps == old(steps) + [Remove(dir)]
    {
      steps := steps + [Remove(dir)];
      scratch := scratch - {dir};
    }

    /** The `with open(dir + "/zipFile", "rb")` block: read the archive, encode it and post it. */
    method UploadArchive(dir: string) returns (ok: bool)
      requires dir in scratch && "zipFile" in scratch[dir]
      modifies this`steps
      ensures ok == world.gatewayUp
      ensures steps == old(steps) + [ReadArchive(dir + "/zipFile"),
                                     Post(GatewayUrl, DeployRequest("deploy", Base64(scratch[dir]["zipFile"])))]
    {
      var archive := ReadArchiveFile(dir);
      ok := PostDeploy(DeployRequest("deploy", Base64(archive)));
    }

    method BuildAlgorithm(data: map<string, string>, uuid: string) returns (outcome: Outcome)
      modifies this
      ensures var r := BuildSpec(world, old(scratch), data, uuid);
        scratch == r.scratch && steps == old(steps) + r.steps && outcome == r.outcome
    {
      NothingAppended(steps);
      if "codebase" !in data {
        return Failed(KeyError("codebase"));
      }
      ghost var steps0 := steps;
      var repo := data["codebase"];
      var tempdir := ScratchDir(uuid);
      var cloned := GitClone(repo, tempdir);
      if !cloned {
        return Failed(CloneFailed(repo, tempdir));
      }
      ghost var stepsCloned := steps;
      outcome := Deploy(data, tempdir);
      Extend(steps0, [Clone(repo, tempdir)], steps[|stepsCloned|..]);
    }

    /** The statements of `buildAlgorithm` after `git.clone`, on the clone in `tempdir`. */
    method Deploy(data: map<string, string>, tempdir: string) returns (outcome: Outcome)
      requires tempdir in scratch
      modifies this
      ensures var r := DeploySpec(world, old(scratch), data, tempdir);
        scratch == r.scratch && steps == old(steps) + r.steps && outcome == r.outcome
    {
      NothingAppended(steps);
      if "name" !in data {
        return Failed(KeyError("name"));
      }
      ghost var steps0 := steps;
      var descriptor := CreateDescriptor(data["name"], tempdir);
      if descriptor.None? {
        return Failed(CannotRead(tempdir + "/requirements.txt"));
      }
      var missing := PackageDetector(descriptor.value, tempdir);
      Extend(steps0, [Describe(tempdir)], [Package(tempdir)]);
      if missing.Some? {
        return Failed(CannotRead(missing.value));
      }
      ghost var zipFile := scratch[tempdir]["zipFile"];
      var posted := UploadArchive(tempdir);
      ghost var packaged := [Describe(tempdir), Package(tempdir)];
      ghost var uploaded := [ReadArchive(tempdir + "/zipFile"), Post(GatewayUrl, DeployRequest("deploy", Base64(zipFile)))];
      Extend(steps0, packaged, uploaded);
      if !posted {
        return Failed(ConnectionFailed(GatewayUrl));
      }
      RemoveTree(tempdir);
      Extend(steps0, packaged + uploaded, [Remove(tempdir)]);
      outcome := Completed;
    }

    /** `config.load_incluster_config()`: fails outside a cluster. */
    method LoadInClusterConfig() returns (ok: bool)
      modifies this`steps
      ensures ok == world.inCluster
      ensures steps == old(steps) + [LoadConfig]
    {
      steps := steps + [LoadConfig];
      ok := world.inCluster;
    }

    /** `create_namespaced_job(body=job, namespace=namespace)`: the API may reject the job. */
    method CreateNamespacedJob(job: Job, namespace: string) returns (ok: bool)
      modifies this`steps
      ensures ok == world.clusterAccepts
      ensures steps == old(steps) + [SubmitJob(namespace, job)]
    {
      steps := steps + [SubmitJob(namespace, job)];
      ok := world.clusterAccepts;
    }

    method TriggerExecution(data: map<string, string>, uuid: string) returns (outcome: Outcome)
      modifies this`steps
      ensures var r := TriggerSpec(world, data, uuid);
        steps == old(steps) + r.steps && outcome == r.outcome
    {
      var envList := EnvList(data);
      NothingAppended(steps);
      if envList.MissingKey? {
        return Failed(KeyError(envList.key));
      }
      if "algorithmName" !in data {
        return Failed(KeyError("algorithmName"));
      }
      var algorithmName := data["algorithmName"];
      ghost var steps0 := steps;
      var configured := LoadInClusterConfig();
      if !configured {
        return Failed(NoClusterConfig);
      }
      var job := JobObject(algorithmName, envList.value, uuid);
      var accepted := CreateNamespacedJob(job, Namespace);
      Extend(steps0, [LoadConfig], [SubmitJob(Namespace, job)]);
      outcome := if accepted then Completed else Failed(JobRejected(Namespace));
    }

    /** `receiveEvent`: runs the branch the event's type selects and answers 200 once it returns. */
    method ReceiveEvent(eventType: string, data: map<string, string>, uuid: string) returns (reply: Reply)
      modifies this
      ensures var r := ReceiveSpec(world, old(scratch), eventType, data, uuid);
        scratch == r.scratch && steps == old(steps) + r.steps && reply == r.reply
    {
      var handler := Route(eventType);
      if handler == Build {
        var outcome := BuildAlgorithm(data, uuid);
        reply := ReplyTo(outcome);
      } else if handler == Trigger {
        var outcome := TriggerExecution(data, uuid);
        reply := ReplyTo(outcome);
      } else {
        reply := Status(200);
      }
    }
  }
}
