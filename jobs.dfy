/**
 * What `triggerExecution` and `create_job_object` hand to the cluster:
 * the execution's environment list, copied from the trigger payload plus
 * fixed platform entries, and a one-shot batch job running the
 * algorithm's image.
 */
module Jobs {
  import opened Common

  /** One `{"name": ..., "value": ...}` entry of a container's environment. */
  datatype EnvVar = EnvVar(name: string, value: string)

  /** The result of reading payload keys: the values, or the first key absent (Python's KeyError). */
  datatype Lookup<+T> = Found(value: T) | MissingKey(key: string)

  /** The payload keys copied into the environment, in list order. */
  const PayloadKeys: seq<string> := [
    "modelName", "deploymentName", "historicalFeatures", "liveFeatures", "baseAlgorithmExecutionName", "startDate"
  ]

  /** The entries the platform adds after the payload's. */
  const PlatformEnv: seq<EnvVar> := [
    EnvVar("brokerEndpoint", "http://broker-ingress.knative-eventing.svc.cluster.local/panoptes/default"),
    EnvVar("FEAST_S3_ENDPOINT_URL", "http://minio-service.kubeflow.svc.cluster.local:9000"),
    EnvVar("AWS_ACCESS_KEY_ID", "minio"),
    EnvVar("AWS_SECRET_ACCESS_KEY", "minio123")
  ]

  const EnvNames: seq<string> := [
    "modelName", "deploymentName", "historicalFeatures", "liveFeatures", "baseAlgorithmExecutionName", "startDate",
    "brokerEndpoint", "FEAST_S3_ENDPOINT_URL", "AWS_ACCESS_KEY_ID", "AWS_SECRET_ACCESS_KEY"
  ]

  /**
   * Copies `keys` from the payload, left to right; the first key that is
   * absent stops the copy, as evaluating the list literal does.
   */
  function CopyKeys(data: map<string, string>, keys: seq<string>): (r: Lookup<seq<EnvVar>>)
    ensures r.Found? <==> forall k | k in keys :: k in data
    ensures r.Found? ==> |r.value| == |keys| && forall i | 0 <= i < |keys| :: r.value[i] == EnvVar(keys[i], data[keys[i]])
    ensures r.MissingKey? ==> r.key in keys && r.key !in data && FirstMissing(data, keys, r.key)
    decreases |keys|
  {
    if keys == [] then Found([])
    else if keys[0] !in data then MissingKey(keys[0])
    else
      match CopyKeys(data, keys[1..])
      case Found(rest) => Found([EnvVar(keys[0], data[keys[0]])] + rest)
      case MissingKey(k) => MissingKey(k)
  }

  /** Every key listed before the first occurrence of `k` is present. */
  predicate FirstMissing(data: map<string, string>, keys: seq<string>, k: string)
    decreases |keys|
  {
    keys != [] && (keys[0] == k || (keys[0] in data && FirstMissing(data, keys[1..], k)))
  }

  /**
   * The environment list of a base execution: the six payload values under
   * their own names, then the four platform entries; a missing payload key
   * fails before anything else happens.
   */
  function EnvList(data: map<string, string>): (r: Lookup<seq<EnvVar>>)
    ensures r.Found? <==> forall k | k in PayloadKeys :: k in data
    ensures r.Found? ==>
      |r.value| == 10
      && (forall i | 0 <= i < 10 :: r.value[i].name == EnvNames[i])
      && (forall i | 0 <= i < 6 :: r.value[i].value == data[PayloadKeys[i]])
      && r.value[6..] == PlatformEnv
    ensures r.MissingKey? ==> r.key in PayloadKeys && r.key !in data && FirstMissing(data, PayloadKeys, r.key)
  {
    match CopyKeys(data, PayloadKeys)
    case Found(copied) => Found(copied + PlatformEnv)
    case MissingKey(k) => MissingKey(k)
  }

  /** The value the environment gives `name`: that of its first entry with that name. */
  function EnvValue(env: seq<EnvVar>, name: string): Option<string>
    decreases |env|
  {
    if env == [] then None else if env[0].name == name then Some(env[0].value) else EnvValue(env[1..], name)
  }

  predicate DistinctNames(env: seq<EnvVar>)
  {
    forall i, j | 0 <= i < j < |env| :: env[i].name != env[j].name
  }

  lemma {:induction false} EnvValueAt(env: seq<EnvVar>, i: nat)
    requires i < |env| && DistinctNames(env)
    ensures EnvValue(env, env[i].name) == Some(env[i].value)
    decreases i
  {
    if i > 0 {
      assert env[0].name != env[i].name;
      assert DistinctNames(env[1..]) by {
        forall a, b | 0 <= a < b < |env[1..]| ensures env[1..][a].name != env[1..][b].name {
          assert env[1..][a] == env[a + 1] && env[1..][b] == env[b + 1];
        }
      }
      assert env[1..][i - 1] == env[i];
      EnvValueAt(env[1..], i - 1);
    }
  }

  lemma EnvNamesDistinct()
    ensures forall i, j | 0 <= i < j < |EnvNames| :: EnvNames[i] != EnvNames[j]
  {
  }

  /**
   * Read as the job's environment, the list gives every payload key its
   * payload value and every platform variable its fixed value.
   */
  lemma EnvListAsEnvironment(data: map<string, string>)
    requires EnvList(data).Found?
    ensures var env := EnvList(data).value;
      (forall i | 0 <= i < |PayloadKeys| :: EnvValue(env, PayloadKeys[i]) == Some(data[PayloadKeys[i]]))
      && (forall i | 0 <= i < |PlatformEnv| :: EnvValue(env, PlatformEnv[i].name) == Some(PlatformEnv[i].value))
  {
    var env := EnvList(data).value;
    EnvNamesDistinct();
    assert DistinctNames(env) by {
      forall a, b | 0 <= a < b < |env| ensures env[a].name != env[b].name {
        assert env[a].name == EnvNames[a] && env[b].name == EnvNames[b];
      }
    }
    forall i | 0 <= i < |PayloadKeys| ensures EnvValue(env, PayloadKeys[i]) == Some(data[PayloadKeys[i]]) {
      EnvValueAt(env, i);
    }
    forall i | 0 <= i < |PlatformEnv| ensures EnvValue(env, PlatformEnv[i].name) == Some(PlatformEnv[i].value) {
      assert env[6 + i] == env[6..][i] == PlatformEnv[i];
      EnvValueAt(env, 6 + i);
    }
  }

  datatype Container = Container(name: string, image: string, env: seq<EnvVar>)
  datatype PodSpec = PodSpec(imagePullSecrets: seq<string>, restartPolicy: string, containers: seq<Container>)
  datatype JobSpec = JobSpec(template: PodSpec, backoffLimit: int, ttlSecondsAfterFinished: int)
  datatype Job = Job(apiVersion: string, kind: string, name: string, spec: JobSpec)

  const ImagePrefix: string := "registry.docker.nat.bt.com/vulcanapplications/"
  const ImageSuffix: string := "-application:latest"
  const JobNamePrefix: string := "python-function-execution-"

  function ImageRef(algorithmName: string): string
  {
    ImagePrefix + algorithmName + ImageSuffix
  }

  /** The middle of `s` between `prefix` and `suffix`, if `s` has both. */
  function StripAffixes(s: string, prefix: string, suffix: string): Option<string>
  {
    if |prefix| + |suffix| <= |s| && s[..|prefix|] == prefix && s[|s| - |suffix|..] == suffix
    then Some(s[|prefix|..|s| - |suffix|])
    else None
  }

  /** Stripping the affixes undoes adding them, and only a string built that way has them. */
  lemma StripAffixesInverse(s: string, prefix: string, suffix: string, middle: string)
    ensures StripAffixes(s, prefix, suffix) == Some(middle) <==> s == prefix + middle + suffix
  {
    if s == prefix + middle + suffix {
      assert s[..|prefix|] == prefix;
      assert s[|s| - |suffix|..] == suffix;
      assert s[|prefix|..|s| - |suffix|] == middle;
    }
    if StripAffixes(s, prefix, suffix) == Some(middle) {
      assert s == s[..|prefix|] + s[|prefix|..|s| - |suffix|] + s[|s| - |suffix|..];
    }
  }

  /** The algorithm an image reference names. */
  function AlgorithmOfImage(image: string): (r: Option<string>)
    ensures forall n | r == Some(n) :: image == ImageRef(n)
  {
    var r := StripAffixes(image, ImagePrefix, ImageSuffix);
    if r.Some? then StripAffixesInverse(image, ImagePrefix, ImageSuffix, r.value); r else r
  }

  /** The job object for running `algorithmName` with `env`; `suffix` stands for the fresh uuid4 string. */
  function JobObject(algorithmName: string, env: seq<EnvVar>, suffix: string): (j: Job)
    ensures j.apiVersion == "batch/v1" && j.kind == "Job"
    ensures StripAffixes(j.name, JobNamePrefix, "") == Some(suffix)
    ensures |j.spec.template.containers| == 1
    ensures j.spec.template.containers[0].name == "base-algorithm-execution"
    ensures AlgorithmOfImage(j.spec.template.containers[0].image) == Some(algorithmName)
    ensures j.spec.template.containers[0].env == env
    ensures j.spec.template.restartPolicy == "Never"
    ensures j.spec.template.imagePullSecrets == ["vulcan-registry-credentials"]
    ensures j.spec.backoffLimit == 4 && j.spec.ttlSecondsAfterFinished == 300
  {
    StripAffixesInverse(ImageRef(algorithmName), ImagePrefix, ImageSuffix, algorithmName);
    StripAffixesInverse(JobNamePrefix + suffix, JobNamePrefix, "", suffix);
    var container := Container("base-algorithm-execution", ImageRef(algorithmName), env);
    var template := PodSpec(["vulcan-registry-credentials"], "Never", [container]);
    Job("batch/v1", "Job", JobNamePrefix + suffix, JobSpec(template, 4, 300))
  }
}
