# Event handler of the python-function algorithm runtime, modelled in Dafny

The service receives CloudEvents over HTTP (`project/events.py`). An event of type
`org.lowcomote.panoptes.baseAlgorithm.create` builds an algorithm. The handler clones the
algorithm's repository into `/tmp/<uuid>` and writes a deployment descriptor from
`requirements.txt`. It packs a four-member zip archive and posts it, base64-encoded, to the
deploy gateway. Then it removes the scratch directory. An event of type
`org.lowcomote.panoptes.baseAlgorithmExecution.trigger` marshals the payload into a ten-entry
environment list and submits a one-shot Kubernetes batch job in namespace `panoptes`. Any
other event is ignored. Once the selected branch returns, the handler answers 200.

The model has seven modules:

- `TextFiles`: how Python reads `requirements.txt` in text mode. Universal newlines turn
  `\r\n` and `\r` into `\n`. Iterating over the file yields lines that keep their `\n`.
- `DeploymentDescriptor`: the descriptor, as a function, and `Assemble`, the loop of
  `createDescriptor` that appends one item per line. Lines are not stripped, so a line
  `numpy\n` becomes the item `  - numpy\n\n`. The model keeps that.
- `Archive`: the archive plan (member name and source) and `Pack`, the members actually
  written. `ZipFile` is a class: `writestr` and `write` each append one member to its member
  list, and `close` marks the archive closed and leaves the members as they are.
- `Jobs`: the environment list (`EnvList`) and the job object (`JobObject`). It also holds
  the inverse functions that read the algorithm name back out of the image reference.
- `Events`: routing (`Route`) and the specification functions. `BuildSpec` (with
  `DeploySpec` for the statements after the clone), `TriggerSpec` and `ReceiveSpec` give what each branch does to the host as a function of the host's
  state and of the outside world: the scratch directories, the ordered record of external
  steps, and the outcome or escaped exception. This module also holds the lemmas about them.
- `Service`: class `Host`, whose methods run the same steps one statement at a time. Each
  method is proved equal to its specification function.
- `Common`: `Option`.

The clone, the file reads, the POST, the in-cluster configuration and the job API are not
run. Their behaviour comes from a `World` value:
- the tree each repository clones to;
- the `./template` directory;
- whether the gateway, the in-cluster configuration and the job API respond.

The value `uuid.uuid4()` returns is a parameter.

Some behaviour described for the system at large is not in this revision of
`project/events.py`, and the model follows the code:
- There is no build-freshness cache or deduplication.
- There is no `subject`-based dispatch.
- There is no higher-order execution route.
- The scratch directory is not removed on failure paths.
- "Algorithm never built" is not checked before a job is submitted.
- The environment list does not carry `endDate` or `parameters`, although
  `template/main.py` reads both.

## Model

| member | source | states |
|---|---|---|
| Events.Route | project/events.py:21-25 | The branch is Build iff the type equals the create string, Trigger iff it equals the trigger string, else Ignore; exactly one holds. |
| Events.AnswersOkIffBranchReturns | project/events.py:21-25 | The reply is 200 iff the selected branch returns normally, and always for an ignored type; no other status is produced. |
| Events.AtMostOneBranch | project/events.py:21-24 | Only one branch runs: a create event takes only build steps, a trigger only execution steps, an ignored event none and changes no file. |
| Service.Host.ReceiveEvent | project/events.py:16-25 | Running the handler changes the scratch directories, the step record and the reply exactly as ReceiveSpec says. |
| Events.BuildStepsInOrder | project/events.py:28-42 | Build steps come in the order clone, descriptor, package, read, post, rm and stop at the first failure: a failing build has taken exactly the steps up to the one that failed (none when the codebase is missing, only the clone when the clone fails, and so on). `rm -rf /tmp/<uuid>` is the sixth and last step, and is taken iff the build completes. The clone goes to `"/tmp/" + uuid`. |
| Events.DeployStepsInOrder | project/events.py:32-42 | After the clone, the steps come in the order descriptor, package, read, post, rm, at most five of them. The fifth is `rm -rf` of the clone directory, reached iff the build completes. |
| Events.BuildStopsAtFailure | project/events.py:28-42 | A failing build stops at the step that failed. It has taken no step for a missing `codebase` key, one for a failed clone or a missing `name`, two when requirements.txt cannot be read, three when a packaged source is missing, and five when the gateway is unreachable. The failed clone names the scratch directory, and an unreadable path is one of the four files the build opens. |
| Events.BuildPackagesIff | project/events.py:28-71 | A build gets past packaging (four steps or more) iff both keys, the repository, requirements.txt and the three packaged sources are all there. The archive is read and posted only in that case. |
| Events.BuildCompletesIff | project/events.py:28-42 | A build completes iff both payload keys, the repository, requirements.txt, both template files, detector.py and the gateway are all available; a completed build leaves /tmp as it found it. |
| Events.FailedBuildLeavesScratch | project/events.py:30-42 | Once the clone has succeeded, a failing build never removes its scratch directory. |
| Events.EarlyBuildFailureChangesNothing | project/events.py:29-31 | A missing `codebase` key or a failed clone changes no file and takes at most the clone step; the KeyError is reported iff `codebase` is absent. |
| Events.BuildPostsArchive | project/events.py:34-39 | A completed build posted `{"action": "deploy", "value": base64(archive)}` to the gateway. The archive is closed and has the four fixed members. They hold the descriptor from the name and the requirements' lines, the two template files and the clone's detector.py. |
| Service.Host.BuildAlgorithm | project/events.py:28-42 | Running `buildAlgorithm` leaves the scratch directories, step record and outcome that BuildSpec gives. |
| Service.Host.Deploy | project/events.py:32-42 | Running the statements after the clone leaves the scratch directories, step record and outcome that DeploySpec gives. |
| Service.Host.UploadArchive | project/events.py:34-40 | The `with` block reads the archive packaging left on disk and posts its encoding to the gateway; it raises iff the gateway is unreachable. |
| Service.Host.GitClone | project/events.py:31 | The clone succeeds iff the repository is known and the directory does not exist; it then holds the repository's tree. |
| Service.Host.CreateDescriptor | project/events.py:45-62 | No descriptor when requirements.txt cannot be opened as text; otherwise the descriptor of the name and the file's lines. |
| Service.Host.PackageDetector | project/events.py:65-71 | The archive file holds the members written before the first missing source, and is closed only when all four were written; the missing path is reported. |
| Service.Host.ReadArchiveFile | project/events.py:34-36 | Reading the archive yields the file packaging left on disk. |
| Service.Host.PostDeploy | project/events.py:37-40 | The POST goes to the gateway URL with the given body and raises only when the gateway is unreachable. |
| Service.Host.RemoveTree | project/events.py:42 | `rm -rf` removes the scratch directory and nothing else. |
| Service.Host.LoadInClusterConfig | project/events.py:97-98 | Loading the in-cluster configuration succeeds iff the service runs in a cluster. |
| Service.Host.CreateNamespacedJob | project/events.py:100 | The job is submitted to the given namespace and raises iff the API rejects it. |
| Service.Host.TriggerExecution | project/events.py:74-100 | Running `triggerExecution` takes the steps and has the outcome TriggerSpec gives. |
| Events.TriggerStepsInOrder | project/events.py:96-100 | An execution takes no step, only the configuration load, or the load followed by one job submission to `panoptes`. |
| Events.MissingKeySubmitsNothing | project/events.py:74-100 | The branch fails with a KeyError iff one of the six env keys or `algorithmName` is absent, and then takes no cluster step. |
| Events.SubmittedJob | project/events.py:96-100 | A job is submitted iff every key is present and the cluster configuration loads. It goes to `panoptes` with one container carrying the env list unchanged and the named algorithm's image. The branch completes iff the API also accepts it. |
| Jobs.CopyKeys | project/events.py:75-84 | Copying payload keys succeeds iff all are present, giving one entry per key with its payload value in key order; otherwise it reports the first absent key. |
| Jobs.EnvList | project/events.py:75-95 | The env list exists iff the six payload keys are present. It then has 10 entries in the fixed name order: the first six values come from the payload and the last four are the platform constants. Otherwise the first missing key is reported. |
| Jobs.EnvListAsEnvironment | project/events.py:75-95 | Read as an environment, the list gives each payload key its payload value and each platform variable its constant. |
| Jobs.EnvNamesDistinct | project/events.py:75-95 | The ten variable names are pairwise distinct. |
| Jobs.StripAffixesInverse | project/events.py:107-109 | Stripping a prefix and suffix yields `m` iff the string is prefix + m + suffix. |
| Jobs.AlgorithmOfImage | project/events.py:107-109 | An algorithm name read back from an image reference rebuilds that reference. |
| Jobs.JobObject | project/events.py:103-132 | The job is a `batch/v1` Job named `python-function-execution-<uuid>` with one container `base-algorithm-execution`. Its image names the algorithm and it carries the env list unchanged. Restart policy is `Never`, the pull secret is `vulcan-registry-credentials`, backoff limit 4, ttl 300. |
| TextFiles.Universal | project/events.py:54 | Text-mode reading leaves no carriage return and never lengthens the text. |
| TextFiles.UniversalKeepsPlainText | project/events.py:54 | A file without carriage returns is read unchanged. |
| TextFiles.UniversalCountsBreaks | project/events.py:54 | The text has one newline per line break of the file: each `\n` and each `\r` counts, except that a `\r\n` pair counts once. |
| TextFiles.UniversalKeepsOtherChars | project/events.py:54 | Leaving out carriage returns and newlines, the text holds the file's characters in their order. |
| TextFiles.UniversalOfConcat | project/events.py:54 | Cut anywhere except between the two characters of a `\r\n`, the file translates as its two parts do, one after the other. So a lone `\r` becomes a `\n` in its own place, and a `\r\n` becomes a single `\n` in its place. |
| TextFiles.LineEnd | project/events.py:55 | The first line ends at the first newline, inclusive, or at the end of the text. |
| TextFiles.LinesSplit | project/events.py:55 | The lines iterated over concatenate back to the text. Each is non-empty with no inner newline, and all but the last end in a newline. |
| TextFiles.LinesUnique | project/events.py:55 | Any such well-formed split is exactly what iterating over its concatenation yields. |
| DeploymentDescriptor.Assemble | project/events.py:45-62 | The descriptor built by successive appends equals Descriptor(name, lines). |
| DeploymentDescriptor.ItemsLength | project/events.py:55-56 | The user-dependency block has length the sum over the lines L of (length of L + 5). |
| DeploymentDescriptor.DescriptorLength | project/events.py:46-61 | The descriptor's length is 185 + length of name + the sum over the lines L of (length of L + 5). |
| DeploymentDescriptor.DescriptorLayout | project/events.py:46-61 | The descriptor starts with the fixed header for the name, then the user items, then the fixed base-dependency block, and ends with the fixed footer. |
| DeploymentDescriptor.ItemPlacement | project/events.py:54-58 | Line i contributes exactly `"  - " + L + "\n"` at its offset, before the base-dependency block. |
| DeploymentDescriptor.ItemsInFileOrder | project/events.py:55-56 | The item of an earlier line ends before the item of a later line begins. |
| DeploymentDescriptor.FirstLineNamesApplication | project/events.py:48 | Read back as text, the descriptor's first line is `applicationName: <name>`, for a name without newlines. |
| Archive.PackWritesPlan | project/events.py:66-70 | The members written are a prefix of the plan, each with its source's contents. |
| Archive.PackReportsMissing | project/events.py:66-71 | Packing succeeds iff every source exists, and then writes all four members. Otherwise it stops at the first missing source and reports its path. |
| Archive.PackedMemberNames | project/events.py:66-70 | A complete archive's member names are always deployment-desc.yml, main.py, feature_store.yaml, detector.py, whatever the algorithm; the first holds the descriptor. |
| Archive.ZipFile.constructor | project/events.py:66 | A new archive is open and empty. |
| Archive.ZipFile.WriteStr | project/events.py:67 | `writestr` appends one text member, unless the archive is closed. |
| Archive.ZipFile.Write | project/events.py:68-70 | `write` appends one member copied from an existing file; a missing file or closed archive fails and adds nothing. |
| Archive.ZipFile.Close | project/events.py:71 | Closing keeps the members. |

## Left out

- CloudEvent parsing (`from_http`), Flask's request and response objects and logging are
  left out. The handler takes the event's `type` and `data` as inputs.
- An exception escaping `receiveEvent` is modelled as `Reply.Escaped`. Flask's conversion of
  it into a 500 response is not modelled.
- Payload values are strings. A JSON value of another type, such as a number for `name`,
  would raise a TypeError in Python. That is not modelled.
- `uuid.uuid4()` is a parameter. One value per request serves whichever branch runs.
- Base64 encoding (RFC 4648, section 4) and the zip byte format are kept symbolic. The body
  carries `Base64(file)` for the archive value, and files are modelled as characters or
  member lists, not bytes. Character decoding of requirements.txt is not modelled. Opening
  a zip archive in text mode counts as a read failure.
- `git clone` is modelled as copying a known tree into a directory that does not exist yet.
  Network and authentication details are reduced to "repository unknown". A clone into an
  existing empty directory, which git accepts, is treated as a failure. With fresh uuids
  that case does not arise.
- Operating-system errors are not modelled: permissions, full disks, and a failure to read
  back the just-written archive. `rm -rf` always succeeds. A file fails to open only when it
  is absent.
- The gateway's HTTP response is not modelled. The source only logs its text, and an error
  status does not raise. Only an unreachable gateway makes the POST fail.
- Hangs are not modelled. `requests.post` is called without a timeout, and the `git clone`
  subprocess can block. In the model every step returns.
- When `packageDetector` raises, the `ZipFile` is never closed explicitly. CPython's
  finaliser (`ZipFile.__del__`) may later finish the partial archive on disk. The model shows
  the archive as it stands when the exception escapes: not closed, holding the members
  written so far.
- The Kubernetes API response, `BatchV1Api` construction and the namespace's existence are
  not modelled. Submission succeeds or is rejected as a whole.
- The runtime entrypoints, `template/main.py` and `HOtemplate/main.py`, are not modelled.
  They are I/O over feature-store and HTTP libraries.
- The detectors, `template/detector.py` and `HOtemplate/detector.py`, are not modelled.
  They are floating-point statistics and a foreign library call.
- `test/test_events.py` is not modelled. Its checks, such as the 200 for an unknown type, are
  covered by Events.AnswersOkIffBranchReturns.
