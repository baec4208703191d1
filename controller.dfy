/**
  The Kustomization reconciler: `Reconcile` loads the Kustomization and its
  GitRepository, runs one sync attempt on a copy, writes the resulting
  status and asks to be requeued after the declared interval; `Sync`
  checks the artifact, opens a temporary workspace and runs the fetch,
  build and apply commands in it, stopping at the first failure.

  The host (temporary directory, shell commands) and the API server are
  not executed: each step's outcome is an input, and the ghost traces
  `effects` and `calls` record what the controller asked them to do.
 */
module KustomizationController {
  import opened KustomizeApi
  import opened Workspace

  /** What ioutil.TempDir gives back: a fresh directory, or an error text. */
  datatype TempDirOutcome = Created(dir: string) | TempDirError(error: string)

  /**
    What one `/bin/sh -c` command gives back: its combined output, and on a
    non-zero exit the error text of the exit.
   */
  datatype ExecOutcome = Exited(output: string) | ExitError(output: string, error: string)

  /** The host's answer to each step of one sync attempt. */
  datatype Host = Host(
    tempDir: TempDirOutcome,
    fetch: ExecOutcome,
    build: ExecOutcome,
    apply: ExecOutcome)

  /** How one sync attempt ended: the step that stopped it, with what that step reported. */
  datatype SyncOutcome =
    | ArtifactMissing(repository: string)
    | TempDirFailed(error: string)
    | FetchFailed(url: string, error: string, output: string)
    | BuildFailed(error: string, output: string)
    | ApplyFailed(error: string, output: string)
    | Applied(output: string)

  /** The source has published an artifact with a non-empty URL. */
  predicate ArtifactReady(repo: GitRepository)
  {
    repo.artifact.Some? && repo.artifact.value.url != ""
  }

  /** A workspace is opened exactly when the artifact is ready and TempDir succeeds. */
  predicate WorkspaceCreated(repo: GitRepository, host: Host)
  {
    ArtifactReady(repo) && host.tempDir.Created?
  }

  // ---------------------------------------------------------------------
  // The three shell commands

  /** Download the artifact and unpack it into `dir`, dropping its top directory. */
  function FetchCommand(dir: string, url: string): string
  {
    "cd " + dir + " && curl -sL " + url + " | tar -xz --strip-components=1 -C ."
  }

  /** Build `path` and write the manifest to `<name>.yaml` at the workspace root. */
  function BuildCommand(dir: string, path: string, name: string): string
  {
    "cd " + dir + " && kustomize build " + path + " > " + name + ".yaml"
  }

  /** The apply command without pruning. */
  function PlainApplyCommand(dir: string, name: string): string
  {
    "cd " + dir + " && kubectl apply -f " + name + ".yaml"
  }

  const PruneFlag := " --prune -l "

  /**
    Reads the prune selector back from an apply command for workspace `dir`
    and manifest `name`: the text after the prune flag, or None when the
    command has no prune flag.
   */
  function PruneSelector(command: string, dir: string, name: string): Option<string>
  {
    var prefix := PlainApplyCommand(dir, name) + PruneFlag;
    if |prefix| <= |command| && command[..|prefix|] == prefix then Some(command[|prefix|..]) else None
  }

  /**
    The apply command: it carries the prune flag with selector `prune` if
    and only if `prune` is non-empty, and is the plain command otherwise.
   */
  function ApplyCommand(dir: string, name: string, prune: string): (command: string)
    ensures PruneSelector(command, dir, name) == if prune == "" then None else Some(prune)
    ensures prune == "" ==> command == PlainApplyCommand(dir, name)
  {
    var plain := PlainApplyCommand(dir, name);
    if prune != "" then
      var command := plain + PruneFlag + prune;
      assert command[..|plain + PruneFlag|] == plain + PruneFlag;
      command
    else
      plain
  }

  /** The commands of the fetch, build and apply stages, in the order they run. */
  function StageCommands(k: Kustomization, url: string, dir: string): seq<string>
  {
    [FetchCommand(dir, url),
     BuildCommand(dir, k.spec.path, k.meta.name),
     ApplyCommand(dir, k.meta.name, k.spec.prune)]
  }

  // ---------------------------------------------------------------------
  // The outcome of an attempt and how it is reported

  /** The first of fetch, build and apply that fails decides the outcome. */
  function StagesOutcome(url: string, host: Host): SyncOutcome
  {
    if host.fetch.ExitError? then FetchFailed(url, host.fetch.error, host.fetch.output)
    else if host.build.ExitError? then BuildFailed(host.build.error, host.build.output)
    else if host.apply.ExitError? then ApplyFailed(host.apply.error, host.apply.output)
    else Applied(host.apply.output)
  }

  /**
    The outcome of one sync attempt: the artifact check comes first, then
    the workspace, then the stages in order; each failure stops the attempt
    and carries that step's own output and error.
   */
  function Attempt(repo: GitRepository, host: Host): (o: SyncOutcome)
    ensures o.ArtifactMissing? <==> !ArtifactReady(repo)
    ensures o.TempDirFailed? <==> ArtifactReady(repo) && host.tempDir.TempDirError?
    ensures o.FetchFailed? <==> WorkspaceCreated(repo, host) && host.fetch.ExitError?
    ensures o.BuildFailed? <==>
      WorkspaceCreated(repo, host) && host.fetch.Exited? && host.build.ExitError?
    ensures o.ApplyFailed? <==>
      WorkspaceCreated(repo, host) && host.fetch.Exited? && host.build.Exited? && host.apply.ExitError?
    ensures o.Applied? <==>
      WorkspaceCreated(repo, host) && host.fetch.Exited? && host.build.Exited? && host.apply.Exited?
    ensures o.ArtifactMissing? ==> o.repository == repo.meta.name
    ensures o.TempDirFailed? ==> o.error == host.tempDir.error
    ensures o.FetchFailed? ==> o.url == repo.artifact.value.url
    ensures o.FetchFailed? ==> o.output == host.fetch.output && o.error == host.fetch.error
    ensures o.BuildFailed? ==> o.output == host.build.output && o.error == host.build.error
    ensures o.ApplyFailed? ==> o.output == host.apply.output && o.error == host.apply.error
  {
    if !ArtifactReady(repo) then ArtifactMissing(repo.meta.name)
    else if host.tempDir.TempDirError? then TempDirFailed(host.tempDir.error)
    else StagesOutcome(repo.artifact.value.url, host)
  }

  /** How many of the three stage commands an attempt with outcome `o` runs. */
  function StagesRun(o: SyncOutcome): nat
  {
    match o
    case ArtifactMissing(_) => 0
    case TempDirFailed(_) => 0
    case FetchFailed(_, _, _) => 1
    case BuildFailed(_, _) => 2
    case ApplyFailed(_, _) => 3
    case Applied(_) => 3
  }

  /**
    The Ready condition written for an outcome: Ready only on success, and
    a reason that names the failing step. A failed fetch is reported with
    the same reason as a missing artifact. A failure's message ends with the
    repository name or the failing step's error text.
   */
  function ConditionFor(o: SyncOutcome): (c: Condition)
    ensures c.status == Ready <==> o.Applied?
    ensures c.reason == ArtifactFailedReason <==> o.ArtifactMissing? || o.FetchFailed?
    ensures c.reason == StorageOperationFailedReason <==> o.TempDirFailed?
    ensures c.reason == BuildFailedReason <==> o.BuildFailed?
    ensures c.reason == ApplyFailedReason <==> o.ApplyFailed?
    ensures c.reason == ApplySucceedReason <==> o.Applied?
    ensures o.Applied? ==> c.message == "kustomization was successfully applied"
    ensures o.ArtifactMissing? ==> EndsWith(c.message, o.repository)
    ensures o.TempDirFailed? || o.FetchFailed? || o.BuildFailed? || o.ApplyFailed? ==>
      EndsWith(c.message, o.error)
  {
    match o
    case ArtifactMissing(name) =>
      EndsWithAppended("artifact not found in ", name);
      Condition(NotReady, ArtifactFailedReason, "artifact not found in " + name)
    case TempDirFailed(e) =>
      EndsWithAppended("tmp dir error: ", e);
      Condition(NotReady, StorageOperationFailedReason, "tmp dir error: " + e)
    case FetchFailed(_, e, _) =>
      EndsWithAppended("artifact acquisition failed: ", e);
      Condition(NotReady, ArtifactFailedReason, "artifact acquisition failed: " + e)
    case BuildFailed(e, _) =>
      EndsWithAppended("kustomize build error: ", e);
      Condition(NotReady, BuildFailedReason, "kustomize build error: " + e)
    case ApplyFailed(e, _) =>
      EndsWithAppended("kubectl apply error: ", e);
      Condition(NotReady, ApplyFailedReason, "kubectl apply error: " + e)
    case Applied(_) =>
      Condition(Ready, ApplySucceedReason, "kustomization was successfully applied")
  }

  /** `suffix` ends `s`. */
  predicate EndsWith(s: string, suffix: string)
  {
    |suffix| <= |s| && s[|s| - |suffix|..] == suffix
  }

  lemma EndsWithAppended(prefix: string, suffix: string)
    ensures EndsWith(prefix + suffix, suffix)
  {
    assert (prefix + suffix)[|prefix + suffix| - |suffix|..] == suffix;
  }

  /**
    The error `sync` returns for an outcome: nil only on success; for a
    failed stage it ends with that stage's captured output; before any
    stage ran it is the text of the status message.
   */
  function SyncError(o: SyncOutcome): (err: Option<string>)
    ensures err.None? <==> o.Applied?
    ensures o.FetchFailed? || o.BuildFailed? || o.ApplyFailed? ==> err.Some? && EndsWith(err.value, o.output)
    ensures o.ArtifactMissing? || o.TempDirFailed? ==> err == Some(ConditionFor(o).message)
  {
    match o
    case ArtifactMissing(name) => Some("artifact not found in " + name)
    case TempDirFailed(e) => Some("tmp dir error: " + e)
    case FetchFailed(url, _, output) =>
      EndsWithAppended("artifact download `" + url + "` error: ", output);
      Some("artifact download `" + url + "` error: " + output)
    case BuildFailed(_, output) =>
      EndsWithAppended("kustomize build error: ", output);
      Some("kustomize build error: " + output)
    case ApplyFailed(_, output) =>
      EndsWithAppended("kubectl apply: ", output);
      Some("kubectl apply: " + output)
    case Applied(_) => None
  }

  /** The Kustomization with the status of outcome `o`; its metadata and spec stay as they were. */
  function Report(k: Kustomization, o: SyncOutcome): (r: Kustomization)
    ensures r.meta == k.meta && r.spec == k.spec
    ensures r.status.ready == Some(ConditionFor(o))
  {
    var c := ConditionFor(o);
    if c.status == Ready then KustomizationReady(k, c.reason, c.message)
    else KustomizationNotReady(k, c.reason, c.message)
  }

  /**
    A failed step's captured output never reaches the status condition: two
    attempts that fail at the same step with the same exit error but
    different output write the same condition.
   */
  lemma StatusOmitsStepOutput(o: SyncOutcome, output: string)
    requires o.FetchFailed? || o.BuildFailed? || o.ApplyFailed?
    ensures ConditionFor(o.(output := output)) == ConditionFor(o)
    ensures SyncError(o.(output := output)) != SyncError(o) <==> output != o.output
  {
    var p := match o
      case FetchFailed(url, _, _) => "artifact download `" + url + "` error: "
      case BuildFailed(_, _) => "kustomize build error: "
      case ApplyFailed(_, _) => "kubectl apply: ";
    assert SyncError(o) == Some(p + o.output);
    assert SyncError(o.(output := output)) == Some(p + output);
    assert (p + o.output)[|p|..] == o.output;
    assert (p + output)[|p|..] == output;
  }

  /**
    Each attempt overwrites the previous status: the status after two
    reports is that of the later outcome alone.
   */
  lemma ReportOverwrites(k: Kustomization, first: SyncOutcome, second: SyncOutcome)
    ensures Report(Report(k, first), second) == Report(k, second)
  {
  }

  // ---------------------------------------------------------------------
  // The sync attempt

  /**
    The stages of one attempt inside workspace `tmpDir`: fetch, build and
    apply in that order, each one's command, then its outcome; the first
    failure returns NotReady with that stage's reason. `ran` lists the
    commands run. Each return builds its status and error text in place,
    as the source does at that return; `ConditionFor` and `SyncError` give
    the same texts per outcome, as the reporter's specification, and the
    ensures clauses prove the two agree.
   */
  method RunStages(k: Kustomization, url: string, tmpDir: string, host: Host)
    returns (synced: Kustomization, err: Option<string>, ghost ran: seq<string>)
    ensures synced == Report(k, StagesOutcome(url, host))
    ensures err == SyncError(StagesOutcome(url, host))
    ensures ran == StageCommands(k, url, tmpDir)[..StagesRun(StagesOutcome(url, host))]
  {
    // download artifact and extract files
    var cmd := FetchCommand(tmpDir, url);
    var result := host.fetch;
    ran := [cmd];
    if result.ExitError? {
      synced := KustomizationNotReady(k, ArtifactFailedReason, "artifact acquisition failed: " + result.error);
      err := Some("artifact download `" + url + "` error: " + result.output);
      return;
    }

    // kustomize build
    cmd := BuildCommand(tmpDir, k.spec.path, k.meta.name);
    result := host.build;
    ran := ran + [cmd];
    if result.ExitError? {
      // the build output is also printed; printing is not modelled
      synced := KustomizationNotReady(k, BuildFailedReason, "kustomize build error: " + result.error);
      err := Some("kustomize build error: " + result.output);
      return;
    }

    // apply kustomization
    cmd := ApplyCommand(tmpDir, k.meta.name, k.spec.prune);
    result := host.apply;
    ran := ran + [cmd];
    if result.ExitError? {
      synced := KustomizationNotReady(k, ApplyFailedReason, "kubectl apply error: " + result.error);
      err := Some("kubectl apply: " + result.output);
      return;
    }

    synced := KustomizationReady(k, ApplySucceedReason, "kustomization was successfully applied");
    err := None;
  }

  /**
    One sync attempt. No workspace is opened when the artifact is missing or
    TempDir fails; otherwise the workspace is created, the stage commands
    run inside it, and it is removed whichever way the stages end.
   */
  method Sync(k: Kustomization, repo: GitRepository, host: Host)
    returns (synced: Kustomization, err: Option<string>, ghost effects: seq<Effect>)
    ensures synced == Report(k, Attempt(repo, host))
    ensures err == SyncError(Attempt(repo, host))
    ensures !WorkspaceCreated(repo, host) ==> effects == []
    ensures WorkspaceCreated(repo, host) ==>
      var dir := host.tempDir.dir;
      effects == Scoped(dir, StageCommands(k, repo.artifact.value.url, dir)[..StagesRun(Attempt(repo, host))])
    ensures WorkspaceCreated(repo, host) ==> ExecsInWorkspace(host.tempDir.dir, {}, effects)
    ensures Replay({}, effects) == {}
  {
    effects := [];
    if repo.artifact.None? || repo.artifact.value.url == "" {
      var e := "artifact not found in " + repo.meta.name;
      return KustomizationNotReady(k, ArtifactFailedReason, e), Some(e), effects;
    }

    // create tmp dir
    var tmpDir: string;
    match host.tempDir {
      case TempDirError(e) =>
        var e' := "tmp dir error: " + e;
        return KustomizationNotReady(k, StorageOperationFailedReason, e'), Some(e'), effects;
      case Created(d) =>
        tmpDir := d;
    }
    effects := [MakeTempDir(tmpDir)];

    ghost var ran: seq<string>;
    synced, err, ran := RunStages(k, repo.artifact.value.url, tmpDir, host);

    // the deferred os.RemoveAll(tmpDir), after whichever return the stages took
    effects := effects + Execs(ran) + [RemoveAll(tmpDir)];
    ScopedCleansUp({}, tmpDir, ran);
    assert effects == Scoped(tmpDir, ran);
  }

  // ---------------------------------------------------------------------
  // The reconcile loop

  /** What a client Get gives back. */
  datatype Fetched<T> = Got(obj: T) | NotFound(message: string) | Failed(message: string)

  /**
    The API server as the reconciler sees it: lookups by key, and the status
    update, which answers nil or an error (a conflict, say).
   */
  datatype Api = Api(
    kustomizations: NamespacedName -> Fetched<Kustomization>,
    repositories: NamespacedName -> Fetched<GitRepository>,
    updateStatus: Kustomization -> Option<string>)

  /** A request the reconciler makes to the API server. */
  datatype ApiCall =
    | GetKustomization(key: NamespacedName)
    | GetGitRepository(key: NamespacedName)
    | UpdateStatus(obj: Kustomization)

  /** ctrl.Result: requeue at once, or after `requeueAfter` (<= 0 means not). */
  datatype CtrlResult = CtrlResult(requeue: bool, requeueAfter: int)

  /** client.IgnoreNotFound: a not-found error becomes nil, any other error is kept. */
  function IgnoreNotFound<T>(f: Fetched<T>): Option<string>
  {
    if f.Failed? then Some(f.message) else None
  }

  /** The GitRepository a Kustomization follows lives in its own namespace. */
  function SourceKey(k: Kustomization): NamespacedName
  {
    NamespacedName(k.meta.namespace, k.spec.sourceRef)
  }

  /**
    One reconcile of the Kustomization `req`. A missing Kustomization is a
    no-op; a failed source lookup requeues with the error and writes no
    status; otherwise the status of the attempt is always written, and the
    result depends only on whether that write succeeded: requeue with its
    error, or requeue after the Kustomization's interval with no error.
   */
  method Reconcile(req: NamespacedName, api: Api, host: Host)
    returns (result: CtrlResult, err: Option<string>, ghost calls: seq<ApiCall>, ghost effects: seq<Effect>)
    // what the reconcile returns
    ensures api.kustomizations(req).NotFound? ==> result == CtrlResult(false, 0) && err == None
    ensures api.kustomizations(req).Failed? ==>
      result == CtrlResult(false, 0) && err == Some(api.kustomizations(req).message)
    ensures api.kustomizations(req).Got? ==>
      var k := api.kustomizations(req).obj;
      var source := api.repositories(SourceKey(k));
      (!source.Got? ==> result == CtrlResult(true, 0) && err == Some(source.message)) &&
      (source.Got? ==>
         var updateErr := api.updateStatus(Report(k, Attempt(source.obj, host)));
         (updateErr.Some? ==> result == CtrlResult(true, 0) && err == updateErr) &&
         (updateErr.None? ==> result == CtrlResult(false, k.spec.interval) && err == None))
    // what it asks of the API server and of the host
    ensures !api.kustomizations(req).Got? ==> calls == [GetKustomization(req)] && effects == []
    ensures api.kustomizations(req).Got? ==>
      var k := api.kustomizations(req).obj;
      var source := api.repositories(SourceKey(k));
      (!source.Got? ==> calls == [GetKustomization(req), GetGitRepository(SourceKey(k))] && effects == []) &&
      (source.Got? ==>
         calls == [GetKustomization(req), GetGitRepository(SourceKey(k)),
                   UpdateStatus(Report(k, Attempt(source.obj, host)))]) &&
      (source.Got? && !WorkspaceCreated(source.obj, host) ==> effects == []) &&
      (source.Got? && WorkspaceCreated(source.obj, host) ==>
         var dir := host.tempDir.dir;
         effects == Scoped(dir, StageCommands(k, source.obj.artifact.value.url, dir)[..StagesRun(Attempt(source.obj, host))]))
    ensures api.kustomizations(req).Got? ==>
      var source := api.repositories(SourceKey(api.kustomizations(req).obj));
      source.Got? && WorkspaceCreated(source.obj, host) ==>
        ExecsInWorkspace(host.tempDir.dir, {}, effects)
    ensures Replay({}, effects) == {}
  {
    calls, effects := [GetKustomization(req)], [];
    var fetched := api.kustomizations(req);
    if !fetched.Got? {
      return CtrlResult(false, 0), IgnoreNotFound(fetched), calls, effects;
    }
    var kustomization := fetched.obj;

    // get artifact source
    var repositoryName := SourceKey(kustomization);
    calls := calls + [GetGitRepository(repositoryName)];
    var repository := api.repositories(repositoryName);
    if !repository.Got? {
      return CtrlResult(true, 0), Some(repository.message), calls, effects;
    }

    // try git sync on a copy; its error is only logged
    var synced, syncErr;
    synced, syncErr, effects := Sync(kustomization, repository.obj, host);

    // update status
    calls := calls + [UpdateStatus(synced)];
    var updateErr := api.updateStatus(synced);
    if updateErr.Some? {
      return CtrlResult(true, 0), updateErr, calls, effects;
    }

    // requeue kustomization
    return CtrlResult(false, kustomization.spec.interval), None, calls, effects;
  }
}
