# Kustomization reconciler: a Dafny model

This project models the core of the Flux kustomize-controller (v1alpha1). The model has two parts.

- **The update-event filter** (`KustomizationSyncAtPredicate.Update`). It lets an update of a Kustomization trigger a reconcile only when the spec generation changed, or when the sync-at annotation appeared or changed value.
- **The reconcile loop** (`Reconcile` and `sync`). It loads the Kustomization and its GitRepository source. It runs one sync attempt on a copy: check the artifact, open a temporary workspace, fetch and unpack the artifact, run `kustomize build`, run `kubectl apply`. It writes the resulting Ready condition and requeues after the Kustomization's interval.

Files:

- `api.dfy` (module `KustomizeApi`): the API types the controller reads and writes, and the status constructors `KustomizationReady` / `KustomizationNotReady`. Each constructor sets the Ready condition (status, reason, message) and nothing else.
- `predicate.dfy` (module `KustomizationPredicate`): the update filter. The sync-at annotation key is defined outside the modelled files, so it is a parameter, and every property holds for any key.
- `workspace.dfy` (module `Workspace`): a ghost trace of the workspace effects (create the temporary directory, run a command, remove the directory). Replaying the trace gives the directories still on disk, counting a requested removal as done.
- `controller.dfy` (module `KustomizationController`): the three shell commands and the outcome of an attempt (`Attempt`). It also holds the status reporter (`ConditionFor`, `Report`), the error `sync` returns (`SyncError`), and the imperative methods `RunStages`, `Sync` and `Reconcile`.

External steps are not executed. A `Host` value gives the outcome of `ioutil.TempDir` and of each `/bin/sh -c` command: exited, or a non-zero exit with its combined output and error text. An `Api` value gives the answers of the API server: the two lookups by key, and the status update.

`Sync` and `Reconcile` are methods whose locals are reassigned stage by stage, with an early return per failure, as in the source. Each method's `ensures` ties its results to the specification functions. Two ghost traces record what the controller asked for:

- `effects`: the workspace effects and the commands, in order.
- `calls`: the API requests, in order.

The `defer os.RemoveAll(tmpDir)` is modelled by running the stages in `RunStages` (the code after the `defer`). `Sync` then appends the removal once `RunStages` has returned, whichever return it took.

Three points of the reported status that a reader might not expect:

- A failed temporary directory is reported with `StorageOperationFailedReason`, not with the fetch reason.
- A failed fetch is reported with `ArtifactFailedReason`, the same reason as a missing artifact. Only the message tells them apart.
- The status message of a failed stage holds only the exit error text, such as `kustomize build error: exit status 1`. The captured output of the step is not in the status. It goes into the error that `sync` returns, which `Reconcile` only logs. On a build failure it is also printed to standard output. `ConditionFor` states that the message ends with the exit error text, and `StatusOmitsStepOutput` states that the captured output does not affect it.

## Model

| member | source | states |
|---|---|---|
| KustomizationPredicate.Update | controllers/kustomization_predicate.go:30-52 | The filter is true exactly when both sides have metadata and either the generations differ or the sync-at key is on the new object and is absent from the old one or has a different value there. |
| KustomizationPredicate.MissingMetadataIgnored | controllers/kustomization_predicate.go:31-34 | An event with nil old or nil new metadata never triggers. |
| KustomizationPredicate.GenerationChangeTriggers | controllers/kustomization_predicate.go:35-38 | A generation change triggers, whatever the annotations hold. |
| KustomizationPredicate.SyncAtTriggersIff | controllers/kustomization_predicate.go:40-51 | With equal generations, the event triggers if the key is added. If the key is on both sides, it triggers if and only if the values differ. If the key is absent from the new object, it never triggers. |
| KustomizationPredicate.StatusOnlyWritesIgnored | controllers/kustomization_predicate.go:35-51 | An update that keeps the generation and the annotations, such as the controller's own status write, does not trigger. |
| Workspace.ExecsThenRemove | controllers/kustomization_controller.go:110-156 | Commands neither create nor remove workspaces, so each runs while the workspace `dir` is live. The final removal request drops `dir`. |
| Workspace.ScopedCleansUp | controllers/kustomization_controller.go:104-110 | Create, run commands, remove: this leaves the set of live workspaces as it was, and every command runs while its own directory `dir` exists. |
| KustomizationController.ApplyCommand | controllers/kustomization_controller.go:141-146 | The apply command carries `--prune -l <sel>` and the flag can be read back as `Prune`, if and only if `Prune` is non-empty. Otherwise it is the plain `kubectl apply -f <name>.yaml`. |
| KustomizationController.Attempt | controllers/kustomization_controller.go:99-156 | The checks run in order: artifact, temporary directory, fetch, build, apply. Each outcome holds exactly when every earlier step succeeded and its own step failed. Success needs all of them. A failed stage carries that stage's own output and error. A missing artifact carries the repository's name, a failed temporary directory carries TempDir's error, and a failed fetch carries the artifact URL. |
| KustomizationController.ConditionFor | controllers/kustomization_controller.go:99-165 | The condition is Ready exactly on success, with the fixed success message. Each reason is written for exactly one kind of outcome, except that `ArtifactFailedReason` covers both a missing artifact and a failed fetch. A missing artifact's message ends with the repository name. Every other failure's message ends with the error text of the failing step. |
| KustomizationController.SyncError | controllers/kustomization_controller.go:99-165 | The returned error is nil exactly on success. For a failed stage it ends with that stage's captured output. For a missing artifact or a failed temporary directory it is the status message. |
| KustomizationController.Report | controllers/kustomization_controller.go:99-165 | The reported object keeps its metadata and spec, and its Ready condition is the condition of the outcome. |
| KustomizationController.StatusOmitsStepOutput | controllers/kustomization_controller.go:117-156 | For a failed stage, the condition does not depend on the captured output. The returned error does: it differs exactly when the output differs. |
| KustomizationController.ReportOverwrites | controllers/kustomization_controller.go:161-165 | A new attempt's status replaces the old one. Nothing from an earlier outcome survives. |
| KustomizationController.RunStages | controllers/kustomization_controller.go:112-165 | Fetch, build and apply run in that order. The commands run are the first 1, 2 or 3 stage commands, up to the first failure. The result and error are those of the stage outcome. |
| KustomizationController.Sync | controllers/kustomization_controller.go:95-166 | The result and error are those of `Attempt`. With a missing artifact or a failed temporary directory, no effect happens at all. Otherwise the trace is: create the directory, run the stage commands up to the failure, remove the directory. The removal is requested on every path after the directory is created, so no workspace is left (counting the removal as done), and every command runs while the created directory exists. |
| KustomizationController.Reconcile | controllers/kustomization_controller.go:47-86 | A not-found Kustomization gives an empty result and nil error. Any other load error is returned as is. A failed source lookup (in the Kustomization's namespace, under its source ref) gives `Requeue: true` with the error and no status write. Otherwise exactly one status write of the attempt's result follows. A failed write gives `Requeue: true` with its error. A successful write gives `RequeueAfter` = the loaded object's interval (a signed duration, passed through unchanged) and nil error, whatever the sync outcome. The workspace trace is exactly that of `Sync`: empty when the source loads but its artifact is missing or the temporary directory fails, and empty whenever no source was loaded. The removal is requested on every path after creation, and every command runs while the created directory exists. |

## Left out

- Running `/bin/sh`, `curl`, `tar`, `kustomize` and `kubectl`: each command's outcome is an input (exit status, combined output, error text). What the commands do to the files and to the cluster is not modelled.
- The API client (`r.Get`, `r.Client.Get`, `r.Status().Update`): their answers are inputs. `client.IgnoreNotFound` is modelled as "not found becomes nil".
- The 15-second `context.WithTimeout` and cancellation: timing, not logic. A step that times out is an `ExitError` like any other failure.
- Logging (`log.Error`, `log.Info`, `fmt.Println`): output only. The error `sync` returns reaches only the log, so `Reconcile` drops it.
- `SetupWithManager`: controller-manager wiring.
- The `Create`, `Delete` and `Generic` filters inherited from `predicate.Funcs`: their definitions are not part of this model.
- The string values of the reason constants and of the sync-at annotation key, and the bodies of `KustomizationReady` / `KustomizationNotReady`: they are defined outside the modelled files. Reasons are a datatype, the key is a parameter, and the two constructors set only the Ready condition. The condition's transition time (a clock reading) is not modelled.
- Failure of the workspace removal: the source ignores the error that the deferred `os.RemoveAll(tmpDir)` returns. The model treats the removal as succeeding, so "no workspace is left" in `Workspace.ScopedCleansUp`, `KustomizationController.Sync` and `KustomizationController.Reconcile` means that the removal was requested. It does not mean the directory is gone if the removal fails.
- The name and uniqueness of the temporary directory: `ioutil.TempDir` chooses them, so the directory is an input.
- Go's `%w` error wrapping: an error is modelled by its text, which is all the controller uses.
