# Health checks and Secret finalizer reconciliation of the ManagedResource controller

This project models two independent pieces of the ManagedResource controller of
gardener-resource-manager and proves properties of them in Dafny.

- **`Health`** (`health.dfy`) — the stateless health checks for
  CustomResourceDefinitions, Jobs, Pods, ReplicaSets and ReplicationControllers.
  Each check is a total function from the object's status to a `Verdict`.
  A verdict is `Healthy` (Go's nil error) or the structured payload of the Go
  error: `ConditionMissing`, `InvalidStatus`, `InvalidPhase`, `GenerationOutdated`
  or `NotAvailable`. `ErrorText` renders a payload in the code's wording.
  Condition lookup is a recursive first-match search.
- **`SecretController`** (`secret_controller.dfy`) — `SecretReconciler.Reconcile`.
  It fetches a Secret and lists the ManagedResources of its namespace. It then
  decides whether a resource this controller instance is responsible for refers
  to the Secret. Finally it adds or removes the controller's finalizer so that
  the finalizer is present exactly when the Secret is referenced.
  The API server is a `Store` class. It holds a map of Secrets, a sequence of
  ManagedResources and a log of the calls made (`Get`, `List`, `TryUpdate`).
  The class filter's `Responsible` is a predicate given to the reconciler.
  `FinalizerName()` is a string given to it.
- `wrappers.dfy` holds the `Option` type that stands for Go's nil pointers and nil errors.

Inputs the model cannot compute are parameters:
- a transport error on `Get` or `List` (`getFails`, `listFails`);
- the outcome of the single `TryUpdate` step (`updateResult`: `Ok`, `NotFound` or `OtherError`).

Conventions and places where the model reads the code rather than its comments:
- Condition types, statuses and pod phases are strings, as in the Go API types. Any value
  other than the expected one is a mismatch.
- `ObservedGeneration` and `Generation` are `int64`, replica counts `int32` (newtypes).
  The checks only compare them, so no wrap-around arises.
- The doc comments of `CheckReplicaSet` and `CheckReplicationController` say "equal to the
  number of replicas". The code accepts any `readyReplicas >= replicas`; the model follows
  the code.
- `getCustomResourceDefinitionCondition` and `getJobCondition` are the same loop over two
  Go types. The model has one `Condition` datatype and one `GetCondition`.
- The update closure leaves the finalizers as a set; the model writes them back in
  first-occurrence order (`Dedup`).

## Model

| member | source | states |
|---|---|---|
| `Health.GetCondition` | pkg/controller/managedresources/health/health.go:130-137 | None iff no condition has the type; otherwise the result is the condition at the first index with that type |
| `Health.GetConditionIgnoresSuffix` | pkg/controller/managedresources/health/health.go:130-137 | once a list has a match, appending more conditions (later duplicates included) does not change the lookup |
| `Health.GetConditionSkipsOtherTypes` | pkg/controller/managedresources/health/health.go:139-146 | conditions of other types before the first match do not change the lookup |
| `Health.FirstOfTypeDecides` | pkg/controller/managedresources/health/health.go:139-146 | the lookup returns the first condition of the type, whatever follows it |
| `Health.CheckConditionState` | pkg/controller/managedresources/health/health.go:152-157 | no error iff expected equals actual; otherwise the error carries type, actual, expected, reason and message |
| `Health.RequiredConditionVerdict` | pkg/controller/managedresources/health/health.go:39-47 | one loop step of the True checks: healthy iff the condition is present with status True; absent gives "condition missing" for that type; present with another status gives the invalid-status error with type, actual, expected True, reason and message |
| `Health.OptionalConditionVerdict` | pkg/controller/managedresources/health/health.go:50-59 | one loop step of the False checks: healthy iff the condition is absent or False; present with another status gives the invalid-status error with type, actual, expected False, reason and message |
| `Health.FirstFailure` | pkg/controller/managedresources/health/health.go:39-59 | the two loops of the CRD check: healthy iff every listed type passes; otherwise the verdict is that of the first failing type in list order, and every earlier type passed |
| `Health.CheckCustomResourceDefinition` | pkg/controller/managedresources/health/health.go:35-62 | healthy iff NamesAccepted and Established are True and Terminating is absent or False; the order is NamesAccepted, Established, Terminating, and the first missing or mismatched one gives the exact error |
| `Health.CrdVerdictDependsOnLookupsOnly` | pkg/controller/managedresources/health/health.go:38-62 | two condition lists whose first NamesAccepted, Established and Terminating conditions agree get the same verdict |
| `Health.CrdIgnoresUnrelatedConditions` | pkg/controller/managedresources/health/health.go:130-137 | conditions of other types placed before the list do not change the CRD verdict |
| `Health.CrdHealthyHasRequiredConditions` | pkg/controller/managedresources/health/health.go:35-37 | a healthy CRD has first NamesAccepted and Established conditions with status True, and its first Terminating condition, if any, is False |
| `Health.CheckJob` | pkg/controller/managedresources/health/health.go:64-76 | healthy iff the Failed condition is absent or exactly False; otherwise the invalid-status error with expected False |
| `Health.JobFirstFailedConditionDecides` | pkg/controller/managedresources/health/health.go:64-76 | the first Failed condition decides the Job verdict; True or Unknown gives the invalid-status error with that condition's fields |
| `Health.CheckPod` | pkg/controller/managedresources/health/health.go:78-96 | healthy iff the phase is Running or Succeeded; any other phase gives an error carrying that phase |
| `Health.CheckReplicas` | pkg/controller/managedresources/health/health.go:101-111 | an outdated observed generation is reported first; with a current generation, healthy iff replicas is unset or ready >= replicas, else "does not have minimum availability" for the kind |
| `Health.CheckReplicaSet` | pkg/controller/managedresources/health/health.go:98-112 | the same policy for a ReplicaSet, with kind name "ReplicaSet" |
| `Health.CheckReplicationController` | pkg/controller/managedresources/health/health.go:114-128 | the same policy for a ReplicationController, with kind name "ReplicationController" |
| `Health.NatToDecimal` | pkg/controller/managedresources/health/health.go:103 | the %d rendering of a natural number is a non-empty digit string with no leading zero |
| `Health.IntToDecimal` | pkg/controller/managedresources/health/health.go:119 | the %d rendering of an int64 is non-empty |
| `Health.ParseNatInvertsNatToDecimal` | pkg/controller/managedresources/health/health.go:103 | parsing the rendered digits gives back the number |
| `Health.ParseIntInvertsIntToDecimal` | pkg/controller/managedresources/health/health.go:119 | parsing the rendered generation gives back the value, so the outdated-generation text loses neither count |
| `Health.ErrorText` | pkg/controller/managedresources/health/health.go:148-157 | every unhealthy verdict has a non-empty error text, in the formats at lines 94-95, 103, 108, 119, 124, 149 and 154 |
| `SecretController.InNamespace` | pkg/controller/managedresources/secret_controller.go:76 | the listed resources are exactly those of the Secret's namespace |
| `SecretController.SecretIsReferenced` | pkg/controller/managedresources/secret_controller.go:80-90 | the nested loop's flag is true iff some listed resource has a secret ref naming the Secret and the class filter is responsible for it |
| `SecretController.Decide` | pkg/controller/managedresources/secret_controller.go:92-104 | add iff referenced and the finalizer is absent; remove iff unreferenced and present; no write iff membership already equals the referenced state |
| `SecretController.Dedup` | pkg/controller/managedresources/secret_controller.go:107-113 | the finalizer list as a set: the same members, no duplicates |
| `SecretController.Without` | pkg/controller/managedresources/secret_controller.go:111 | deleting the finalizer keeps exactly the other members |
| `SecretController.MutateFinalizers` | pkg/controller/managedresources/secret_controller.go:106-114 | after add the finalizer is present, after remove it is absent; every other finalizer (another class's included) keeps its membership; no duplicates remain |
| `SecretController.MutateSecret` | pkg/controller/managedresources/secret_controller.go:106-114 | the closure changes the Secret's finalizer list and no other field |
| `SecretController.DecisionConverges` | pkg/controller/managedresources/secret_controller.go:92-114 | applying the decided action makes membership equal the referenced state, and the next decision is to write nothing |
| `SecretController.Store.Get` | pkg/controller/managedresources/secret_controller.go:67 | Get logs one call and returns the stored Secret, NotFound when there is none, or the injected error |
| `SecretController.Store.List` | pkg/controller/managedresources/secret_controller.go:76 | List logs one call and returns the namespace's resources or the injected error |
| `SecretController.Store.TryUpdate` | pkg/controller/managedresources/secret_controller.go:106-115 | one update step: on success the store holds the mutated object, on failure nothing is written; a Secret that is gone gives NotFound |
| `SecretController.SecretReconciler.constructor` | pkg/controller/managedresources/secret_controller.go:55-60 | the reconciler holds the client, the class filter's predicate and its finalizer name |
| `SecretController.SecretReconciler.Reconcile` | pkg/controller/managedresources/secret_controller.go:63-123 | NotFound on Get: empty result, no error, no List, no write; other Get errors and List errors: an error and no update; otherwise exactly the decided write; an OtherError update gives RequeueAfter 5s with no error, NotFound or success an empty result; after success finalizer membership equals the referenced state and only the finalizers changed |
| `SecretController.ReconcileTwice` | pkg/controller/managedresources/secret_controller.go:92-105 | after a reconcile without faults, the second reconcile issues exactly Get and List (only Get if the Secret is gone) and no update call |

## Left out

- The controller-runtime client transport, `context` handling and the `InjectClient` / `InjectStopChannel` wiring (secret_controller.go:42-52). They are framework plumbing; the store and the fault parameters stand for them.
- Logging with `logr`: it has no effect on behaviour.
- The retries inside `utils.TryUpdate` (`retry.DefaultBackoff`, conflict detection, re-fetching the Secret). That code is not part of this model; the update is one step whose outcome is a parameter.
- `Store.TryUpdate`: does not bump the Secret's resource version on a write, because the store's concurrency token handling is not part of this model.
- `ClassFilter.Responsible` and `ClassFilter.FinalizerName`: their code is not part of this model, so they are a predicate and a string given to the reconciler.
- The cause carried by the "could not fetch Secret" and "could not fetch ManagedResources" errors: `ReconcileError` names which call failed only.
- The `Requeue` flag of `reconcile.Result`: Reconcile never sets it.
- `MutateFinalizers`: does not model the order `UnsortedList()` returns; only membership and the absence of duplicates are stated.
- `ErrorText`: the contract states only that the text is non-empty; the wording itself is the function's body. Go's escaping inside `%q` is not reproduced.
- Condition timestamps and the other fields of the workload objects: no check reads them.

