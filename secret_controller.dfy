/**
 * The Secret finalizer reconciler (pkg/controller/managedresources/secret_controller.go).
 *
 * A Secret referenced by some ManagedResource this controller instance is
 * responsible for carries the controller's finalizer; one that is not
 * referenced does not. Reconcile recomputes that decision from a fresh read
 * and adds or removes the finalizer when the Secret disagrees with it.
 *
 * The API server is an abstract Store. Transport failures of Get and List
 * are parameters, and so is the outcome of the single TryUpdate step. The
 * class filter is a predicate and the finalizer name a string, both given
 * to the reconciler when it is built.
 */
module SecretController {
  import opened Wrappers

  datatype NamespacedName = NamespacedName(namespace: string, name: string)

  datatype SecretRef = SecretRef(name: string)

  /** A ManagedResource as this controller sees it: read-only. */
  datatype ManagedResource = ManagedResource(key: NamespacedName, resourceClass: string, secretRefs: seq<SecretRef>)

  /** A Secret; `finalizers` is the only field the reconciler ever changes. */
  datatype Secret = Secret(key: NamespacedName, finalizers: seq<string>, resourceVersion: nat,
                           labels: map<string, string>, data: map<string, seq<bv8>>)

  /** The zero value Go starts from before a Get fills the object in. */
  const EmptySecret := Secret(NamespacedName("", ""), [], 0, map[], map[])

  /** How a call against the store ended. */
  datatype Outcome = Ok | NotFound | OtherError

  /** The calls a reconcile issues, in the order issued. */
  datatype Call =
    | GetSecret(key: NamespacedName)
    | ListManagedResources(namespace: string)
    | UpdateSecret(key: NamespacedName)

  /** reconcile.Result: `requeueAfter` in seconds, 0 for none. */
  datatype Result = Result(requeueAfter: nat)

  /** The error values Reconcile returns. */
  datatype ReconcileError = CouldNotFetchSecret | CouldNotFetchManagedResources

  /** Delay after a failed finalizer update, instead of the framework's exponential backoff. */
  const UpdateFailureRequeueAfter: nat := 5

  // ---------------------------------------------------------------------
  // Which Secrets are referenced

  /** Some secret ref of `resource` names the Secret. */
  predicate RefersTo(resource: ManagedResource, secretName: string)
  {
    exists j :: 0 <= j < |resource.secretRefs| && resource.secretRefs[j].name == secretName
  }

  /** Some listed resource this controller is responsible for refers to the Secret. */
  predicate IsReferenced(items: seq<ManagedResource>, secretName: string, responsible: ManagedResource -> bool)
  {
    exists i :: 0 <= i < |items| && RefersTo(items[i], secretName) && responsible(items[i])
  }

  /** The ManagedResources of one namespace, in store order. */
  function InNamespace(resources: seq<ManagedResource>, namespace: string): (r: seq<ManagedResource>)
    ensures forall m :: m in r <==> m in resources && m.key.namespace == namespace
  {
    if resources == [] then []
    else
      var tail := InNamespace(resources[1..], namespace);
      if resources[0].key.namespace == namespace then [resources[0]] + tail else tail
  }

  /**
   * The nested loop of Reconcile: sets the flag as soon as some ref of a resource
   * the filter accepts names the Secret, and leaves that resource's remaining refs.
   */
  method SecretIsReferenced(items: seq<ManagedResource>, secretName: string, responsible: ManagedResource -> bool)
    returns (referenced: bool)
    ensures referenced == IsReferenced(items, secretName, responsible)
  {
    referenced := false;
    var i := 0;
    while i < |items|
      invariant 0 <= i <= |items|
      invariant referenced == IsReferenced(items[..i], secretName, responsible)
    {
      var resource := items[i];
      var j := 0;
      while j < |resource.secretRefs|
        invariant 0 <= j <= |resource.secretRefs|
        invariant referenced == (IsReferenced(items[..i], secretName, responsible) ||
                                 (responsible(resource) && exists k :: 0 <= k < j && resource.secretRefs[k].name == secretName))
      {
        if resource.secretRefs[j].name == secretName && responsible(resource) {
          referenced := true;
          break;
        }
        j := j + 1;
      }
      assert items[..i + 1][i] == resource;
      assert referenced == (IsReferenced(items[..i], secretName, responsible) ||
                            (RefersTo(resource, secretName) && responsible(resource)));
      assert forall k :: 0 <= k < i ==> items[..i + 1][k] == items[..i][k];
      i := i + 1;
    }
    assert items[..i] == items;
  }

  // ---------------------------------------------------------------------
  // The finalizer decision and the mutation

  datatype FinalizerAction = AddFinalizer | RemoveFinalizer | KeepFinalizers

  /** Add iff referenced and absent, remove iff unreferenced and present, otherwise no write. */
  function Decide(referenced: bool, finalizers: seq<string>, finalizer: string): (a: FinalizerAction)
    ensures a == AddFinalizer <==> referenced && finalizer !in finalizers
    ensures a == RemoveFinalizer <==> !referenced && finalizer in finalizers
    ensures a == KeepFinalizers <==> (finalizer in finalizers) == referenced
  {
    if referenced && finalizer !in finalizers then AddFinalizer
    else if !referenced && finalizer in finalizers then RemoveFinalizer
    else KeepFinalizers
  }

  predicate NoDuplicates(s: seq<string>)
  {
    forall i, j :: 0 <= i < j < |s| ==> s[i] != s[j]
  }

  /** The elements of `s` once each, in order of first occurrence. */
  function Dedup(s: seq<string>): (r: seq<string>)
    ensures NoDuplicates(r)
    ensures forall x :: x in r <==> x in s
    decreases |s|
  {
    if s == [] then []
    else
      var init := Dedup(s[..|s| - 1]);
      var last := s[|s| - 1];
      assert forall x :: x in s <==> x in s[..|s| - 1] || x == last by {
        assert s == s[..|s| - 1] + [last];
      }
      if last in init then init else init + [last]
  }

  /** The elements of `s` other than `x`. */
  function Without(s: seq<string>, x: string): (r: seq<string>)
    ensures forall y :: y in r <==> y in s && y != x
  {
    if s == [] then []
    else if s[0] == x then Without(s[1..], x)
    else [s[0]] + Without(s[1..], x)
  }

  /**
   * The finalizer list the update closure writes back: the old list as a set,
   * with the controller's finalizer inserted or deleted. Every other finalizer
   * keeps its membership, and duplicates collapse.
   */
  function MutateFinalizers(finalizers: seq<string>, finalizer: string, action: FinalizerAction): (r: seq<string>)
    ensures NoDuplicates(r)
    ensures forall g :: g != finalizer ==> (g in r <==> g in finalizers)
    ensures finalizer in r <==> match action
                                case AddFinalizer => true
                                case RemoveFinalizer => false
                                case KeepFinalizers => finalizer in finalizers
  {
    match action
    case AddFinalizer => Dedup(finalizers + [finalizer])
    case RemoveFinalizer => Dedup(Without(finalizers, finalizer))
    case KeepFinalizers => Dedup(finalizers)
  }

  /** The update closure applied to a Secret: only its finalizer list changes. */
  function MutateSecret(secret: Secret, finalizer: string, action: FinalizerAction): (r: Secret)
    ensures r == secret.(finalizers := r.finalizers)
    ensures r.finalizers == MutateFinalizers(secret.finalizers, finalizer, action)
  {
    secret.(finalizers := MutateFinalizers(secret.finalizers, finalizer, action))
  }

  /**
   * What one reconcile converges to: once the decided action has been applied,
   * the finalizer is present exactly when the Secret is referenced, and a
   * second decision on the result is to write nothing.
   */
  lemma DecisionConverges(referenced: bool, finalizers: seq<string>, finalizer: string)
    ensures var after := MutateFinalizers(finalizers, finalizer, Decide(referenced, finalizers, finalizer));
            && (finalizer in after <==> referenced)
            && Decide(referenced, after, finalizer) == KeepFinalizers
  {
  }

  // ---------------------------------------------------------------------
  // The store

  /** The API server as the reconciler's client sees it. */
  class Store {
    var secrets: map<NamespacedName, Secret>
    var resources: seq<ManagedResource>
    var calls: seq<Call>

    /** Each Secret is stored under its own namespaced name. */
    ghost predicate Valid()
      reads this
    {
      forall k :: k in secrets ==> secrets[k].key == k
    }

    constructor (secrets: map<NamespacedName, Secret>, resources: seq<ManagedResource>)
      requires forall k :: k in secrets ==> secrets[k].key == k
      ensures Valid()
      ensures this.secrets == secrets && this.resources == resources && calls == []
    {
      this.secrets := secrets;
      this.resources := resources;
      calls := [];
    }

    /** Get a Secret; `fails` injects a transport error. */
    method Get(key: NamespacedName, fails: bool) returns (outcome: Outcome, secret: Secret)
      modifies this`calls
      ensures calls == old(calls) + [GetSecret(key)]
      ensures outcome == if fails then OtherError else if key in secrets then Ok else NotFound
      ensures secret == if outcome == Ok then secrets[key] else EmptySecret
    {
      calls := calls + [GetSecret(key)];
      if fails {
        outcome, secret := OtherError, EmptySecret;
      } else if key in secrets {
        outcome, secret := Ok, secrets[key];
      } else {
        outcome, secret := NotFound, EmptySecret;
      }
    }

    /** List the ManagedResources of a namespace; `fails` injects a transport error. */
    method List(namespace: string, fails: bool) returns (outcome: Outcome, items: seq<ManagedResource>)
      modifies this`calls
      ensures calls == old(calls) + [ListManagedResources(namespace)]
      ensures outcome == if fails then OtherError else Ok
      ensures items == if fails then [] else InNamespace(resources, namespace)
    {
      calls := calls + [ListManagedResources(namespace)];
      if fails {
        outcome, items := OtherError, [];
      } else {
        outcome, items := Ok, InNamespace(resources, namespace);
      }
    }

    /**
     * One TryUpdate step: apply `mutate` to the object and write it back. The
     * outcome of the write is `result`, except that a Secret no longer stored
     * cannot be written and reads as NotFound.
     */
    method TryUpdate(secret: Secret, mutate: Secret -> Secret, result: Outcome) returns (outcome: Outcome)
      requires Valid()
      requires mutate(secret).key == secret.key
      modifies this`secrets, this`calls
      ensures Valid()
      ensures calls == old(calls) + [UpdateSecret(secret.key)]
      ensures outcome == if result == Ok && secret.key !in old(secrets) then NotFound else result
      ensures secrets == if outcome == Ok then old(secrets)[secret.key := mutate(secret)] else old(secrets)
    {
      calls := calls + [UpdateSecret(secret.key)];
      outcome := if result == Ok && secret.key !in secrets then NotFound else result;
      if outcome == Ok {
        secrets := secrets[secret.key := mutate(secret)];
      }
    }
  }

  // ---------------------------------------------------------------------
  // The reconciler

  class SecretReconciler {
    const client: Store
    /** ClassFilter.Responsible of the configured class. */
    const responsible: ManagedResource -> bool
    /** ClassFilter.FinalizerName of the configured class. */
    const finalizerName: string

    constructor (client: Store, responsible: ManagedResource -> bool, finalizerName: string)
      ensures this.client == client && this.responsible == responsible && this.finalizerName == finalizerName
    {
      this.client := client;
      this.responsible := responsible;
      this.finalizerName := finalizerName;
    }

    /** Whether the stored Secret is referenced by a resource of its namespace this instance owns. */
    ghost function Referenced(resources: seq<ManagedResource>, secret: Secret): (referenced: bool)
      reads this
    {
      IsReferenced(InNamespace(resources, secret.key.namespace), secret.key.name, responsible)
    }

    /**
     * Reconcile the Secret `req`. `getFails` and `listFails` inject transport
     * errors into Get and List, `updateResult` is the outcome of TryUpdate.
     */
    method Reconcile(req: NamespacedName, getFails: bool, listFails: bool, updateResult: Outcome)
      returns (result: Result, err: Option<ReconcileError>)
      requires client.Valid()
      modifies client
      ensures client.Valid()
      ensures client.resources == old(client.resources)
      // A failed Get is an error; nothing else is called.
      ensures getFails ==>
                && result == Result(0) && err == Some(CouldNotFetchSecret)
                && client.calls == old(client.calls) + [GetSecret(req)]
                && client.secrets == old(client.secrets)
      // A Secret that is gone needs nothing: no error, no List, no write.
      ensures !getFails && req !in old(client.secrets) ==>
                && result == Result(0) && err == None
                && client.calls == old(client.calls) + [GetSecret(req)]
                && client.secrets == old(client.secrets)
      // A failed List is an error and no update is attempted.
      ensures !getFails && req in old(client.secrets) && listFails ==>
                && result == Result(0) && err == Some(CouldNotFetchManagedResources)
                && client.calls == old(client.calls) + [GetSecret(req), ListManagedResources(req.namespace)]
                && client.secrets == old(client.secrets)
      // Otherwise the decision is taken on the fetched Secret and the listed resources.
      ensures !getFails && req in old(client.secrets) && !listFails ==>
                var secret := old(client.secrets)[req];
                var action := Decide(Referenced(old(client.resources), secret), secret.finalizers, finalizerName);
                && err == None
                && (action == KeepFinalizers ==>
                      && result == Result(0)
                      && client.calls == old(client.calls) + [GetSecret(req), ListManagedResources(req.namespace)]
                      && client.secrets == old(client.secrets))
                && (action != KeepFinalizers ==>
                      && client.calls == old(client.calls) + [GetSecret(req), ListManagedResources(req.namespace), UpdateSecret(req)]
                      && client.secrets == (if updateResult == Ok
                                            then old(client.secrets)[req := MutateSecret(secret, finalizerName, action)]
                                            else old(client.secrets))
                      && result == (if updateResult == OtherError then Result(UpdateFailureRequeueAfter) else Result(0)))
      // When nothing failed the Secret's finalizer membership equals its referenced state.
      ensures !getFails && req in old(client.secrets) && !listFails && updateResult == Ok ==>
                && req in client.secrets
                && (finalizerName in client.secrets[req].finalizers <==> Referenced(old(client.resources), old(client.secrets)[req]))
    {
      var outcome, secret := client.Get(req, getFails);
      if outcome != Ok {
        if outcome == NotFound {
          return Result(0), None;
        }
        return Result(0), Some(CouldNotFetchSecret);
      }

      var listOutcome, items := client.List(secret.key.namespace, listFails);
      if listOutcome != Ok {
        return Result(0), Some(CouldNotFetchManagedResources);
      }

      var secretIsReferenced := SecretIsReferenced(items, secret.key.name, responsible);
      assert secret == old(client.secrets)[req] && secret.key == req;
      assert secretIsReferenced == Referenced(old(client.resources), secret);

      var addFinalizer, removeFinalizer := false, false;
      if secretIsReferenced && finalizerName !in secret.finalizers {
        addFinalizer := true;
      } else if !secretIsReferenced && finalizerName in secret.finalizers {
        removeFinalizer := true;
      }

      if addFinalizer || removeFinalizer {
        var action := if addFinalizer then AddFinalizer else RemoveFinalizer;
        assert action == Decide(secretIsReferenced, secret.finalizers, finalizerName);
        var finalizer := finalizerName;
        var updateOutcome := client.TryUpdate(secret, s => MutateSecret(s, finalizer, action), updateResult);
        if updateOutcome == OtherError {
          return Result(UpdateFailureRequeueAfter), None;
        }
      }
      return Result(0), None;
    }
  }

  /**
   * Idempotence: when a reconcile without faults has run, the next one finds
   * the Secret converged and issues no update.
   */
  method ReconcileTwice(reconciler: SecretReconciler, req: NamespacedName)
    returns (firstRound: seq<Call>, secondRound: seq<Call>)
    requires reconciler.client.Valid()
    modifies reconciler.client
    ensures reconciler.client.Valid()
    ensures reconciler.client.calls == old(reconciler.client.calls) + firstRound + secondRound
    ensures secondRound == if req in old(reconciler.client.secrets)
                           then [GetSecret(req), ListManagedResources(req.namespace)]
                           else [GetSecret(req)]
    ensures forall c :: c in secondRound ==> !c.UpdateSecret?
  {
    var start := reconciler.client.calls;
    var _, _ := reconciler.Reconcile(req, false, false, Ok);
    var middle := reconciler.client.calls;
    firstRound := middle[|start|..];
    var _, _ := reconciler.Reconcile(req, false, false, Ok);
    secondRound := reconciler.client.calls[|middle|..];
    assert middle == start + firstRound;
    assert reconciler.client.calls == middle + secondRound;
  }
}
