/**
 * Health checks for the workload objects a ManagedResource deploys
 * (pkg/controller/managedresources/health/health.go).
 *
 * Each check is a total function from an object's status to a Verdict:
 * Healthy, or the structured payload of the Go error value. ErrorText
 * renders that payload in the wording the Go code formats.
 */
module Health {
  import opened Wrappers

  newtype int32 = x: int | -0x8000_0000 <= x < 0x8000_0000
  newtype int64 = x: int | -0x8000_0000_0000_0000 <= x < 0x8000_0000_0000_0000

  // Condition statuses of the Kubernetes core API.
  const ConditionTrue := "True"
  const ConditionFalse := "False"
  const ConditionUnknown := "Unknown"

  // CustomResourceDefinition condition types.
  const NamesAccepted := "NamesAccepted"
  const Established := "Established"
  const Terminating := "Terminating"

  /** Conditions that must be present with status True, checked in this order. */
  const TrueCrdConditionTypes: seq<string> := [NamesAccepted, Established]
  /** Conditions that may be absent but otherwise must have status False. */
  const FalseOptionalCrdConditionTypes: seq<string> := [Terminating]

  // The Job condition type the Job check looks at.
  const JobFailed := "Failed"

  const PodRunning := "Running"
  const PodSucceeded := "Succeeded"
  const HealthyPodPhases: seq<string> := [PodRunning, PodSucceeded]

  /** A status condition as CRDs and Jobs carry it (timestamps left out). */
  datatype Condition = Condition(condType: string, status: string, reason: string, message: string)

  datatype CustomResourceDefinition = CustomResourceDefinition(conditions: seq<Condition>)
  datatype Job = Job(conditions: seq<Condition>)
  datatype Pod = Pod(phase: string)
  /** `replicas` is `spec.replicas`, which may be unset. */
  datatype ReplicaSet = ReplicaSet(generation: int64, replicas: Option<int32>,
                                   observedGeneration: int64, readyReplicas: int32)
  datatype ReplicationController = ReplicationController(generation: int64, replicas: Option<int32>,
                                                         observedGeneration: int64, readyReplicas: int32)

  /** The outcome of a check: Healthy (a nil error) or what the error reports. */
  datatype Verdict =
    | Healthy
    | ConditionMissing(condType: string)
    | InvalidStatus(condType: string, actual: string, expected: string, reason: string, message: string)
    | InvalidPhase(phase: string)
    | GenerationOutdated(observed: int64, generation: int64)
    | NotAvailable(kind: string)

  // ---------------------------------------------------------------------
  // Condition lookup

  /** Index i holds the first condition of the given type. */
  ghost predicate FirstMatch(conditions: seq<Condition>, condType: string, i: int)
  {
    && 0 <= i < |conditions|
    && conditions[i].condType == condType
    && forall j :: 0 <= j < i ==> conditions[j].condType != condType
  }

  /** The first condition of the given type, or None when there is none. */
  function GetCondition(conditions: seq<Condition>, condType: string): (r: Option<Condition>)
    ensures r.None? <==> forall j :: 0 <= j < |conditions| ==> conditions[j].condType != condType
    ensures r.Some? ==> exists i :: FirstMatch(conditions, condType, i) && r.value == conditions[i]
  {
    if conditions == [] then None
    else if conditions[0].condType == condType then
      assert FirstMatch(conditions, condType, 0);
      Some(conditions[0])
    else
      var r := GetCondition(conditions[1..], condType);
      assert r.Some? ==> exists i :: FirstMatch(conditions, condType, i) && r.value == conditions[i] by {
        if r.Some? {
          var i :| FirstMatch(conditions[1..], condType, i) && r.value == conditions[1..][i];
          assert FirstMatch(conditions, condType, i + 1);
        }
      }
      r
  }

  /** Conditions after a match are never looked at: later duplicates are ignored. */
  lemma {:induction false} GetConditionIgnoresSuffix(conditions: seq<Condition>, rest: seq<Condition>, condType: string)
    requires GetCondition(conditions, condType).Some?
    ensures GetCondition(conditions + rest, condType) == GetCondition(conditions, condType)
  {
    assert conditions != [];
    if conditions[0].condType != condType {
      assert (conditions + rest)[1..] == conditions[1..] + rest;
      GetConditionIgnoresSuffix(conditions[1..], rest, condType);
    }
  }

  /** Conditions of other types before the first match do not change the lookup. */
  lemma {:induction false} GetConditionSkipsOtherTypes(prefix: seq<Condition>, conditions: seq<Condition>, condType: string)
    requires forall j :: 0 <= j < |prefix| ==> prefix[j].condType != condType
    ensures GetCondition(prefix + conditions, condType) == GetCondition(conditions, condType)
  {
    if prefix != [] {
      var whole := prefix + conditions;
      assert whole[0] == prefix[0];
      assert whole[1..] == prefix[1..] + conditions;
      assert GetCondition(whole, condType) == GetCondition(whole[1..], condType);
      GetConditionSkipsOtherTypes(prefix[1..], conditions, condType);
    } else {
      assert prefix + conditions == conditions;
    }
  }

  /** The lookup result is determined by the first condition of that type. */
  lemma FirstOfTypeDecides(prefix: seq<Condition>, c: Condition, rest: seq<Condition>)
    requires forall j :: 0 <= j < |prefix| ==> prefix[j].condType != c.condType
    ensures GetCondition(prefix + [c] + rest, c.condType) == Some(c)
  {
    assert prefix + [c] + rest == prefix + ([c] + rest);
    GetConditionSkipsOtherTypes(prefix, [c] + rest, c.condType);
  }

  /** The condition of the given type is present and has the given status. */
  predicate HasStatus(conditions: seq<Condition>, condType: string, status: string)
  {
    var c := GetCondition(conditions, condType);
    c.Some? && c.value.status == status
  }

  /** The condition of the given type is absent or has the given status. */
  predicate AbsentOrHasStatus(conditions: seq<Condition>, condType: string, status: string)
  {
    var c := GetCondition(conditions, condType);
    c.None? || c.value.status == status
  }

  // ---------------------------------------------------------------------
  // Condition state

  /** No error iff the actual status is the expected one; otherwise all five fields are reported. */
  function CheckConditionState(condType: string, expected: string, actual: string,
                               reason: string, message: string): (v: Verdict)
    ensures v.Healthy? <==> expected == actual
    ensures !v.Healthy? ==> v == InvalidStatus(condType, actual, expected, reason, message)
  {
    if expected != actual then InvalidStatus(condType, actual, expected, reason, message) else Healthy
  }

  /** The verdict one required condition type contributes. */
  function RequiredConditionVerdict(conditions: seq<Condition>, condType: string): (v: Verdict)
    ensures v.Healthy? <==> HasStatus(conditions, condType, ConditionTrue)
    ensures GetCondition(conditions, condType).None? ==> v == ConditionMissing(condType)
    ensures var c := GetCondition(conditions, condType);
            c.Some? && c.value.status != ConditionTrue ==>
              v == InvalidStatus(condType, c.value.status, ConditionTrue, c.value.reason, c.value.message)
  {
    match GetCondition(conditions, condType)
    case None => ConditionMissing(condType)
    case Some(c) => CheckConditionState(condType, ConditionTrue, c.status, c.reason, c.message)
  }

  /** The verdict one optional condition type contributes. */
  function OptionalConditionVerdict(conditions: seq<Condition>, condType: string): (v: Verdict)
    ensures v.Healthy? <==> AbsentOrHasStatus(conditions, condType, ConditionFalse)
    ensures var c := GetCondition(conditions, condType);
            c.Some? && c.value.status != ConditionFalse ==>
              v == InvalidStatus(condType, c.value.status, ConditionFalse, c.value.reason, c.value.message)
  {
    match GetCondition(conditions, condType)
    case None => Healthy
    case Some(c) => CheckConditionState(condType, ConditionFalse, c.status, c.reason, c.message)
  }

  /**
   * The loops of CheckCustomResourceDefinition: the verdict of the first type in
   * `condTypes` that `check` rejects, in list order; no later type is examined.
   */
  function FirstFailure(check: string -> Verdict, condTypes: seq<string>): (v: Verdict)
    ensures v.Healthy? <==> forall i :: 0 <= i < |condTypes| ==> check(condTypes[i]).Healthy?
    ensures !v.Healthy? ==> exists i :: && 0 <= i < |condTypes|
                                        && v == check(condTypes[i])
                                        && forall j :: 0 <= j < i ==> check(condTypes[j]).Healthy?
  {
    if condTypes == [] then Healthy
    else if !check(condTypes[0]).Healthy? then check(condTypes[0])
    else
      var v := FirstFailure(check, condTypes[1..]);
      assert forall i :: 1 <= i < |condTypes| ==> condTypes[i] == condTypes[1..][i - 1];
      v
  }

  // ---------------------------------------------------------------------
  // The five checks

  /** The documented health rule for CustomResourceDefinitions. */
  predicate CrdHealthyRule(conditions: seq<Condition>)
  {
    && HasStatus(conditions, NamesAccepted, ConditionTrue)
    && HasStatus(conditions, Established, ConditionTrue)
    && AbsentOrHasStatus(conditions, Terminating, ConditionFalse)
  }

  /**
   * Healthy iff NamesAccepted and Established are True and Terminating is absent or
   * False. The checks run in the order NamesAccepted, Established, Terminating and
   * the first failing one gives the error.
   */
  function CheckCustomResourceDefinition(crd: CustomResourceDefinition): (v: Verdict)
    ensures v.Healthy? <==> CrdHealthyRule(crd.conditions)
    ensures GetCondition(crd.conditions, NamesAccepted).None? ==> v == ConditionMissing(NamesAccepted)
    ensures var c := GetCondition(crd.conditions, NamesAccepted);
            c.Some? && c.value.status != ConditionTrue ==>
              v == InvalidStatus(NamesAccepted, c.value.status, ConditionTrue, c.value.reason, c.value.message)
    ensures HasStatus(crd.conditions, NamesAccepted, ConditionTrue) ==>
              (GetCondition(crd.conditions, Established).None? ==> v == ConditionMissing(Established))
    ensures var c := GetCondition(crd.conditions, Established);
            HasStatus(crd.conditions, NamesAccepted, ConditionTrue) && c.Some? && c.value.status != ConditionTrue ==>
              v == InvalidStatus(Established, c.value.status, ConditionTrue, c.value.reason, c.value.message)
    ensures var c := GetCondition(crd.conditions, Terminating);
            && HasStatus(crd.conditions, NamesAccepted, ConditionTrue)
            && HasStatus(crd.conditions, Established, ConditionTrue)
            && c.Some? && c.value.status != ConditionFalse ==>
              v == InvalidStatus(Terminating, c.value.status, ConditionFalse, c.value.reason, c.value.message)
  {
    var required := FirstFailure(t => RequiredConditionVerdict(crd.conditions, t), TrueCrdConditionTypes);
    assert TrueCrdConditionTypes[0] == NamesAccepted && TrueCrdConditionTypes[1] == Established;
    assert FalseOptionalCrdConditionTypes[0] == Terminating;
    if !required.Healthy? then
      required
    else
      FirstFailure(t => OptionalConditionVerdict(crd.conditions, t), FalseOptionalCrdConditionTypes)
  }

  /** Healthy iff the Failed condition is absent or has status exactly False. */
  function CheckJob(job: Job): (v: Verdict)
    ensures v.Healthy? <==> AbsentOrHasStatus(job.conditions, JobFailed, ConditionFalse)
    ensures var c := GetCondition(job.conditions, JobFailed);
            c.Some? && c.value.status != ConditionFalse ==>
              v == InvalidStatus(JobFailed, c.value.status, ConditionFalse, c.value.reason, c.value.message)
  {
    match GetCondition(job.conditions, JobFailed)
    case None => Healthy
    case Some(c) => CheckConditionState(JobFailed, ConditionFalse, c.status, c.reason, c.message)
  }

  /** Healthy iff the phase is Running or Succeeded; otherwise the error carries the phase. */
  function CheckPod(pod: Pod): (v: Verdict)
    ensures v.Healthy? <==> pod.phase == PodRunning || pod.phase == PodSucceeded
    ensures !v.Healthy? ==> v == InvalidPhase(pod.phase)
  {
    if pod.phase in HealthyPodPhases then Healthy else InvalidPhase(pod.phase)
  }

  /**
   * The policy CheckReplicaSet and CheckReplicationController share: an outdated
   * observed generation is reported first, then a shortage of ready replicas.
   */
  function CheckReplicas(kind: string, generation: int64, replicas: Option<int32>,
                         observedGeneration: int64, readyReplicas: int32): (v: Verdict)
    ensures observedGeneration < generation ==> v == GenerationOutdated(observedGeneration, generation)
    ensures v.Healthy? <==> observedGeneration >= generation && (replicas.None? || readyReplicas >= replicas.value)
    ensures observedGeneration >= generation && replicas.Some? && readyReplicas < replicas.value ==>
              v == NotAvailable(kind)
  {
    if observedGeneration < generation then
      GenerationOutdated(observedGeneration, generation)
    else if replicas.Some? && readyReplicas < replicas.value then
      NotAvailable(kind)
    else
      Healthy
  }

  function CheckReplicaSet(rs: ReplicaSet): (v: Verdict)
    ensures rs.observedGeneration < rs.generation ==> v == GenerationOutdated(rs.observedGeneration, rs.generation)
    ensures v.Healthy? <==> rs.observedGeneration >= rs.generation && (rs.replicas.None? || rs.readyReplicas >= rs.replicas.value)
    ensures rs.observedGeneration >= rs.generation && rs.replicas.Some? && rs.readyReplicas < rs.replicas.value ==>
              v == NotAvailable("ReplicaSet")
  {
    CheckReplicas("ReplicaSet", rs.generation, rs.replicas, rs.observedGeneration, rs.readyReplicas)
  }

  function CheckReplicationController(rc: ReplicationController): (v: Verdict)
    ensures rc.observedGeneration < rc.generation ==> v == GenerationOutdated(rc.observedGeneration, rc.generation)
    ensures v.Healthy? <==> rc.observedGeneration >= rc.generation && (rc.replicas.None? || rc.readyReplicas >= rc.replicas.value)
    ensures rc.observedGeneration >= rc.generation && rc.replicas.Some? && rc.readyReplicas < rc.replicas.value ==>
              v == NotAvailable("ReplicationController")
  {
    CheckReplicas("ReplicationController", rc.generation, rc.replicas, rc.observedGeneration, rc.readyReplicas)
  }

  // ---------------------------------------------------------------------
  // Properties of the checks

  /** A Job's verdict is decided by its first Failed condition; later duplicates are ignored. */
  lemma JobFirstFailedConditionDecides(prefix: seq<Condition>, c: Condition, rest: seq<Condition>)
    requires forall j :: 0 <= j < |prefix| ==> prefix[j].condType != JobFailed
    requires c.condType == JobFailed
    ensures CheckJob(Job(prefix + [c] + rest)).Healthy? <==> c.status == ConditionFalse
    ensures c.status == ConditionTrue || c.status == ConditionUnknown ==>
              CheckJob(Job(prefix + [c] + rest)) == InvalidStatus(JobFailed, c.status, ConditionFalse, c.reason, c.message)
  {
    FirstOfTypeDecides(prefix, c, rest);
  }

  /** The CRD verdict depends on the conditions only through the first condition of each checked type. */
  lemma CrdVerdictDependsOnLookupsOnly(a: seq<Condition>, b: seq<Condition>)
    requires GetCondition(a, NamesAccepted) == GetCondition(b, NamesAccepted)
    requires GetCondition(a, Established) == GetCondition(b, Established)
    requires GetCondition(a, Terminating) == GetCondition(b, Terminating)
    ensures CheckCustomResourceDefinition(CustomResourceDefinition(a)) == CheckCustomResourceDefinition(CustomResourceDefinition(b))
  {
  }

  /** Conditions of unrelated types placed before the checked ones do not change the CRD verdict. */
  lemma CrdIgnoresUnrelatedConditions(prefix: seq<Condition>, conditions: seq<Condition>)
    requires forall j :: 0 <= j < |prefix| ==> prefix[j].condType !in TrueCrdConditionTypes + FalseOptionalCrdConditionTypes
    ensures CheckCustomResourceDefinition(CustomResourceDefinition(prefix + conditions)) ==
            CheckCustomResourceDefinition(CustomResourceDefinition(conditions))
  {
    GetConditionSkipsOtherTypes(prefix, conditions, NamesAccepted);
    GetConditionSkipsOtherTypes(prefix, conditions, Established);
    GetConditionSkipsOtherTypes(prefix, conditions, Terminating);
    CrdVerdictDependsOnLookupsOnly(prefix + conditions, conditions);
  }

  /** A healthy CRD carries NamesAccepted=True and Established=True conditions, each the first of its type. */
  lemma CrdHealthyHasRequiredConditions(crd: CustomResourceDefinition)
    requires CheckCustomResourceDefinition(crd).Healthy?
    ensures exists i :: FirstMatch(crd.conditions, NamesAccepted, i) && crd.conditions[i].status == ConditionTrue
    ensures exists i :: FirstMatch(crd.conditions, Established, i) && crd.conditions[i].status == ConditionTrue
    ensures forall i :: 0 <= i < |crd.conditions| && crd.conditions[i].condType == Terminating ==>
              exists k :: FirstMatch(crd.conditions, Terminating, k) && crd.conditions[k].status == ConditionFalse
  {
  }

  // ---------------------------------------------------------------------
  // Error text

  predicate IsDigit(c: char) { '0' <= c <= '9' }

  predicate IsDigits(s: string) { |s| > 0 && forall k :: 0 <= k < |s| ==> IsDigit(s[k]) }

  function DigitChar(d: nat): (c: char)
    requires d < 10
    ensures IsDigit(c)
  {
    ('0' as int + d) as char
  }

  function DigitValue(c: char): (d: nat)
    requires IsDigit(c)
    ensures d < 10
  {
    c as int - '0' as int
  }

  /** Decimal rendering of a natural number, as Go's %d verb prints it. */
  function NatToDecimal(n: nat): (s: string)
    ensures IsDigits(s)
    ensures s[0] == '0' <==> n == 0
    decreases n
  {
    if n < 10 then [DigitChar(n)] else NatToDecimal(n / 10) + [DigitChar(n % 10)]
  }

  function ParseNat(s: string): (n: nat)
    requires IsDigits(s)
    decreases |s|
  {
    if |s| == 1 then DigitValue(s[0]) else 10 * ParseNat(s[..|s| - 1]) + DigitValue(s[|s| - 1])
  }

  /** Decimal rendering of an integer: a minus sign before the digits of a negative value. */
  function IntToDecimal(i: int): (s: string)
    ensures |s| > 0
  {
    if i < 0 then "-" + NatToDecimal(-i) else NatToDecimal(i)
  }

  function ParseInt(s: string): (i: int)
    requires if |s| > 0 && s[0] == '-' then IsDigits(s[1..]) else IsDigits(s)
  {
    if s[0] == '-' then -(ParseNat(s[1..]) as int) else ParseNat(s)
  }

  lemma {:induction false} ParseNatInvertsNatToDecimal(n: nat)
    ensures ParseNat(NatToDecimal(n)) == n
    decreases n
  {
    if n >= 10 {
      var s := NatToDecimal(n);
      assert s[..|s| - 1] == NatToDecimal(n / 10);
      ParseNatInvertsNatToDecimal(n / 10);
    }
  }

  /** The rendered generations are recoverable: decimal rendering is one-to-one. */
  lemma ParseIntInvertsIntToDecimal(i: int)
    ensures var s := IntToDecimal(i);
            (if |s| > 0 && s[0] == '-' then IsDigits(s[1..]) else IsDigits(s)) && ParseInt(s) == i
  {
    if i < 0 {
      assert IntToDecimal(i)[1..] == NatToDecimal(-i);
      ParseNatInvertsNatToDecimal(-i);
    } else {
      ParseNatInvertsNatToDecimal(i);
    }
  }

  function Quote(s: string): (quoted: string) { "\"" + s + "\"" }

  /** The rendering of a list of strings by %q: quoted elements separated by spaces, in brackets. */
  function QuoteList(items: seq<string>): (text: string)
  {
    "[" + QuotedElements(items) + "]"
  }

  function QuotedElements(items: seq<string>): (text: string)
  {
    if items == [] then ""
    else if |items| == 1 then Quote(items[0])
    else Quote(items[0]) + " " + QuotedElements(items[1..])
  }

  /**
   * The text of the error each unhealthy verdict stands for, in the wording
   * of health.go (Go's escaping inside %q is not reproduced).
   */
  function ErrorText(v: Verdict): (text: string)
    requires !v.Healthy?
    ensures |text| > 0
  {
    match v
    case ConditionMissing(t) =>
      "condition " + Quote(t) + " is missing"
    case InvalidStatus(t, actual, expected, reason, message) =>
      "condition " + Quote(t) + " has invalid status " + actual + " (expected " + expected + ") due to " + reason + ": " + message
    case InvalidPhase(phase) =>
      "pod is in invalid phase " + Quote(phase) + " (expected one of " + QuoteList(HealthyPodPhases) + ")"
    case GenerationOutdated(observed, generation) =>
      "observed generation outdated (" + IntToDecimal(observed as int) + "/" + IntToDecimal(generation as int) + ")"
    case NotAvailable(kind) =>
      kind + " does not have minimum availability"
  }
}
