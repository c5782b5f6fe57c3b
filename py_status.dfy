/**
 * Status of an `EdgeLakeOperator` resource in the Python operator: the
 * lifecycle phases, condition enums, and the replace-by-type condition list
 * kept by `OperatorStatus.set_condition`. The clock is a parameter.
 */
module PyStatus {
  import opened Common

  datatype OperatorPhase = Pending | Creating | Running | Updating | Failed | Deleting

  /** The string stored in `status.phase`. */
  function PhaseValue(p: OperatorPhase): string {
    match p
    case Pending => "Pending"
    case Creating => "Creating"
    case Running => "Running"
    case Updating => "Updating"
    case Failed => "Failed"
    case Deleting => "Deleting"
  }

  datatype ConditionStatus = StatusTrue | StatusFalse | StatusUnknown

  function StatusValue(s: ConditionStatus): string {
    match s
    case StatusTrue => "True"
    case StatusFalse => "False"
    case StatusUnknown => "Unknown"
  }

  datatype ConditionType = Ready | Available | Progressing | Degraded | ConfigValid | ResourcesCreated

  function TypeValue(t: ConditionType): string {
    match t
    case Ready => "Ready"
    case Available => "Available"
    case Progressing => "Progressing"
    case Degraded => "Degraded"
    case ConfigValid => "ConfigValid"
    case ResourcesCreated => "ResourcesCreated"
  }

  /** A stored condition; its type and status are the enum strings. */
  datatype Condition = Condition(ctype: string, status: string, lastTransitionTime: string, reason: string, message: string)

  /** `Condition.create` at the time `now`. */
  function CreateCondition(t: ConditionType, s: ConditionStatus, reason: string, message: string, now: string): Condition {
    Condition(TypeValue(t), StatusValue(s), now, reason, message)
  }

  datatype Endpoints = Endpoints(tcp: Option<string>, rest: Option<string>, broker: Option<string>)

  /** Index of the first condition of type `ty`, or -1 when there is none. */
  function FirstOfType(cs: seq<Condition>, ty: string): (i: int)
    ensures -1 <= i < |cs|
    ensures i >= 0 ==> cs[i].ctype == ty
    ensures forall j | 0 <= j < |cs| && (i < 0 || j < i) :: cs[j].ctype != ty
  {
    if |cs| == 0 then -1
    else if cs[0].ctype == ty then 0
    else
      var k := FirstOfType(cs[1..], ty);
      if k < 0 then -1 else k + 1
  }

  /** The condition list after setting `c`: the first condition of its type is replaced, or `c` is appended. */
  function Upsert(cs: seq<Condition>, c: Condition): seq<Condition> {
    var i := FirstOfType(cs, c.ctype);
    if i >= 0 then cs[i := c] else cs + [c]
  }

  /** The conditions whose type is not `ty`, in order. */
  function OtherTypes(cs: seq<Condition>, ty: string): seq<Condition> {
    if |cs| == 0 then []
    else (if cs[0].ctype == ty then [] else [cs[0]]) + OtherTypes(cs[1..], ty)
  }

  /** No two conditions share a type. */
  predicate TypesUnique(cs: seq<Condition>) {
    forall i, j | 0 <= i < j < |cs| :: cs[i].ctype != cs[j].ctype
  }

  /** A type already present: the first condition of that type is overwritten in place. */
  lemma UpsertReplacesFirst(cs: seq<Condition>, c: Condition, i: nat)
    requires i < |cs| && cs[i].ctype == c.ctype
    requires forall j | 0 <= j < i :: cs[j].ctype != c.ctype
    ensures Upsert(cs, c) == cs[i := c]
  {
    var k := FirstOfType(cs, c.ctype);
    assert k == i;
  }

  /** A new type: the condition is appended at the end. */
  lemma UpsertAppends(cs: seq<Condition>, c: Condition)
    requires forall j | 0 <= j < |cs| :: cs[j].ctype != c.ctype
    ensures Upsert(cs, c) == cs + [c]
  {
  }

  /** The list grows by at most one, and `c` is in it afterwards. */
  lemma UpsertLength(cs: seq<Condition>, c: Condition)
    ensures |cs| <= |Upsert(cs, c)| <= |cs| + 1
    ensures c in Upsert(cs, c)
  {
    var i := FirstOfType(cs, c.ctype);
    if i >= 0 { assert Upsert(cs, c)[i] == c; } else { assert Upsert(cs, c)[|cs|] == c; }
  }

  lemma {:induction false} OtherTypesAppend(a: seq<Condition>, b: seq<Condition>, ty: string)
    ensures OtherTypes(a + b, ty) == OtherTypes(a, ty) + OtherTypes(b, ty)
  {
    if |a| > 0 {
      assert (a + b)[1..] == a[1..] + b;
      OtherTypesAppend(a[1..], b, ty);
    } else {
      assert a + b == b;
    }
  }

  lemma {:induction false} OtherTypesReplace(cs: seq<Condition>, i: nat, c: Condition, ty: string)
    requires i < |cs| && cs[i].ctype == ty && c.ctype == ty
    ensures OtherTypes(cs[i := c], ty) == OtherTypes(cs, ty)
  {
    assert cs == cs[..i] + [cs[i]] + cs[i + 1..];
    assert cs[i := c] == cs[..i] + [c] + cs[i + 1..];
    OtherTypesAppend(cs[..i] + [cs[i]], cs[i + 1..], ty);
    OtherTypesAppend(cs[..i], [cs[i]], ty);
    OtherTypesAppend(cs[..i] + [c], cs[i + 1..], ty);
    OtherTypesAppend(cs[..i], [c], ty);
  }

  /** Conditions of other types, and their relative order, are left as they were. */
  lemma UpsertKeepsOthers(cs: seq<Condition>, c: Condition)
    ensures OtherTypes(Upsert(cs, c), c.ctype) == OtherTypes(cs, c.ctype)
    ensures forall j | 0 <= j < |cs| && cs[j].ctype != c.ctype :: Upsert(cs, c)[j] == cs[j]
  {
    var i := FirstOfType(cs, c.ctype);
    if i >= 0 {
      OtherTypesReplace(cs, i, c, c.ctype);
    } else {
      OtherTypesAppend(cs, [c], c.ctype);
      assert OtherTypes([c], c.ctype) == [];
    }
  }

  /** Setting a condition keeps the types of the list unique. */
  lemma UpsertKeepsTypesUnique(cs: seq<Condition>, c: Condition)
    requires TypesUnique(cs)
    ensures TypesUnique(Upsert(cs, c))
  {
    var r := Upsert(cs, c);
    var i := FirstOfType(cs, c.ctype);
    forall a, b | 0 <= a < b < |r| ensures r[a].ctype != r[b].ctype {
      if i < 0 {
        if b == |cs| { assert r[b] == c && r[a] == cs[a]; }
      }
    }
  }

  /** `OperatorStatus`: the status record the handlers maintain. */
  class OperatorStatus {
    var phase: string
    var conditions: seq<Condition>
    var observedGeneration: Option<int>
    var deploymentName: Option<string>
    var serviceName: Option<string>
    var configMapName: Option<string>
    var secretName: Option<string>
    var pvcNames: seq<string>
    var endpoints: Endpoints

    /** A new status: Pending, no conditions, no PVC names, every optional field unset. */
    constructor ()
      ensures phase == PhaseValue(Pending) && conditions == [] && pvcNames == []
      ensures observedGeneration.None? && deploymentName.None? && serviceName.None?
      ensures configMapName.None? && secretName.None? && endpoints == Endpoints(None, None, None)
    {
      phase := PhaseValue(Pending);
      conditions := [];
      observedGeneration := None;
      deploymentName := None;
      serviceName := None;
      configMapName := None;
      secretName := None;
      pvcNames := [];
      endpoints := Endpoints(None, None, None);
    }

    /** `set_condition`: scan for the first condition of the same type and overwrite it, else append. */
    method SetCondition(t: ConditionType, s: ConditionStatus, reason: string, message: string, now: string)
      modifies this`conditions
      ensures conditions == Upsert(old(conditions), CreateCondition(t, s, reason, message, now))
    {
      var newCondition := CreateCondition(t, s, reason, message, now);
      var i := 0;
      while i < |conditions|
        invariant 0 <= i <= |conditions|
        invariant conditions == old(conditions)
        invariant forall j | 0 <= j < i :: conditions[j].ctype != TypeValue(t)
      {
        if conditions[i].ctype == TypeValue(t) {
          UpsertReplacesFirst(conditions, newCondition, i);
          conditions := conditions[i := newCondition];
          return;
        }
        i := i + 1;
      }
      conditions := conditions + [newCondition];
    }
  }
}
