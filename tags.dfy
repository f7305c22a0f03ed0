/**
 * The scan of the virtual machine's tags for the managed service instance it
 * belongs to: the identifier, the name, and the name of the service input
 * parameter that sets the instance type.
 */
module Tags {
  import opened Wrappers
  import opened Payload

  const VCTAGS := "VCTAGS"
  const SERVICE_IDENTIFIER := "service_identifier"
  const SERVICE_NAME := "service_name"
  const INSTANCE_TYPE_TAG := "turbonomic_instance_type"
  /** The parameter name used when no `turbonomic_instance_type` tag is found. */
  const DEFAULT_INSTANCE_TYPE_PARAMETER := "instance_type"

  /** The three local variables the scan fills in. */
  datatype Found = Found(serviceInstanceId: Option<string>, serviceInstanceName: Option<string>, instanceTypeParameter: Option<string>)

  const NothingFound := Found(None, None, None)

  predicate IsTagName(name: string)
  {
    name == SERVICE_IDENTIFIER || name == SERVICE_NAME || name == INSTANCE_TYPE_TAG
  }

  /** `p` is the VCTAGS tag called `name`. */
  predicate IsTag(p: EntityProperty, name: string)
  {
    p.namespace == VCTAGS && p.name == name
  }

  /** The variable that holds the tag called `name`. */
  function Field(f: Found, name: string): Option<string>
  {
    if name == SERVICE_IDENTIFIER then f.serviceInstanceId
    else if name == SERVICE_NAME then f.serviceInstanceName
    else if name == INSTANCE_TYPE_TAG then f.instanceTypeParameter
    else None
  }

  /** All three tags have been seen: the condition of the early `break`. */
  predicate Complete(f: Found)
  {
    f.serviceInstanceId.Some? && f.serviceInstanceName.Some? && f.instanceTypeParameter.Some?
  }

  /** The three `if`s of one iteration: a matching tag overwrites its variable. */
  function Record(f: Found, p: EntityProperty): Found
  {
    Found(
      if IsTag(p, SERVICE_IDENTIFIER) then Some(p.value) else f.serviceInstanceId,
      if IsTag(p, SERVICE_NAME) then Some(p.value) else f.serviceInstanceName,
      if IsTag(p, INSTANCE_TYPE_TAG) then Some(p.value) else f.instanceTypeParameter)
  }

  /** The remaining iterations of the scan from state `f`, stopping once all three tags are in. */
  function ScanFrom(f: Found, props: seq<EntityProperty>): Found
    decreases |props|
  {
    if props == [] then f
    else
      var next := Record(f, props[0]);
      if Complete(next) then next else ScanFrom(next, props[1..])
  }

  function Scan(props: seq<EntityProperty>): Found
  {
    ScanFrom(NothingFound, props)
  }

  /** The parameter name the update uses: the tag's value, or "instance_type" without one. */
  function InstanceTypeParameter(f: Found): string
  {
    if f.instanceTypeParameter.Some? then f.instanceTypeParameter.value else DEFAULT_INSTANCE_TYPE_PARAMETER
  }

  /** The loop over `targetSE.entityProperties` with its early `break`. */
  method ScanTags(props: seq<EntityProperty>)
    returns (serviceInstanceId: Option<string>, serviceInstanceName: Option<string>, instanceTypeParameter: Option<string>)
    ensures Found(serviceInstanceId, serviceInstanceName, instanceTypeParameter) == Scan(props)
  {
    instanceTypeParameter, serviceInstanceId, serviceInstanceName := None, None, None;
    var i := 0;
    while i < |props|
      invariant 0 <= i <= |props|
      invariant !Complete(Found(serviceInstanceId, serviceInstanceName, instanceTypeParameter))
      invariant ScanFrom(Found(serviceInstanceId, serviceInstanceName, instanceTypeParameter), props[i..]) == Scan(props)
    {
      var p := props[i];
      assert props[i..][0] == p && props[i..][1..] == props[i + 1..];
      if p.namespace == VCTAGS && p.name == SERVICE_IDENTIFIER {
        serviceInstanceId := Some(p.value);
      }
      if p.namespace == VCTAGS && p.name == SERVICE_NAME {
        serviceInstanceName := Some(p.value);
      }
      if p.namespace == VCTAGS && p.name == INSTANCE_TYPE_TAG {
        instanceTypeParameter := Some(p.value);
      }
      if instanceTypeParameter.Some? && serviceInstanceId.Some? && serviceInstanceName.Some? {
        break;
      }
      i := i + 1;
    }
  }

  // ---------------------------------------------------------------------
  // Only VCTAGS properties matter.

  function OnlyVctags(props: seq<EntityProperty>): (r: seq<EntityProperty>)
    ensures forall i :: 0 <= i < |r| ==> r[i].namespace == VCTAGS
  {
    if props == [] then []
    else (if props[0].namespace == VCTAGS then [props[0]] else []) + OnlyVctags(props[1..])
  }

  lemma {:induction false} ScanFromIgnoresOtherNamespaces(f: Found, props: seq<EntityProperty>)
    requires !Complete(f)
    ensures ScanFrom(f, props) == ScanFrom(f, OnlyVctags(props))
    decreases |props|
  {
    if props != [] {
      var next := Record(f, props[0]);
      var kept := OnlyVctags(props[1..]);
      if props[0].namespace == VCTAGS {
        assert OnlyVctags(props) == [props[0]] + kept;
        assert ([props[0]] + kept)[0] == props[0] && ([props[0]] + kept)[1..] == kept;
        if !Complete(next) {
          ScanFromIgnoresOtherNamespaces(next, props[1..]);
        }
      } else {
        assert OnlyVctags(props) == kept;
        assert next == f;
        ScanFromIgnoresOtherNamespaces(f, props[1..]);
      }
    }
  }

  /** Dropping every property outside the VCTAGS namespace changes nothing the scan extracts. */
  lemma ScanIgnoresOtherNamespaces(props: seq<EntityProperty>)
    ensures Scan(props) == Scan(OnlyVctags(props))
  {
    ScanFromIgnoresOtherNamespaces(NothingFound, props);
  }

  // ---------------------------------------------------------------------
  // A variable is set exactly when its tag occurs, and to one of its values.

  lemma {:induction false} ScanFromFindsTag(f: Found, props: seq<EntityProperty>, name: string)
    requires IsTagName(name)
    ensures Field(ScanFrom(f, props), name).None? <==>
      Field(f, name).None? && forall i :: 0 <= i < |props| ==> !IsTag(props[i], name)
    ensures Field(ScanFrom(f, props), name).Some? ==>
      Field(ScanFrom(f, props), name) == Field(f, name) ||
      exists i :: 0 <= i < |props| && IsTag(props[i], name) && Field(ScanFrom(f, props), name) == Some(props[i].value)
    decreases |props|
  {
    if props != [] {
      var next := Record(f, props[0]);
      assert Field(next, name) == if IsTag(props[0], name) then Some(props[0].value) else Field(f, name);
      assert forall i :: 1 <= i < |props| ==> props[i] == props[1..][i - 1];
      if !Complete(next) {
        ScanFromFindsTag(next, props[1..], name);
        var r := Field(ScanFrom(f, props), name);
        if r.Some? && r != Field(next, name) {
          var i :| 0 <= i < |props[1..]| && IsTag(props[1..][i], name) && r == Some(props[1..][i].value);
          assert props[i + 1] == props[1..][i];
        }
      }
    }
  }

  /** The scan leaves a variable `None` exactly when no VCTAGS property carries its tag; otherwise it holds the value of one such property. */
  lemma ScanFindsTag(props: seq<EntityProperty>, name: string)
    requires IsTagName(name)
    ensures Field(Scan(props), name).None? <==> forall i :: 0 <= i < |props| ==> !IsTag(props[i], name)
    ensures Field(Scan(props), name).Some? ==>
      exists i :: 0 <= i < |props| && IsTag(props[i], name) && Field(Scan(props), name) == Some(props[i].value)
  {
    ScanFromFindsTag(NothingFound, props, name);
  }

  /** Without a `turbonomic_instance_type` tag the parameter name is exactly "instance_type"; with one, it is the value of such a tag. */
  lemma DefaultInstanceTypeParameter(props: seq<EntityProperty>)
    ensures (forall i :: 0 <= i < |props| ==> !IsTag(props[i], INSTANCE_TYPE_TAG)) ==>
      InstanceTypeParameter(Scan(props)) == DEFAULT_INSTANCE_TYPE_PARAMETER
    ensures (exists i :: 0 <= i < |props| && IsTag(props[i], INSTANCE_TYPE_TAG)) ==>
      exists i :: 0 <= i < |props| && IsTag(props[i], INSTANCE_TYPE_TAG) && InstanceTypeParameter(Scan(props)) == props[i].value
  {
    ScanFindsTag(props, INSTANCE_TYPE_TAG);
  }

  // ---------------------------------------------------------------------
  // Last write wins, up to the point where the loop breaks.

  /** The value of the last VCTAGS property called `name` in `props`. */
  function LastValue(props: seq<EntityProperty>, name: string): Option<string>
  {
    if props == [] then None
    else if IsTag(props[|props| - 1], name) then Some(props[|props| - 1].value)
    else LastValue(props[..|props| - 1], name)
  }

  /** What a scan without the early `break` would hold after reading `props`. */
  function LastWrites(props: seq<EntityProperty>): Found
  {
    Found(LastValue(props, SERVICE_IDENTIFIER), LastValue(props, SERVICE_NAME), LastValue(props, INSTANCE_TYPE_TAG))
  }

  /** How many properties the loop reads from state `f` before it breaks or runs out. */
  function Consumed(f: Found, props: seq<EntityProperty>): (n: nat)
    ensures n <= |props|
    decreases |props|
  {
    if props == [] then 0
    else if Complete(Record(f, props[0])) then 1
    else 1 + Consumed(Record(f, props[0]), props[1..])
  }

  lemma LastWritesSnoc(props: seq<EntityProperty>, p: EntityProperty)
    ensures LastWrites(props + [p]) == Record(LastWrites(props), p)
  {
  }

  /** Reading one property and then `j` more is reading `j + 1`. */
  lemma PrefixShift(pre: seq<EntityProperty>, props: seq<EntityProperty>, j: nat)
    requires j < |props|
    ensures (pre + [props[0]]) + props[1..][..j] == pre + props[..j + 1]
  {
  }

  lemma {:induction false} ScanFromIsLastWrite(pre: seq<EntityProperty>, props: seq<EntityProperty>)
    requires !Complete(LastWrites(pre))
    ensures var k := Consumed(LastWrites(pre), props);
      && ScanFrom(LastWrites(pre), props) == LastWrites(pre + props[..k])
      && (forall j :: 0 <= j < k ==> !Complete(LastWrites(pre + props[..j])))
      && (k < |props| ==> Complete(ScanFrom(LastWrites(pre), props)))
    decreases |props|
  {
    var f := LastWrites(pre);
    assert pre + props[..0] == pre;
    if props != [] {
      var pre' := pre + [props[0]];
      LastWritesSnoc(pre, props[0]);
      PrefixShift(pre, props, 0);
      if !Complete(Record(f, props[0])) {
        var rest := props[1..];
        ScanFromIsLastWrite(pre', rest);
        var k' := Consumed(LastWrites(pre'), rest);
        PrefixShift(pre, props, k');
        forall j | 0 <= j < k' + 1 ensures !Complete(LastWrites(pre + props[..j])) {
          if j > 0 {
            PrefixShift(pre, props, j - 1);
          }
        }
      }
    }
  }

  /**
   * Last write wins: the scan holds, for each tag, the value of its LAST
   * occurrence among the first `k` properties, where `k` is the shortest
   * prefix that already contains all three tags (or the whole list when
   * some tag is missing).
   */
  lemma ScanIsLastWrite(props: seq<EntityProperty>)
    ensures var k := Consumed(NothingFound, props);
      && Scan(props) == LastWrites(props[..k])
      && (forall j :: 0 <= j < k ==> !Complete(LastWrites(props[..j])))
      && (k < |props| ==> Complete(Scan(props)))
  {
    assert LastWrites([]) == NothingFound;
    ScanFromIsLastWrite([], props);
    forall j | 0 <= j <= |props| ensures [] + props[..j] == props[..j] { }
  }
}
