/**
 * The action document the orchestration framework writes to the handler's
 * standard input, already parsed, and the choice of the SCALE item in it.
 */
module Payload {
  import opened Wrappers

  const SCALE := "SCALE"
  const VIRTUAL_MACHINE := "VIRTUAL_MACHINE"

  /** One entry of `targetSE.entityProperties`: a tag on the virtual machine. */
  datatype EntityProperty = EntityProperty(namespace: string, name: string, value: string)

  /** `targetSE`; its `entityType` key may be absent. */
  datatype TargetSE = TargetSE(entityType: Option<string>, entityProperties: seq<EntityProperty>)

  /** `newSE`; `id` is a `::`-delimited identifier of the new size class. */
  datatype NewSE = NewSE(id: string)

  /** One element of `actionItem`; its `targetSE` key may be absent. */
  datatype ActionItem = ActionItem(actionType: string, targetSE: Option<TargetSE>, newSE: NewSE)

  /** The whole document. */
  datatype Action = Action(actionType: string, actionItem: seq<ActionItem>)

  /** `scale_action.get('targetSE', {}).get('entityType')`: `None` when either key is missing. */
  function TargetEntityType(item: ActionItem): Option<string>
  {
    if item.targetSE.None? then None else item.targetSE.value.entityType
  }

  /** The item the selection loop keeps: the first whose `actionType` is SCALE. */
  function FirstScaleItem(items: seq<ActionItem>): Option<ActionItem>
  {
    if items == [] then None
    else if items[0].actionType == SCALE then Some(items[0])
    else FirstScaleItem(items[1..])
  }

  /** The selected item is a SCALE item, every item before it is not, and nothing is selected exactly when no item is a SCALE item. */
  lemma {:induction false} FirstScaleItemIsFirstMatch(items: seq<ActionItem>)
    ensures FirstScaleItem(items).None? <==> forall i :: 0 <= i < |items| ==> items[i].actionType != SCALE
    ensures FirstScaleItem(items).Some? ==>
      exists i :: 0 <= i < |items| && items[i] == FirstScaleItem(items).value
        && items[i].actionType == SCALE
        && forall j :: 0 <= j < i ==> items[j].actionType != SCALE
  {
    if items != [] && items[0].actionType != SCALE {
      var rest := items[1..];
      FirstScaleItemIsFirstMatch(rest);
      assert forall i :: 1 <= i < |items| ==> items[i] == rest[i - 1];
      if FirstScaleItem(rest).Some? {
        var i :| 0 <= i < |rest| && rest[i] == FirstScaleItem(rest).value
          && rest[i].actionType == SCALE
          && forall j :: 0 <= j < i ==> rest[j].actionType != SCALE;
        assert items[i + 1] == rest[i];
        assert forall j :: 0 <= j < i + 1 ==> items[j].actionType != SCALE by {
          forall j | 0 <= j < i + 1 ensures items[j].actionType != SCALE {
            if j > 0 { assert items[j] == rest[j - 1]; }
          }
        }
      }
    }
  }

  /** Conversely, a SCALE item with no SCALE item before it is the one selected. */
  lemma {:induction false} FirstScaleItemChosen(items: seq<ActionItem>, i: nat)
    requires i < |items| && items[i].actionType == SCALE
    requires forall j :: 0 <= j < i ==> items[j].actionType != SCALE
    ensures FirstScaleItem(items) == Some(items[i])
  {
    if i > 0 {
      var rest := items[1..];
      assert forall j :: 0 <= j < i - 1 ==> rest[j] == items[j + 1];
      assert rest[i - 1] == items[i];
      FirstScaleItemChosen(rest, i - 1);
    }
  }

  /** The `for ... break` loop over `actionItem` that picks the SCALE item. */
  method FindScaleItem(items: seq<ActionItem>) returns (scaleAction: Option<ActionItem>)
    ensures scaleAction == FirstScaleItem(items)
  {
    scaleAction := None;
    var i := 0;
    while i < |items|
      invariant 0 <= i <= |items|
      invariant FirstScaleItem(items[i..]) == FirstScaleItem(items)
    {
      assert items[i..][0] == items[i] && items[i..][1..] == items[i + 1..];
      if items[i].actionType == SCALE {
        scaleAction := Some(items[i]);
        break;
      }
      i := i + 1;
    }
  }
}
