/** `stack_params_and_outputs_and_stack`: the stack lookup and the flattening
    of its resources, parameters and outputs into one dictionary. */
module Stacks {

  import opened Wrappers
  import opened JsonValue
  import opened Entries
  import opened Retries

  /** A stack timestamp (`datetime`), formatted by a caller-supplied function. */
  type Timestamp = int

  /** One parameter or output of a stack: its key and value (`ParameterKey` /
      `ParameterValue`, `OutputKey` / `OutputValue`) and its other fields
      (`Description`, `ExportName`, `UsePreviousValue`, `ResolvedValue`, ...). */
  datatype StackItem = StackItem(key: string, value: string, fields: map<string, Json>)

  /** The keys a stack description holds in dedicated fields. */
  predicate ReservedKey(k: string)
  {
    k == "CreationTime" || k == "LastUpdatedTime" || k == "Parameters" || k == "Outputs"
  }

  /** The remaining fields of a stack description: none of them is reserved. */
  type StackAttributes = m: map<string, Json> | forall k :: k in m ==> !ReservedKey(k)
    witness map[]

  /** `describe_stacks(...)['Stacks'][0]`: the timestamps, the parameter and
      output lists (each possibly absent), and the remaining fields
      (`StackStatus`, `StackName`, ...) as decoded JSON. */
  datatype StackDescription = StackDescription(
    attributes: StackAttributes,
    creationTime: Option<Timestamp>,
    lastUpdatedTime: Option<Timestamp>,
    parameters: Option<seq<StackItem>>,
    outputs: Option<seq<StackItem>>)

  /** A `describe_stack_resources` response: its `StackResources` list, if any,
      as logical id / physical id entries. */
  datatype ResourcesResponse = ResourcesResponse(stackResources: Option<seq<Entry>>)

  /** What the function returns (the flattened data and the full stack) and
      how many calls each loop made. */
  datatype StackLookup = StackLookup(
    data: map<string, string>,
    full: map<string, Json>,
    stackCalls: nat,
    resourceCalls: nat)

  function OrEmpty(es: Option<seq<Entry>>): (r: seq<Entry>)
    ensures es.Some? ==> r == es.value
    ensures es.None? ==> r == []
  {
    if es.Some? then es.value else []
  }

  /** The key/value entries of an optional list of parameters or outputs, in order. */
  function Listed(items: Option<seq<StackItem>>): (es: seq<Entry>)
    ensures items.None? ==> es == []
    ensures items.Some? ==> |es| == |items.value|
    ensures items.Some? ==> forall i :: 0 <= i < |es| ==>
      es[i].key == items.value[i].key && es[i].value == items.value[i].value
  {
    if items.Some? then
      seq(|items.value|, i requires 0 <= i < |items.value| => Entry(items.value[i].key, items.value[i].value))
    else []
  }

  /** The resource entries that `"StackResources" in resources` lets through. */
  function ResourceEntries(a: Attempt<ResourcesResponse>): (es: seq<Entry>)
    ensures a.Answered? ==> es == OrEmpty(a.resp.stackResources)
    ensures !a.Answered? ==> es == []
  {
    if a.Answered? then OrEmpty(a.resp.stackResources) else []
  }

  /** One parameter or output as the SDK returns it: its other fields plus
      `keyName` and `valueName`. */
  function ItemJson(item: StackItem, keyName: string, valueName: string): (j: Json)
    requires keyName != valueName
    ensures j.JObj? && j.fields.Keys == item.fields.Keys + {keyName, valueName}
    ensures j.fields[keyName] == JStr(item.key) && j.fields[valueName] == JStr(item.value)
    ensures forall k :: k in item.fields && k != keyName && k != valueName ==> j.fields[k] == item.fields[k]
  {
    JObj(item.fields[keyName := JStr(item.key)][valueName := JStr(item.value)])
  }

  /** The JSON list of parameters or outputs, item by item. */
  function ItemsJson(items: seq<StackItem>, keyName: string, valueName: string): (j: Json)
    requires keyName != valueName
    ensures j.JArr? && |j.items| == |items|
    ensures forall i :: 0 <= i < |items| ==> j.items[i] == ItemJson(items[i], keyName, valueName)
  {
    JArr(seq(|items|, i requires 0 <= i < |items| => ItemJson(items[i], keyName, valueName)))
  }

  /** The full stack as the snapshot stores it: the SDK's dictionary with the
      timestamps formatted by `fmt`. */
  function StackJson(stack: StackDescription, fmt: Timestamp -> string): (m: map<string, Json>)
    ensures m.Keys == stack.attributes.Keys
                      + (if stack.creationTime.Some? then {"CreationTime"} else {})
                      + (if stack.lastUpdatedTime.Some? then {"LastUpdatedTime"} else {})
                      + (if stack.parameters.Some? then {"Parameters"} else {})
                      + (if stack.outputs.Some? then {"Outputs"} else {})
    ensures forall k :: k in stack.attributes ==> m[k] == stack.attributes[k]
    ensures stack.creationTime.Some? ==> "CreationTime" in m && m["CreationTime"] == JStr(fmt(stack.creationTime.value))
    ensures stack.lastUpdatedTime.Some? ==> "LastUpdatedTime" in m && m["LastUpdatedTime"] == JStr(fmt(stack.lastUpdatedTime.value))
    ensures stack.parameters.Some? ==>
              "Parameters" in m && m["Parameters"] == ItemsJson(stack.parameters.value, "ParameterKey", "ParameterValue")
    ensures stack.outputs.Some? ==>
              "Outputs" in m && m["Outputs"] == ItemsJson(stack.outputs.value, "OutputKey", "OutputValue")
  {
    var m0 := stack.attributes;
    var m1 := if stack.creationTime.Some? then m0["CreationTime" := JStr(fmt(stack.creationTime.value))] else m0;
    var m2 := if stack.lastUpdatedTime.Some? then m1["LastUpdatedTime" := JStr(fmt(stack.lastUpdatedTime.value))] else m1;
    var m3 := if stack.parameters.Some? then m2["Parameters" := ItemsJson(stack.parameters.value, "ParameterKey", "ParameterValue")] else m2;
    if stack.outputs.Some? then m3["Outputs" := ItemsJson(stack.outputs.value, "OutputKey", "OutputValue")] else m3
  }

  /** Resources, then parameters, then outputs folded into one dictionary. */
  function Flatten(resources: seq<Entry>, stack: StackDescription): (r: map<string, string>)
    ensures r == Collect(resources) + Collect(Listed(stack.parameters)) + Collect(Listed(stack.outputs))
  {
    CollectAppend(resources, Listed(stack.parameters));
    CollectAppend(resources + Listed(stack.parameters), Listed(stack.outputs));
    Collect(resources + Listed(stack.parameters) + Listed(stack.outputs))
  }

  /** The whole lookup: up to 10 `describe_stacks` attempts; without a stack,
      `({}, {})` and no `describe_stack_resources` call; otherwise up to 3
      `describe_stack_resources` attempts and the flattened data. */
  function StackLookupSpec(stacks: seq<CallOutcome<StackDescription>>,
                           resources: seq<CallOutcome<ResourcesResponse>>,
                           fmt: Timestamp -> string): (r: StackLookup)
    ensures !Retried(stacks, StackAttempts).result.Answered? ==> r.data == map[] && r.full == map[]
    ensures r.resourceCalls > 0 ==> Retried(stacks, StackAttempts).result.Answered?
    ensures r.stackCalls == Retried(stacks, StackAttempts).calls
  {
    var s := Retried(stacks, StackAttempts);
    if !s.result.Answered? then StackLookup(map[], map[], s.calls, 0)
    else
      var r := Retried(resources, ResourceAttempts);
      StackLookup(Flatten(ResourceEntries(r.result), s.result.resp),
                  StackJson(s.result.resp, fmt), s.calls, r.calls)
  }

  /** The imperative function: two retry loops, the timestamp rewrite and three
      dictionary-filling loops. */
  method StackParamsAndOutputsAndStack(stacks: seq<CallOutcome<StackDescription>>,
                                       resources: seq<CallOutcome<ResourcesResponse>>,
                                       fmt: Timestamp -> string)
    returns (resp: map<string, string>, full: map<string, Json>, stackCalls: nat, resourceCalls: nat)
    ensures StackLookup(resp, full, stackCalls, resourceCalls) == StackLookupSpec(stacks, resources, fmt)
  {
    var stack;
    stack, stackCalls := Retry(stacks, StackAttempts);
    if !stack.Answered? {
      return map[], map[], stackCalls, 0;
    }
    var res;
    res, resourceCalls := Retry(resources, ResourceAttempts);
    full := StackJson(stack.resp, fmt);
    ghost var rs, ps, os := ResourceEntries(res), Listed(stack.resp.parameters), Listed(stack.resp.outputs);
    assert Collect([]) == map[];
    resp := map[];
    if res.Answered? && res.resp.stackResources.Some? {
      resp := CollectInto(resp, res.resp.stackResources.value);
    }
    assert resp == Collect(rs);
    if stack.resp.parameters.Some? {
      resp := CollectInto(resp, Listed(stack.resp.parameters));
    }
    assert resp == Collect(rs) + Collect(ps);
    if stack.resp.outputs.Some? {
      resp := CollectInto(resp, Listed(stack.resp.outputs));
    }
    assert resp == Collect(rs) + Collect(ps) + Collect(os);
    CollectAppend(rs, ps);
    CollectAppend(rs + ps, os);
  }

  /** The flattened keys are exactly the resource logical ids, the parameter
      keys and the output keys. */
  lemma FlattenKeys(resources: seq<Entry>, stack: StackDescription, k: string)
    ensures k in Flatten(resources, stack)
        <==> || (exists i :: 0 <= i < |resources| && resources[i].key == k)
             || (exists i :: 0 <= i < |Listed(stack.parameters)| && Listed(stack.parameters)[i].key == k)
             || (exists i :: 0 <= i < |Listed(stack.outputs)| && Listed(stack.outputs)[i].key == k)
  {
    var ps, os := Listed(stack.parameters), Listed(stack.outputs);
    CollectAppend(resources, ps);
    CollectAppend(resources + ps, os);
    CollectKeys(resources, k);
    CollectKeys(ps, k);
    CollectKeys(os, k);
  }

  /** An output beats everything: the last output with key `k` gives the value. */
  lemma FlattenOutputWins(resources: seq<Entry>, stack: StackDescription, i: nat)
    requires stack.outputs.Some? && i < |stack.outputs.value|
    requires forall j :: i < j < |stack.outputs.value| ==> stack.outputs.value[j].key != stack.outputs.value[i].key
    ensures var e := stack.outputs.value[i];
      e.key in Flatten(resources, stack) && Flatten(resources, stack)[e.key] == e.value
  {
    var ps, os := Listed(stack.parameters), Listed(stack.outputs);
    CollectAppend(resources, ps);
    CollectAppend(resources + ps, os);
    CollectLastWins(os, i);
  }

  /** With no output of that key, a parameter beats a resource. */
  lemma FlattenParameterWins(resources: seq<Entry>, stack: StackDescription, i: nat)
    requires stack.parameters.Some? && i < |stack.parameters.value|
    requires forall j :: i < j < |stack.parameters.value| ==> stack.parameters.value[j].key != stack.parameters.value[i].key
    requires forall j :: 0 <= j < |Listed(stack.outputs)| ==> Listed(stack.outputs)[j].key != stack.parameters.value[i].key
    ensures var e := stack.parameters.value[i];
      e.key in Flatten(resources, stack) && Flatten(resources, stack)[e.key] == e.value
  {
    var ps, os := Listed(stack.parameters), Listed(stack.outputs);
    var k := ps[i].key;
    CollectAppend(resources, ps);
    CollectAppend(resources + ps, os);
    CollectLastWins(ps, i);
    CollectKeys(os, k);
  }

  /** With neither an output nor a parameter of that key, the resource's physical id is kept. */
  lemma FlattenResourceKept(resources: seq<Entry>, stack: StackDescription, i: nat)
    requires i < |resources|
    requires forall j :: i < j < |resources| ==> resources[j].key != resources[i].key
    requires forall j :: 0 <= j < |Listed(stack.parameters)| ==> Listed(stack.parameters)[j].key != resources[i].key
    requires forall j :: 0 <= j < |Listed(stack.outputs)| ==> Listed(stack.outputs)[j].key != resources[i].key
    ensures resources[i].key in Flatten(resources, stack)
         && Flatten(resources, stack)[resources[i].key] == resources[i].value
  {
    var ps, os := Listed(stack.parameters), Listed(stack.outputs);
    var k := resources[i].key;
    CollectAppend(resources, ps);
    CollectAppend(resources + ps, os);
    CollectLastWins(resources, i);
    CollectKeys(ps, k);
    CollectKeys(os, k);
  }

  /** A `ClientError` from `describe_stacks` (after at most 9 connection errors)
      gives `({}, {})` and describe_stack_resources is never called. */
  lemma StackNotFound(stacks: seq<CallOutcome<StackDescription>>,
                      resources: seq<CallOutcome<ResourcesResponse>>,
                      fmt: Timestamp -> string, k: nat)
    requires k < StackAttempts
    requires forall j :: 0 <= j < k ==> OutcomeAt(stacks, j).ConnErr?
    requires OutcomeAt(stacks, k).ClientErr?
    ensures var r := StackLookupSpec(stacks, resources, fmt);
      r.data == map[] && r.full == map[] && r.resourceCalls == 0 && r.stackCalls == k + 1
  {
    RetriedDecided(stacks, StackAttempts, k);
  }

  /** Ten connection errors from `describe_stacks` also give `({}, {})`, after
      exactly ten calls and no describe_stack_resources call. */
  lemma StackUnreachable(stacks: seq<CallOutcome<StackDescription>>,
                         resources: seq<CallOutcome<ResourcesResponse>>,
                         fmt: Timestamp -> string)
    requires forall j :: 0 <= j < StackAttempts ==> OutcomeAt(stacks, j).ConnErr?
    ensures var r := StackLookupSpec(stacks, resources, fmt);
      r.data == map[] && r.full == map[] && r.resourceCalls == 0 && r.stackCalls == StackAttempts
  {
    RetriedExhausted(stacks, StackAttempts);
  }

  /** A `ClientError` from describe_stack_resources ends its loop, and the data
      holds the parameter and output entries only. */
  lemma ResourcesRefused(stacks: seq<CallOutcome<StackDescription>>,
                         resources: seq<CallOutcome<ResourcesResponse>>,
                         fmt: Timestamp -> string, k: nat)
    requires Retried(stacks, StackAttempts).result.Answered?
    requires k < ResourceAttempts
    requires forall j :: 0 <= j < k ==> OutcomeAt(resources, j).ConnErr?
    requires OutcomeAt(resources, k).ClientErr?
    ensures var stack := Retried(stacks, StackAttempts).result.resp;
      var r := StackLookupSpec(stacks, resources, fmt);
      && r.resourceCalls == k + 1
      && r.data == Collect(Listed(stack.parameters)) + Collect(Listed(stack.outputs))
  {
    RetriedDecided(resources, ResourceAttempts, k);
    var stack := Retried(stacks, StackAttempts).result.resp;
    var ps, os := Listed(stack.parameters), Listed(stack.outputs);
    assert [] + ps + os == ps + os;
    CollectAppend(ps, os);
  }

  /** Neither loop makes more calls than its budget. */
  lemma CallsBounded(stacks: seq<CallOutcome<StackDescription>>,
                     resources: seq<CallOutcome<ResourcesResponse>>,
                     fmt: Timestamp -> string)
    ensures var r := StackLookupSpec(stacks, resources, fmt);
      1 <= r.stackCalls <= StackAttempts && r.resourceCalls <= ResourceAttempts
  {
  }
}
