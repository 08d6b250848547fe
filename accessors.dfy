/** The read-only accessors of `InstanceInfo`, as total lookups in the snapshot. */
module Accessors {

  import opened Wrappers
  import opened JsonValue

  /** `self._info[key]` if the key is there, otherwise `None`. */
  function Lookup(info: Snapshot, key: string): (r: Option<Json>)
    ensures r.Some? <==> key in info
    ensures r.Some? ==> r.value == info[key]
  {
    if key in info then Some(info[key]) else None
  }

  /** Python's `key in j` and `j[key]` for a JSON object; any other value is
      taken as lacking the key. */
  function Member(j: Json, key: string): (r: Option<Json>)
    ensures r.Some? <==> j.JObj? && key in j.fields
    ensures r.Some? ==> r.value == j.fields[key]
  {
    if j.JObj? && key in j.fields then Some(j.fields[key]) else None
  }

  function StackName(info: Snapshot): (r: Option<Json>)
    ensures r.Some? <==> "stack_name" in info
    ensures r.Some? ==> r.value == info["stack_name"]
  {
    Lookup(info, "stack_name")
  }

  function StackId(info: Snapshot): (r: Option<Json>)
    ensures r.Some? <==> "stack_id" in info
    ensures r.Some? ==> r.value == info["stack_id"]
  {
    Lookup(info, "stack_id")
  }

  function InstanceId(info: Snapshot): (r: Option<Json>)
    ensures r.Some? <==> "instanceId" in info
    ensures r.Some? ==> r.value == info["instanceId"]
  {
    Lookup(info, "instanceId")
  }

  function Region(info: Snapshot): (r: Option<Json>)
    ensures r.Some? <==> "region" in info
    ensures r.Some? ==> r.value == info["region"]
  {
    Lookup(info, "region")
  }

  function InitialStatus(info: Snapshot): (r: Option<Json>)
    ensures r.Some? <==> "initial_status" in info
    ensures r.Some? ==> r.value == info["initial_status"]
  {
    Lookup(info, "initial_status")
  }

  function LogicalId(info: Snapshot): (r: Option<Json>)
    ensures r.Some? <==> "logical_id" in info
    ensures r.Some? ==> r.value == info["logical_id"]
  {
    Lookup(info, "logical_id")
  }

  function AvailabilityZone(info: Snapshot): (r: Option<Json>)
    ensures r.Some? <==> "availabilityZone" in info
    ensures r.Some? ==> r.value == info["availabilityZone"]
  {
    Lookup(info, "availabilityZone")
  }

  function PrivateIp(info: Snapshot): (r: Option<Json>)
    ensures r.Some? <==> "privateIp" in info
    ensures r.Some? ==> r.value == info["privateIp"]
  {
    Lookup(info, "privateIp")
  }

  /** `tag(name)`: `None` when there are no tags or no tag `name`. */
  function Tag(info: Snapshot, name: string): (r: Option<Json>)
    ensures r.Some? <==> "Tags" in info && info["Tags"].JObj? && name in info["Tags"].fields
    ensures r.Some? ==> r.value == info["Tags"].fields[name]
  {
    if "Tags" in info then Member(info["Tags"], name) else None
  }

  /** `stack_data_dict()`: the flattened stack data, or `None`. */
  function StackDataDict(info: Snapshot): (r: Option<Json>)
    ensures r.Some? <==> "StackData" in info
    ensures r.Some? ==> r.value == info["StackData"]
  {
    Lookup(info, "StackData")
  }

  /** `stack_data(name)`: the stack value `name`, or `''` when there is no
      stack data or no such name. */
  function StackData(info: Snapshot, name: string): (r: Json)
    ensures "StackData" in info && info["StackData"].JObj? && name in info["StackData"].fields
      ==> r == info["StackData"].fields[name]
    ensures !("StackData" in info && info["StackData"].JObj? && name in info["StackData"].fields)
      ==> r == JStr("")
  {
    if "StackData" in info then
      match Member(info["StackData"], name)
      case Some(v) => v
      case None => JStr("")
    else JStr("")
  }

  /** On stack data stored as strings, `stack_data(name)` is the stored string,
      and `''` for a name that is not there. */
  lemma StackDataOfStrings(info: Snapshot, data: map<string, string>, name: string)
    requires "StackData" in info && info["StackData"] == StringsJson(data)
    ensures name in data ==> StackData(info, name) == JStr(data[name])
    ensures name !in data ==> StackData(info, name) == JStr("")
  {
  }
}
