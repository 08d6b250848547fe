/** Region resolution: the module-level `region()` and `set_region()`. */
module Regions {

  import opened Wrappers
  import opened JsonValue

  /** The process environment. */
  type Env = map<string, string>

  const RegionVar := "AWS_DEFAULT_REGION"
  const DefaultRegion := "eu-west-1"

  /** `region()`. `sessionRegion` is the boto3 session's `region_name`; `onEc2`
      is `is_ec2()`; `instanceRegion` is what `InstanceInfo().region()` yields. */
  function GlobalRegion(env: Env, sessionRegion: Option<string>, onEc2: bool,
                        instanceRegion: Option<Json>): (r: Option<Json>)
    ensures r == instanceRegion || (r.Some? && r.value.JStr?)
    ensures !onEc2 ==> r.Some? && r.value.JStr?
    ensures r.Some? && r.value.JStr? && r.value.s == "" ==> RegionVar in env || onEc2
  {
    if RegionVar in env then Some(JStr(env[RegionVar]))
    else if sessionRegion.Some? && sessionRegion.value != "" then Some(JStr(sessionRegion.value))
    else if onEc2 then instanceRegion
    else Some(JStr(DefaultRegion))
  }

  /** `os.environ['AWS_DEFAULT_REGION'] = v`; assigning anything other than a
      string raises (`None` when it does). */
  function ExportRegion(env: Env, v: Option<Json>): (r: Option<Env>)
    ensures r.Some? <==> v.Some? && v.value.JStr?
    ensures r.Some? ==> r.value == env[RegionVar := v.value.s]
  {
    if v.Some? && v.value.JStr? then Some(env[RegionVar := v.value.s]) else None
  }

  /** `set_region()`: export `region()` unless the variable is already set.
      `None` is the `TypeError` of exporting a missing or non-string region. */
  function SetRegion(env: Env, sessionRegion: Option<string>, onEc2: bool,
                     instanceRegion: Option<Json>): (r: Option<Env>)
    ensures RegionVar in env ==> r == Some(env)
    ensures r.Some? ==> RegionVar in r.value && r.value.Keys == env.Keys + {RegionVar}
    ensures r.Some? ==> forall k :: k in env && k != RegionVar ==> r.value[k] == env[k]
  {
    if RegionVar in env then Some(env)
    else ExportRegion(env, GlobalRegion(env, sessionRegion, onEc2, instanceRegion))
  }

  /** `region()` precedence: the environment variable, when set, decides
      whatever the other sources say; then a non-empty session region, whatever
      `is_ec2()` says; then the instance's region on EC2; then the default. */
  lemma RegionPrecedence(env: Env, sessionRegion: Option<string>, onEc2: bool, instanceRegion: Option<Json>,
                         sessionRegion': Option<string>, onEc2': bool, instanceRegion': Option<Json>)
    ensures RegionVar in env ==>
              GlobalRegion(env, sessionRegion, onEc2, instanceRegion)
              == GlobalRegion(env, sessionRegion', onEc2', instanceRegion')
              == Some(JStr(env[RegionVar]))
    ensures RegionVar !in env && sessionRegion.Some? && sessionRegion.value != "" ==>
              GlobalRegion(env, sessionRegion, onEc2, instanceRegion)
              == GlobalRegion(env, sessionRegion, onEc2', instanceRegion')
              == Some(JStr(sessionRegion.value))
    ensures RegionVar !in env && !(sessionRegion.Some? && sessionRegion.value != "") ==>
              && GlobalRegion(env, sessionRegion, true, instanceRegion) == instanceRegion
              && GlobalRegion(env, sessionRegion, false, instanceRegion) == Some(JStr(DefaultRegion))
  {
  }

  /** `set_region()` raises only on EC2, with the variable unset and no session
      region, when the instance snapshot has no string region. */
  lemma SetRegionFailsOnlyWithoutInstanceRegion(env: Env, sessionRegion: Option<string>, onEc2: bool,
                                                instanceRegion: Option<Json>)
    ensures SetRegion(env, sessionRegion, onEc2, instanceRegion).None?
        <==> && RegionVar !in env
             && !(sessionRegion.Some? && sessionRegion.value != "")
             && onEc2
             && !(instanceRegion.Some? && instanceRegion.value.JStr?)
  {
  }

  /** `set_region()` never overwrites a variable that is already set. */
  lemma SetRegionKeepsExisting(env: Env, sessionRegion: Option<string>, onEc2: bool,
                               instanceRegion: Option<Json>)
    requires RegionVar in env
    ensures SetRegion(env, sessionRegion, onEc2, instanceRegion) == Some(env)
  {
  }

  /** When `set_region()` succeeds it changes the region variable only, and
      `region()` answers the same before and after it. */
  lemma SetRegionPreservesRegion(env: Env, sessionRegion: Option<string>, onEc2: bool,
                                 instanceRegion: Option<Json>)
    requires SetRegion(env, sessionRegion, onEc2, instanceRegion).Some?
    ensures var env' := SetRegion(env, sessionRegion, onEc2, instanceRegion).value;
      && RegionVar in env'
      && (forall k :: k in env && k != RegionVar ==> k in env' && env'[k] == env[k])
      && env'.Keys == env.Keys + {RegionVar}
      && GlobalRegion(env', sessionRegion, onEc2, instanceRegion)
         == GlobalRegion(env, sessionRegion, onEc2, instanceRegion)
      && SetRegion(env', sessionRegion, onEc2, instanceRegion) == Some(env')
  {
  }
}
