/** `InstanceInfo.__init__`: the cached snapshot, its rebuild from the metadata
    service, the tag and stack lookups, and the final pass over the tags. */
module Instance {

  import opened Wrappers
  import opened JsonValue
  import opened Entries
  import opened Retries
  import opened Stacks
  import opened Accessors
  import opened Regions
  import Platform

  /** The cache file is trusted while younger than this many seconds. */
  const CacheTtl := 900

  const StackNameTag := "aws:cloudformation:stack-name"
  const StackIdTag := "aws:cloudformation:stack-id"
  const LogicalIdTag := "aws:cloudformation:logical-id"

  /** `$TMP/instance-data.json`: absent, or present with its modification time
      and its parsed content (`None` when `json.load` fails). */
  datatype CacheFile = NoCacheFile | CacheFile(mtime: int, parsed: Option<Snapshot>)

  /** The instance-identity document fetch: a parsed document, a connection
      error from `get_retry`, or a text `json.loads` rejects. */
  datatype IdentityFetch = IdentityDocument(doc: Snapshot) | IdentityUnreachable | IdentityMalformed

  /** What the services answer during a rebuild: whether `wait_net_service`
      reached the metadata service, the identity fetch, and the scripted
      outcomes of the `describe_tags`, `describe_stacks` and
      `describe_stack_resources` calls. */
  datatype Services = Services(
    metadataReachable: bool,
    identity: IdentityFetch,
    tags: seq<CallOutcome<seq<Entry>>>,
    stacks: seq<CallOutcome<StackDescription>>,
    resources: seq<CallOutcome<ResourcesResponse>>)

  /** The exceptions that leave `__init__`: the "Failed to connect to instance
      identity service" exception, `json.loads`'s `ValueError`, the `TypeError`
      of exporting a region that is not a string, and the `TypeError` of
      `None['Tags']` after 20 failed tag attempts. */
  datatype InitError = MetadataUnreachable | MalformedIdentity | RegionNotString | TagsUnavailable

  /** An exception leaving `__init__`, with the process environment as it
      stands when it is raised (the region may already have been exported). */
  datatype Raised = Raised(error: InitError, env: Env)

  /** The snapshot and the process environment after construction. */
  datatype Built = Built(info: Snapshot, env: Env)

  /** The cache test: the file exists and is younger than `CacheTtl`. */
  predicate Fresh(cache: CacheFile, now: int)
  {
    cache.CacheFile? && now - cache.mtime < CacheTtl
  }

  /** The snapshot after the cache step: the parsed file when fresh and
      parseable, otherwise the class default `{}`. */
  function Loaded(cache: CacheFile, now: int): (info: Snapshot)
    ensures info != map[] ==> Fresh(cache, now) && cache.parsed == Some(info)
    ensures !Fresh(cache, now) ==> info == map[]
  {
    if Fresh(cache, now) && cache.parsed.Some? then cache.parsed.value else map[]
  }

  /** The tag dictionary a finished tag loop leaves (`{'Tags': []}` on a `ClientError`). */
  function TagsOf(a: Attempt<seq<Entry>>): (tags: map<string, string>)
  {
    if a.Answered? then Collect(a.resp) else map[]
  }

  /** Lines that copy the stack name and id from the freshly fetched tags. */
  function WithStackIds(info: Snapshot, tags: map<string, string>): (out: Snapshot)
  {
    var i1 := if StackNameTag in tags then info["stack_name" := JStr(tags[StackNameTag])] else info;
    if StackIdTag in tags then i1["stack_id" := JStr(tags[StackIdTag])] else i1
  }

  /** The rebuild on a cache miss on EC2. */
  function RebuildSpec(env: Env, svc: Services, fmt: Timestamp -> string): (r: Result<Built, Raised>)
    ensures r.Success? && svc.identity.IdentityDocument? ==>
              && Region(svc.identity.doc).Some? && Region(svc.identity.doc).value.JStr?
              && r.value.env == env[RegionVar := Region(svc.identity.doc).value.s]
              && r.value.info.Keys >= svc.identity.doc.Keys + {"Tags"}
    ensures r.Success? && svc.identity.IdentityDocument? ==>
              forall k :: k in svc.identity.doc && k !in {"Tags", "stack_name", "stack_id", "StackData", "FullStackData"}
                          ==> r.value.info[k] == svc.identity.doc[k]
    ensures r.Success? && !svc.identity.IdentityDocument? ==> r.value == Built(map[], env)
    ensures r.Failure? && r.error.error != TagsUnavailable ==> r.error.env == env
    ensures r.Failure? && r.error.error == TagsUnavailable ==>
              && svc.identity.IdentityDocument? && Region(svc.identity.doc).Some?
              && Region(svc.identity.doc).value.JStr?
              && r.error.env == env[RegionVar := Region(svc.identity.doc).value.s]
  {
    if !svc.metadataReachable then Failure(Raised(MetadataUnreachable, env))
    else match svc.identity
      case IdentityUnreachable => Success(Built(map[], env))
      case IdentityMalformed => Failure(Raised(MalformedIdentity, env))
      case IdentityDocument(doc) =>
        match ExportRegion(env, Region(doc))
        case None => Failure(Raised(RegionNotString, env))
        case Some(env1) =>
          var t := Retried(svc.tags, TagAttempts).result;
          if t.Exhausted? then Failure(Raised(TagsUnavailable, env1))
          else
            var tags := TagsOf(t);
            var info1 := WithStackIds(doc["Tags" := StringsJson(tags)], tags);
            if Present(StackName(info1)) then
              var sd := StackLookupSpec(svc.stacks, svc.resources, fmt);
              Success(Built(info1["StackData" := StringsJson(sd.data)]["FullStackData" := JObj(sd.full)], env1))
            else Success(Built(info1, env1))
  }

  /** `initial_status` from `FullStackData.StackStatus`, when there is one. */
  function WithInitialStatus(info: Snapshot): (out: Snapshot)
  {
    if "FullStackData" in info then
      match Member(info["FullStackData"], "StackStatus")
      case Some(status) => info["initial_status" := status]
      case None => info
    else info
  }

  /** `stack_name`, `stack_id` and `logical_id` overwritten from the tags. */
  function WithTagIds(info: Snapshot): (out: Snapshot)
  {
    if "Tags" in info && info["Tags"].JObj? then
      var tags := info["Tags"].fields;
      var i1 := if StackNameTag in tags then info["stack_name" := tags[StackNameTag]] else info;
      var i2 := if StackIdTag in tags then i1["stack_id" := tags[StackIdTag]] else i1;
      if LogicalIdTag in tags then i2["logical_id" := tags[LogicalIdTag]] else i2
    else info
  }

  /** The pass every construction ends with: export the region, set the
      initial status, and let the tags decide the stack identifiers. */
  function FinalPass(info: Snapshot, env: Env): (r: Result<Built, Raised>)
    ensures r.Failure? <==> Present(Region(info)) && !Region(info).value.JStr?
    ensures r.Failure? ==> r.error == Raised(RegionNotString, env)
  {
    var env1 := if Present(Region(info)) then ExportRegion(env, Region(info)) else Some(env);
    if env1.None? then Failure(Raised(RegionNotString, env))
    else Success(Built(WithTagIds(WithInitialStatus(info)), env1.value))
  }

  /** The whole constructor. */
  function InitSpec(cache: CacheFile, now: int, host: Platform.Host, svc: Services,
                    fmt: Timestamp -> string, env: Env): (r: Result<Built, Raised>)
    ensures r.Failure? ==> (Loaded(cache, now) == map[] && Platform.IsEc2(host)) || r.error.error == RegionNotString
    ensures Loaded(cache, now) == map[] && !Platform.IsEc2(host) ==> r == Success(Built(map[], env))
  {
    var loaded := Loaded(cache, now);
    if loaded == map[] && Platform.IsEc2(host) then
      match RebuildSpec(env, svc, fmt)
      case Failure(e) => Failure(e)
      case Success(b) => FinalPass(b.info, b.env)
    else FinalPass(loaded, env)
  }

  /** The final pass touches only `stack_name`, `stack_id`, `logical_id` and
      `initial_status`; the tags win for the three identifiers and
      `FullStackData.StackStatus` gives the initial status. */
  lemma FinalPassProperties(info: Snapshot, env: Env)
    requires FinalPass(info, env).Success?
    ensures var out := FinalPass(info, env).value.info;
      && (forall k :: k !in {"stack_name", "stack_id", "logical_id", "initial_status"} ==>
            (k in out <==> k in info) && (k in info ==> out[k] == info[k]))
      && (Tag(info, StackNameTag).Some? ==> StackName(out) == Tag(info, StackNameTag))
      && (Tag(info, StackIdTag).Some? ==> StackId(out) == Tag(info, StackIdTag))
      && (Tag(info, LogicalIdTag).Some? ==> LogicalId(out) == Tag(info, LogicalIdTag))
      && (Tag(info, StackNameTag).None? ==> StackName(out) == StackName(info))
      && (Tag(info, StackIdTag).None? ==> StackId(out) == StackId(info))
      && (Tag(info, LogicalIdTag).None? ==> LogicalId(out) == LogicalId(info))
      && (var status := if "FullStackData" in info then Member(info["FullStackData"], "StackStatus") else None;
          && (status.Some? ==> InitialStatus(out) == status)
          && (status.None? ==> InitialStatus(out) == InitialStatus(info)))
  {
    var i1 := WithInitialStatus(info);
    assert FinalPass(info, env).value.info == WithTagIds(i1);
    assert "Tags" in i1 <==> "Tags" in info;
    assert "Tags" in info ==> i1["Tags"] == info["Tags"];
  }

  /** The final pass exports a truthy region, which must then be a string. */
  lemma FinalPassExportsRegion(info: Snapshot, env: Env)
    requires FinalPass(info, env).Success?
    ensures var b := FinalPass(info, env).value;
      && Region(b.info) == Region(info)
      && (Present(Region(info)) ==> Region(info).value.JStr? && b.env == env[RegionVar := Region(info).value.s])
      && (!Present(Region(info)) ==> b.env == env)
  {
    FinalPassProperties(info, env);
  }

  /** Whatever was stored before, a constructed instance answers `stack_name()`,
      `stack_id()` and `logical_id()` with the tag values when the tags carry
      them, and `initial_status()` with `FullStackData.StackStatus`. */
  lemma InitTagsWin(cache: CacheFile, now: int, host: Platform.Host, svc: Services,
                    fmt: Timestamp -> string, env: Env)
    requires InitSpec(cache, now, host, svc, fmt, env).Success?
    ensures var out := InitSpec(cache, now, host, svc, fmt, env).value.info;
      && (Tag(out, StackNameTag).Some? ==> StackName(out) == Tag(out, StackNameTag))
      && (Tag(out, StackIdTag).Some? ==> StackId(out) == Tag(out, StackIdTag))
      && (Tag(out, LogicalIdTag).Some? ==> LogicalId(out) == Tag(out, LogicalIdTag))
      && (var status := if "FullStackData" in out then Member(out["FullStackData"], "StackStatus") else None;
          status.Some? ==> InitialStatus(out) == status)
  {
    var loaded := Loaded(cache, now);
    if loaded == map[] && Platform.IsEc2(host) {
      var b := RebuildSpec(env, svc, fmt).value;
      FinalPassProperties(b.info, b.env);
    } else {
      FinalPassProperties(loaded, env);
    }
  }

  /** A constructed instance with a truthy region has exported it. */
  lemma InitExportsRegion(cache: CacheFile, now: int, host: Platform.Host, svc: Services,
                          fmt: Timestamp -> string, env: Env)
    requires InitSpec(cache, now, host, svc, fmt, env).Success?
    ensures var b := InitSpec(cache, now, host, svc, fmt, env).value;
      Present(Region(b.info)) ==> Region(b.info).value.JStr? && RegionVar in b.env
                                  && b.env[RegionVar] == Region(b.info).value.s
  {
    var loaded := Loaded(cache, now);
    if loaded == map[] && Platform.IsEc2(host) {
      var b := RebuildSpec(env, svc, fmt).value;
      FinalPassExportsRegion(b.info, b.env);
    } else {
      FinalPassExportsRegion(loaded, env);
    }
  }

  /** A fresh, parseable, non-empty cache file is used as it is: neither the
      host nor any service is consulted. */
  lemma InitUsesFreshCache(cache: CacheFile, now: int, host: Platform.Host, svc: Services,
                           host': Platform.Host, svc': Services, fmt: Timestamp -> string, env: Env)
    requires Fresh(cache, now) && cache.parsed.Some? && cache.parsed.value != map[]
    ensures InitSpec(cache, now, host, svc, fmt, env) == FinalPass(cache.parsed.value, env)
    ensures InitSpec(cache, now, host, svc, fmt, env) == InitSpec(cache, now, host', svc', fmt, env)
  {
  }

  /** A missing, stale or unparseable cache file, or one holding `{}`, leaves
      the snapshot empty: on EC2 it is rebuilt, elsewhere the instance stays empty. */
  lemma InitCacheMiss(cache: CacheFile, now: int, host: Platform.Host, svc: Services,
                      fmt: Timestamp -> string, env: Env)
    requires !Fresh(cache, now) || cache.parsed.None? || cache.parsed == Some(map[])
    ensures Platform.IsEc2(host) ==>
              InitSpec(cache, now, host, svc, fmt, env) ==
              (match RebuildSpec(env, svc, fmt)
               case Failure(e) => Failure(e)
               case Success(b) => FinalPass(b.info, b.env))
    ensures !Platform.IsEc2(host) ==> InitSpec(cache, now, host, svc, fmt, env) == Success(Built(map[], env))
  {
    assert Loaded(cache, now) == map[];
    assert WithTagIds(WithInitialStatus(map[])) == map[];
  }

  /** When every tag attempt is refused with a `ClientError`, the snapshot is the
      identity document with an empty tag dictionary and no stack lookup. */
  lemma RebuildTagsRefused(env: Env, svc: Services, fmt: Timestamp -> string, k: nat)
    requires svc.metadataReachable && svc.identity.IdentityDocument?
    requires Region(svc.identity.doc).Some? && Region(svc.identity.doc).value.JStr?
    requires "stack_name" !in svc.identity.doc
    requires k < TagAttempts
    requires forall j :: 0 <= j < k ==> OutcomeAt(svc.tags, j).ConnErr?
    requires OutcomeAt(svc.tags, k).ClientErr?
    ensures var doc := svc.identity.doc;
      RebuildSpec(env, svc, fmt)
        == Success(Built(doc["Tags" := JObj(map[])], env[RegionVar := Region(doc).value.s]))
  {
    RetriedDecided(svc.tags, TagAttempts, k);
    assert StringsJson(map[]) == JObj(map[]);
  }

  /** Twenty connection errors in a row from `describe_tags` make the constructor raise. */
  lemma RebuildTagsExhausted(env: Env, svc: Services, fmt: Timestamp -> string)
    requires svc.metadataReachable && svc.identity.IdentityDocument?
    requires Region(svc.identity.doc).Some? && Region(svc.identity.doc).value.JStr?
    requires forall j :: 0 <= j < TagAttempts ==> OutcomeAt(svc.tags, j).ConnErr?
    ensures RebuildSpec(env, svc, fmt)
            == Failure(Raised(TagsUnavailable, env[RegionVar := Region(svc.identity.doc).value.s]))
  {
    RetriedExhausted(svc.tags, TagAttempts);
  }

  /** The stored tags are the fetched list folded last-wins: for a key, `tag()`
      answers with the value of its last occurrence. */
  lemma RebuildTagLastWins(env: Env, svc: Services, fmt: Timestamp -> string, k: nat, i: nat)
    requires RebuildSpec(env, svc, fmt).Success? && svc.identity.IdentityDocument?
    requires k < TagAttempts
    requires forall j :: 0 <= j < k ==> OutcomeAt(svc.tags, j).ConnErr?
    requires OutcomeAt(svc.tags, k).Ok?
    requires var es := OutcomeAt(svc.tags, k).resp;
      i < |es| && forall j :: i < j < |es| ==> es[j].key != es[i].key
    ensures var es := OutcomeAt(svc.tags, k).resp;
      Tag(RebuildSpec(env, svc, fmt).value.info, es[i].key) == Some(JStr(es[i].value))
  {
    RetriedDecided(svc.tags, TagAttempts, k);
    CollectLastWins(OutcomeAt(svc.tags, k).resp, i);
  }

  /** A rebuild that finds a stack-name tag stores the flattened stack data and
      the full stack from the stack lookup. */
  lemma RebuildStoresStackData(env: Env, svc: Services, fmt: Timestamp -> string, k: nat)
    requires RebuildSpec(env, svc, fmt).Success? && svc.identity.IdentityDocument?
    requires k < TagAttempts
    requires forall j :: 0 <= j < k ==> OutcomeAt(svc.tags, j).ConnErr?
    requires OutcomeAt(svc.tags, k).Ok?
    requires var tags := Collect(OutcomeAt(svc.tags, k).resp);
      StackNameTag in tags && tags[StackNameTag] != ""
    ensures var info := RebuildSpec(env, svc, fmt).value.info;
      var sd := StackLookupSpec(svc.stacks, svc.resources, fmt);
      && StackName(info) == Some(JStr(Collect(OutcomeAt(svc.tags, k).resp)[StackNameTag]))
      && "StackData" in info && info["StackData"] == StringsJson(sd.data)
      && "FullStackData" in info && info["FullStackData"] == JObj(sd.full)
  {
    RetriedDecided(svc.tags, TagAttempts, k);
  }

  class InstanceInfo {
    /** `self._info`. */
    var info: Snapshot

    /** A new instance sees the class-level default `_info = {}`. */
    constructor ()
      ensures info == map[]
    {
      info := map[];
    }

    /** The body of `__init__`. `now` is `time.time()`, `fmt` formats stack
        timestamps, `env` is the process environment; the result is the new
        environment, or the exception that leaves the constructor. */
    method Init(cache: CacheFile, now: int, host: Platform.Host, svc: Services,
                fmt: Timestamp -> string, env: Env) returns (r: Result<Env, Raised>)
      requires info == map[]
      modifies this
      ensures r.Success? <==> InitSpec(cache, now, host, svc, fmt, env).Success?
      ensures r.Success? ==> InitSpec(cache, now, host, svc, fmt, env).value == Built(info, r.value)
      ensures r.Failure? ==> InitSpec(cache, now, host, svc, fmt, env).error == r.error
    {
      if Fresh(cache, now) {
        if cache.parsed.Some? {
          info := cache.parsed.value;
        }
      }
      var e := env;
      if info == map[] && Platform.IsEc2(host) {
        r := Rebuild(env, svc, fmt);
        if r.Failure? {
          return;
        }
        e := r.value;
      }
      r := Finish(e);
    }

    /** The rebuild from the metadata service and the cloud APIs. */
    method Rebuild(env: Env, svc: Services, fmt: Timestamp -> string) returns (r: Result<Env, Raised>)
      modifies this
      ensures r.Success? <==> RebuildSpec(env, svc, fmt).Success?
      ensures r.Success? ==> RebuildSpec(env, svc, fmt).value == Built(info, r.value)
      ensures r.Failure? ==> RebuildSpec(env, svc, fmt).error == r.error
    {
      if !svc.metadataReachable {
        return Failure(Raised(MetadataUnreachable, env));
      }
      match svc.identity
      case IdentityUnreachable =>
        info := map[];
        r := Success(env);
      case IdentityMalformed =>
        r := Failure(Raised(MalformedIdentity, env));
      case IdentityDocument(doc) =>
        info := doc;
        var exported := ExportRegion(env, Region(info));
        if exported.None? {
          return Failure(Raised(RegionNotString, env));
        }
        var tagResponse, _ := Retry(svc.tags, TagAttempts);
        if tagResponse.Exhausted? {
          return Failure(Raised(TagsUnavailable, exported.value));
        }
        var tags := CollectInto(map[], if tagResponse.Answered? then tagResponse.resp else []);
        assert Collect([]) == map[];
        info := info["Tags" := StringsJson(tags)];
        if StackNameTag in tags {
          info := info["stack_name" := JStr(tags[StackNameTag])];
        }
        if StackIdTag in tags {
          info := info["stack_id" := JStr(tags[StackIdTag])];
        }
        assert tags == TagsOf(Retried(svc.tags, TagAttempts).result);
        assert info == WithStackIds(doc["Tags" := StringsJson(tags)], tags);
        if Present(StackName(info)) {
          var stackParameters, stack, _, _ := StackParamsAndOutputsAndStack(svc.stacks, svc.resources, fmt);
          info := info["StackData" := StringsJson(stackParameters)];
          info := info["FullStackData" := JObj(stack)];
        }
        r := Success(exported.value);
    }

    /** The final pass over the snapshot. */
    method Finish(env: Env) returns (r: Result<Env, Raised>)
      modifies this
      ensures r.Success? <==> FinalPass(old(info), env).Success?
      ensures r.Success? ==> FinalPass(old(info), env).value == Built(info, r.value)
      ensures r.Failure? ==> FinalPass(old(info), env).error == r.error
    {
      var e := env;
      if Present(Region(info)) {
        var exported := ExportRegion(e, Region(info));
        if exported.None? {
          return Failure(Raised(RegionNotString, e));
        }
        e := exported.value;
      }
      if "FullStackData" in info && info["FullStackData"].JObj? && "StackStatus" in info["FullStackData"].fields {
        info := info["initial_status" := info["FullStackData"].fields["StackStatus"]];
      }
      if "Tags" in info && info["Tags"].JObj? {
        var tags := info["Tags"].fields;
        if StackNameTag in tags {
          info := info["stack_name" := tags[StackNameTag]];
        }
        if StackIdTag in tags {
          info := info["stack_id" := tags[StackIdTag]];
        }
        if LogicalIdTag in tags {
          info := info["logical_id" := tags[LogicalIdTag]];
        }
      }
      r := Success(e);
    }
  }
}
