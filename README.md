# ebs-utils instance info, modelled in Dafny

This project models the instance self-description logic of
`ec2_utils/instance_info.py`. A process on an EC2 instance uses it to learn
its own identity, tags and CloudFormation stack membership. The model covers:

- the cache test on `$TMP/instance-data.json` (used only while younger than 900 s);
- the rebuild from the instance-identity document;
- the `describe_tags`, `describe_stacks` and `describe_stack_resources` retry
  loops (20, 10 and 3 attempts; only connection-class errors use up an attempt);
- the flattening of stack resources, parameters and outputs into one
  dictionary, where later sources overwrite earlier ones;
- the final pass, which lets the tags decide `stack_name`, `stack_id` and
  `logical_id` and sets `initial_status` from `FullStackData.StackStatus`;
- the total accessors;
- the Linux EC2 detection probes;
- region resolution.

I/O is replaced by inputs:

- the cache file is a `CacheFile` value (existence, modification time,
  parse result);
- the clock is an integer `now`;
- the filesystem is a map from path to `FileEntry`;
- each SDK call site is a script of `CallOutcome`s
  (`ConnErr | ClientErr | Ok(resp)`);
- the process environment is a `map<string, string>`;
- `wait_net_service`'s answer is a boolean;
- timestamp formatting is a function parameter `fmt`.

Modules:

- `Wrappers` — Option and Result;
- `JsonValue` — decoded JSON and the snapshot type;
- `Entries` — key/value lists and their last-wins fold;
- `Retries` — the retry loop;
- `Platform` — `read_if_readable`, `is_ec2`;
- `Accessors` — the `InstanceInfo` getters;
- `Regions` — `region()`, `set_region()`;
- `Stacks` — `stack_params_and_outputs_and_stack`;
- `Instance` — `InstanceInfo.__init__`, as the class `InstanceInfo` with
  methods `Init`, `Rebuild` and `Finish`, specified by the functions
  `InitSpec`, `RebuildSpec` and `FinalPass`.

An exception that leaves `__init__` is a `Failure(Raised(error, env))` result:
the `InitError` raised and the process environment as it then stands, since
line 262 may already have exported the region. Python's
`InstanceInfo()` corresponds to `new InstanceInfo()` followed by `Init`.

Two behaviours of the code are worth stating outright:

- `describe_stack_resources` is tried 3 times with a fixed 1 s sleep and no backoff.
- Twenty connection errors from `describe_tags` raise: `None['Tags']` is a
  `TypeError`, modelled as `Failure(Raised(TagsUnavailable, env1))`, where
  `env1` already holds the region exported at line 262.

## Model

| member | source | states |
|---|---|---|
| Entries.Collect | ec2_utils/instance_info.py:276-277 | the definition of the dictionary `for e in es: d[e.key] = e.value` leaves on an empty `d`: entries applied in order, a later one overwriting an earlier one with the same key |
| Entries.CollectInto | ec2_utils/instance_info.py:276-277 | the `for` loop filling a dictionary from a list leaves the old dictionary overridden by the list's last-wins fold |
| Entries.CollectKeys | ec2_utils/instance_info.py:276-277 | the folded dictionary's keys are exactly the keys in the list |
| Entries.CollectLastWins | ec2_utils/instance_info.py:276-277 | for a repeated key, the value of its last occurrence is kept |
| Entries.CollectAppend | ec2_utils/instance_info.py:374-382 | folding two lists in turn is the right-biased union of their folds |
| Retries.RunFrom | ec2_utils/instance_info.py:266-275 | a retry loop makes at most its budget of calls; exhaustion uses the whole budget; any other end comes from a call that was not a connection error |
| Retries.RunFromExhausted | ec2_utils/instance_info.py:266-275 | a loop is exhausted iff every attempt in its budget hit a connection error |
| Retries.RunFromDecided | ec2_utils/instance_info.py:266-275 | the first outcome that is not a connection error, if within the budget, ends the loop and decides its result |
| Retries.RetriedExhausted | ec2_utils/instance_info.py:345-354 | from the first call: exhausted iff `budget` connection errors in a row, which then takes exactly `budget` calls |
| Retries.RetriedDecided | ec2_utils/instance_info.py:358-366 | from the first call: a `ClientError` or response at call `k` within the budget ends the loop after `k + 1` calls |
| Retries.Retry | ec2_utils/instance_info.py:266-275 | the `while not resp and retry < N` loop ends exactly as the retry specification says, with the same number of calls |
| Platform.ReadIfReadable | ec2_utils/instance_info.py:37-45 | the file's contents for a readable regular file, `""` for a missing, non-regular or unreadable one |
| Platform.Contains | ec2_utils/instance_info.py:173-176 | Python's substring test: true iff the needle occurs at some position |
| Platform.FirstMatch | ec2_utils/instance_info.py:156-178 | the index of the first probe that matches, or none when no probe matches |
| Platform.IsEc2Linux | ec2_utils/instance_info.py:156-178 | the definition of the Linux branch: the ten-test `elif` chain in source order, `sys_vendor` tested twice, every file read through `read_if_readable` |
| Platform.IsEc2 | ec2_utils/instance_info.py:151-178 | a host is taken for EC2 only on Windows with WMI owner `EC2` or on Linux when some probe of the ordered list matches; any other platform is not |
| Platform.IsEc2LinuxFirstMatch | ec2_utils/instance_info.py:156-178 | the Linux `elif` chain of `is_ec2` is true iff some probe in the ordered list matches |
| Platform.UnreadableProbeFails | ec2_utils/instance_info.py:37-45 | a probe whose file is missing or unreadable reads `""` and never matches, whatever the other files hold |
| Platform.NoReadableProbeFile | ec2_utils/instance_info.py:157-178 | a host none of whose probed files is readable is not an EC2 instance on Linux |
| Accessors.StackName | ec2_utils/instance_info.py:189-193 | `Some(stored value)` exactly when `stack_name` is present, `None` otherwise; never raises |
| Accessors.StackId | ec2_utils/instance_info.py:195-199 | `Some(stored value)` exactly when `stack_id` is present, `None` otherwise |
| Accessors.InstanceId | ec2_utils/instance_info.py:201-205 | `Some(stored value)` exactly when `instanceId` is present, `None` otherwise |
| Accessors.Region | ec2_utils/instance_info.py:207-211 | `Some(stored value)` exactly when `region` is present, `None` otherwise |
| Accessors.InitialStatus | ec2_utils/instance_info.py:213-217 | `Some(stored value)` exactly when `initial_status` is present, `None` otherwise |
| Accessors.LogicalId | ec2_utils/instance_info.py:219-223 | `Some(stored value)` exactly when `logical_id` is present, `None` otherwise |
| Accessors.AvailabilityZone | ec2_utils/instance_info.py:225-229 | `Some(stored value)` exactly when `availabilityZone` is present, `None` otherwise |
| Accessors.PrivateIp | ec2_utils/instance_info.py:231-235 | `Some(stored value)` exactly when `privateIp` is present, `None` otherwise |
| Accessors.Tag | ec2_utils/instance_info.py:237-241 | `None` when there are no tags or none named `name`, the tag value otherwise |
| Accessors.StackDataDict | ec2_utils/instance_info.py:325-327 | the stack data when stored, `None` otherwise |
| Accessors.StackData | ec2_utils/instance_info.py:329-333 | the stack value `name`, or `''` when the stack data or the name is missing |
| Accessors.StackDataOfStrings | ec2_utils/instance_info.py:329-333 | on stack data stored as strings, `stack_data(name)` is the stored string, or `''` for an unknown name |
| Regions.GlobalRegion | ec2_utils/instance_info.py:124-141 | `region()` is a string unless it is the instance's own region passed on (on EC2); off EC2 it is always a string; an empty answer can come only from the variable or the instance |
| Regions.SetRegion | ec2_utils/instance_info.py:117-122 | an already-set variable leaves the environment as it is; a successful call leaves the variable set and every other variable unchanged |
| Regions.ExportRegion | ec2_utils/instance_info.py:121-122 | assigning the region variable succeeds exactly for a string and changes only that variable |
| Regions.RegionPrecedence | ec2_utils/instance_info.py:124-141 | environment variable over a non-empty session region over the instance region on EC2 over `eu-west-1`; lower sources cannot change a higher one's answer |
| Regions.SetRegionFailsOnlyWithoutInstanceRegion | ec2_utils/instance_info.py:117-141 | given the instance region `region()` obtains, `set_region()`'s export raises iff the variable is unset, there is no session region, the host is EC2 and that instance region is not a string |
| Regions.SetRegionKeepsExisting | ec2_utils/instance_info.py:117-122 | `set_region()` leaves an already-set environment unchanged |
| Regions.SetRegionPreservesRegion | ec2_utils/instance_info.py:117-141 | a successful `set_region()` adds only the region variable; `region()` answers the same afterwards; a second call changes nothing |
| Stacks.StackJson | ec2_utils/instance_info.py:347-373 | the full stack is the SDK's stack dictionary: its keys are exactly the other fields plus each of `CreationTime`, `LastUpdatedTime`, `Parameters` and `Outputs` the stack has; the other fields are kept, the timestamps become formatted strings, and `Parameters` and `Outputs` hold every parameter and output with all their fields |
| Stacks.ItemJson | ec2_utils/instance_info.py:347-348 | a stored parameter or output keeps all its SDK fields beside its key and value |
| Stacks.Listed | ec2_utils/instance_info.py:377-382 | the parameters or outputs folded into the data are read as their key/value pairs, one per item and in order |
| Stacks.Flatten | ec2_utils/instance_info.py:374-383 | the flattened data is the right-biased union of the resources' fold, the parameters' fold and the outputs' fold |
| Stacks.StackLookupSpec | ec2_utils/instance_info.py:338-383 | without a stack the lookup is `({}, {})` and no resource call is made; the stack loop's call count is the retry specification's |
| Stacks.StackParamsAndOutputsAndStack | ec2_utils/instance_info.py:338-383 | the two retry loops and three filling loops return the data, full stack and call counts of the lookup specification |
| Stacks.FlattenKeys | ec2_utils/instance_info.py:374-383 | the flattened keys are exactly the resource logical ids, parameter keys and output keys |
| Stacks.FlattenOutputWins | ec2_utils/instance_info.py:380-382 | a key that is an output gets the value of its last output |
| Stacks.FlattenParameterWins | ec2_utils/instance_info.py:377-382 | a key that is a parameter and no output gets the value of its last parameter, beating any resource |
| Stacks.FlattenResourceKept | ec2_utils/instance_info.py:374-382 | a logical id that is neither a parameter nor an output keeps its physical id |
| Stacks.StackNotFound | ec2_utils/instance_info.py:345-356 | a `ClientError` from `describe_stacks` gives `({}, {})` and no `describe_stack_resources` call |
| Stacks.StackUnreachable | ec2_utils/instance_info.py:345-356 | ten connection errors from `describe_stacks` give `({}, {})` after ten calls and no `describe_stack_resources` call |
| Stacks.ResourcesRefused | ec2_utils/instance_info.py:357-383 | a `ClientError` from `describe_stack_resources` ends its loop and leaves only parameter and output entries |
| Stacks.CallsBounded | ec2_utils/instance_info.py:345-366 | at most 10 `describe_stacks` calls and at most 3 `describe_stack_resources` calls |
| Instance.Fresh | ec2_utils/instance_info.py:250-251 | the definition of a usable cache: the file exists and is less than 900 s old |
| Instance.Loaded | ec2_utils/instance_info.py:250-255 | a non-empty snapshot after the cache step comes only from a fresh cache that parsed to it; a stale or missing cache leaves `{}` |
| Instance.RebuildSpec | ec2_utils/instance_info.py:256-288 | a successful rebuild from an identity document has exported its string region and keeps all its keys plus `Tags`, with every value other than `Tags`, `stack_name`, `stack_id`, `StackData` and `FullStackData` unchanged; without a document it is `{}` and the environment is untouched; only the tag exhaustion raises after the export, and it carries the exported environment |
| Instance.FinalPass | ec2_utils/instance_info.py:312-323 | the final pass raises exactly when the region is truthy and not a string, leaving the environment untouched |
| Instance.InitSpec | ec2_utils/instance_info.py:249-323 | the constructor raises only during a rebuild or on a non-string region; off EC2 without a usable cache it yields `{}` and leaves the environment untouched |
| Instance.FinalPassProperties | ec2_utils/instance_info.py:314-323 | the final pass changes only the three identifiers and `initial_status`; each identifier takes its tag value when the tag is there and keeps its stored value otherwise; `initial_status` is `FullStackData.StackStatus` when present and is kept otherwise |
| Instance.FinalPassExportsRegion | ec2_utils/instance_info.py:312-313 | a truthy region is a string and is exported; otherwise the environment is untouched |
| Instance.InitTagsWin | ec2_utils/instance_info.py:249-323 | after construction the `aws:cloudformation:*` tags decide `stack_name()`, `stack_id()` and `logical_id()`, and `initial_status()` equals `FullStackData.StackStatus` |
| Instance.InitExportsRegion | ec2_utils/instance_info.py:312-313 | after construction a truthy region is a string held by `AWS_DEFAULT_REGION` |
| Instance.InitUsesFreshCache | ec2_utils/instance_info.py:250-256 | a fresh, parseable, non-empty cache is used as it is, whatever the host and the services would say |
| Instance.InitCacheMiss | ec2_utils/instance_info.py:250-258 | a missing, stale or unparseable cache, or one holding `{}`, leads to a rebuild on EC2, and to an empty snapshot elsewhere |
| Instance.RebuildTagsRefused | ec2_utils/instance_info.py:260-283 | a `ClientError` from `describe_tags` gives the identity document plus an empty tag map and no stack lookup |
| Instance.RebuildTagsExhausted | ec2_utils/instance_info.py:260-278 | twenty connection errors from `describe_tags` make the constructor raise, with the instance's region already exported to `AWS_DEFAULT_REGION` |
| Instance.RebuildTagLastWins | ec2_utils/instance_info.py:266-278 | `tag(key)` after a rebuild is the value of the key's last occurrence in the tag list |
| Instance.RebuildStoresStackData | ec2_utils/instance_info.py:279-286 | a non-empty stack-name tag makes the snapshot hold that name, the flattened stack data and the full stack |
| Instance.InstanceInfo.constructor | ec2_utils/instance_info.py:187 | a new instance starts from the class default `{}` |
| Instance.InstanceInfo.Init | ec2_utils/instance_info.py:249-323 | the constructor body yields the snapshot and environment of `InitSpec`, or its exception together with the environment it leaves |
| Instance.InstanceInfo.Rebuild | ec2_utils/instance_info.py:256-288 | the rebuild yields the snapshot and environment of `RebuildSpec`, or its exception together with the environment it leaves |
| Instance.InstanceInfo.Finish | ec2_utils/instance_info.py:312-323 | the final pass mutates the snapshot into `FinalPass` of the old one |

## Left out

- `get_retry`: HTTP through a urllib3 retry adapter. The identity fetch is an input: a document, a connection error, or malformed JSON.
- `get_userdata`: HTTP I/O. It also refers to `USER_DATA_URL`, which is never defined.
- `wait_net_service`: sockets and wall-clock timeouts. Its result is the boolean `metadataReachable`.
- `ec2`, `session`, `resolve_account`: SDK client singletons and an STS call. The session region is an input to `region()`. The region and instance id passed to the SDK calls are not modelled, because the call outcomes are scripted.
- Cache writing, the directory fallback and `chmod`: filesystem side effects. (`expanduser` and `stat` are not imported in the source.)
- `clear_cache`: it calls `self.__init__(self)` with an extra argument, so it raises instead of rebuilding.
- `__str__` and JSON serialisation: no model of JSON text.
- Timestamp formatting (`strftime`, `dthandler`): the caller supplies it as `fmt`.
- `time.sleep`: no effect on results. Clock values are whole seconds.
- The Windows branch of `is_ec2`: a WMI call. Its `PrimaryOwnerName` is the `Host.windowsOwner` input. On other platforms `is_ec2` returns `None`, which is modelled as false.
- Sharing of the class-level `_info` between instances. A new instance starts from `{}`, which is also what the class dictionary always holds.
- Retries.OutcomeAt: a call past the end of an outcome script counts as a connection error.
- Accessors.Member: `in` and indexing on a JSON value that is not an object count as "key absent". Python would test string or list membership, or raise. Only a hand-edited cache file can hold such values.
- JsonValue.Json: numbers are integers, with no floating point.
- Regions.GlobalRegion: the instance region is an input. Building an `InstanceInfo` inside `region()` (line 137) also exports the region; that effect is not modelled. Neither is an exception from that nested constructor (lines 259, 261, 262, 276, 313), nor the environment it leaves: `region()` then raises instead of answering.
- Regions.SetRegionFailsOnlyWithoutInstanceRegion: the "raises iff" covers only the export at line 122. On EC2 the nested `InstanceInfo()` inside `region()` can raise first; for example, twenty `describe_tags` connection errors raise at line 276 with `AWS_DEFAULT_REGION` already set by line 262. That path is not modelled.
- Stacks.StackParamsAndOutputsAndStack: an empty `Stacks` list (`IndexError`) and entries missing their key fields (`KeyError`) are not modelled. A successful SDK response is always a non-empty dictionary, so it always ends its loop.
- Instance.InstanceInfo.Init: a cache file (`json.load`, line 253) or identity document (`json.loads`, line 261) that parses to something other than an object (`null`, a list, a string) is not modelled; the parse result is an object or a failure. On a host that is not EC2, a cache file holding `null` would make line 312 raise a `TypeError`. Exceptions other than those listed in `InitError` are not modelled either.
- ec2_utils/s3.py and setup.py: not part of this model.
