# Tencent Cloud provider: SCF function, GAAP layer-4 listener, Anti-DDoS helpers

This project models the decision logic of three parts of the Terraform
provider for Tencent Cloud, and proves properties of that logic.

- **`tencentcloud_scf_function`** (`ScfFunction.dfy`). This covers:
  - the name validator;
  - the `mem_size` ladder;
  - stripping the app id from a COS bucket name;
  - the `<namespace>+<name>` resource id;
  - COS trigger names;
  - how Create assembles the function and which calls it issues;
  - how Read and Delete treat the id;
  - the change lists Update builds, and the calls it issues in order.
- **`tencentcloud_gaap_layer4_listener`** (`GaapLayer4Listener.dfy`). This covers:
  - the rules Create and Update enforce;
  - the realserver list;
  - the key that identifies a `realserver_bind_set` element;
  - how Read chooses between the TCP and the UDP listener, and the UDP defaults;
  - the attributes Update sends.
- **`AntiddosService`** (`Antiddos.dfy`). This covers:
  - the offset/limit pagination loop shared by the `DescribeList*` methods;
  - the `Create*` methods that check each entry and send one request per
    entry, in order.
- Shared pieces:
  - `Strings.dfy` holds Go's `strings.Split`/`strings.Join` with a
    one-character separator, and `%d` formatting.
  - `Changes.dfy` holds the "append the attribute if `d.HasChange`" change
    list.
  - `Runs.dfy` holds the shape shared by the SCF Create and the Anti-DDoS
    `Create*` methods: checks and requests run in order, stopping at the
    first rejected check or failed request.
  - `Wrappers.dfy` holds `Option`/`Result`.

Every remote call is an oracle passed in as a parameter, with its
`resource.Retry` loop folded in. A GAAP create call yields the new id or
fails (`created`). Any other call succeeds or fails (`succeeds`). A page of a
listing is `fetch(offset, limit)`. The methods return the sequence of calls
they issued together with the error they return. Contracts can then state the
order of the calls and the early exits.

Inputs that the model takes as parameters:

- the planned resource data and what `d.HasChange` reports (`changed`);
- `helper.CheckIfSetTogether` (`together`);
- reading the zip file (`readZip`);
- `unicode.IsLetter`/`IsNumber`.

## Model

| member | source | states |
|---|---|---|
| ScfFunction.ValidateName | tencentcloud/resource_tc_scf_function.go:50-79 | An empty name panics (`runes[0]`). Otherwise at most one error is reported. A name is accepted iff it starts with a letter, does not end in `-` or `_`, and every rune is a letter, a digit, `-`, `_`, or `.` when dots are allowed. |
| ScfFunction.DotOnlyWidens | tencentcloud/resource_tc_scf_function.go:65-75 | Allowing dots only widens what is accepted. A name accepted with dots allowed but rejected without them contains a `.` that is neither a letter nor a number. |
| ScfFunction.MemSizeLadder | tencentcloud/resource_tc_scf_function.go:124-136 | `mem_size` is accepted iff it is one of 128, 256, …, 1536. That is, 128·k for k in 1..12. |
| ScfFunction.StripAppIdSpec | tencentcloud/resource_tc_scf_function.go:501-509 | The stripped bucket name is a prefix of the name. A name without `-` is unchanged. Otherwise the last `-` and everything after it are removed. |
| ScfFunction.ParseFormatId | tencentcloud/resource_tc_scf_function.go:627 | The id formatted by Create parses back to (namespace, name) iff neither part contains `+`. |
| ScfFunction.FormatParseId | tencentcloud/resource_tc_scf_function.go:702-709 | Any id that Read, Update or Delete accepts (two `+`-separated pieces) is the formatting of the pair it parses to. |
| ScfFunction.CreatedIdParses | tencentcloud/resource_tc_scf_function.go:627 | For a name the validator accepts and a namespace without `+`, the created id always parses back. |
| ScfFunction.CosTriggerNameInjective | tencentcloud/resource_tc_scf_function.go:656-657 | Within one region, distinct COS trigger names stay distinct after `<name>.cos.<region>.myqcloud.com` is formed. |
| ScfFunction.BuildTriggers | tencentcloud/resource_tc_scf_function.go:645-665 | When the region is required, a COS trigger without `cos_region` makes the build fail with that error. Otherwise every trigger is converted in order, and COS triggers are renamed. |
| ScfFunction.DerivePublicNet | tencentcloud/resource_tc_scf_function.go:531-560 | EIP without public net is an error. Otherwise a public-net config exists iff `enable_public_net` is set, and its EIP is enabled iff `enable_eip_config` is set. |
| ScfFunction.PrepareCreate | tencentcloud/resource_tc_scf_function.go:456-619 | The request is built iff all six checks pass: vpc/subnet together, cls ids together, no EIP without public net, a readable zip file, some code source, and COS fields together when the code is COS. A failure reports the first check that fails, in that order. An unreadable zip, a missing code source and COS fields not set together are each reported iff the checks before them pass and that one fails. The code type follows the precedence image > zip > COS. The request carries the stripped bucket, the first image config and the public-net settings. |
| ScfFunction.Create | tencentcloud/resource_tc_scf_function.go:456-689 | Up to the final Read (see Left out). Create is its checks followed by its calls, run in order and stopped at the first failure. No call is made iff a check fails, and then the first failing check is reported and no id is set. Otherwise the first call is the create, and the id is set to `<namespace>+<name>` iff that call succeeded. The calls are a prefix of the plan: create, wait, L5 when asked, the triggers when there are some, describe, and the tags when there are some. Every call but the last succeeded, and a failed call is the error. There is no error iff every check passes, every trigger has its COS region and every planned call succeeds. The missing-region error is returned iff the checks pass, some COS trigger lacks its region and the create, wait and L5 calls succeed; the calls are then exactly those. |
| ScfFunction.Provision | tencentcloud/resource_tc_scf_function.go:621-691 | From the create call on: the id is set iff the create succeeds. The calls are a prefix of the plan and equal it when there is no error. The only check left, the COS trigger region, stops the run right after the create, wait and L5 calls. |
| ScfFunction.AwaitReady | tencentcloud/resource_tc_scf_function.go:629-691 | Waiting for the function comes first. A failed wait ends Create. The calls that follow are the rest of the plan, as for Provision. |
| ScfFunction.SwitchOnL5 | tencentcloud/resource_tc_scf_function.go:634-691 | The L5 call is made iff `l5_enable` is set, and its failure ends Create. The triggers and the tail follow. |
| ScfFunction.AttachTriggers | tencentcloud/resource_tc_scf_function.go:645-671 | With triggers, a COS trigger without a region is rejected before any trigger call. This error is returned iff some trigger lacks its region. Otherwise one call creates all triggers, in order and with COS names rewritten. Without triggers, nothing is done. |
| ScfFunction.DescribeAndTag | tencentcloud/resource_tc_scf_function.go:673-685 | The function is looked up, then tagged iff it has tags. The calls stop at the first failure and there is no error iff both calls succeed. |
| ScfFunction.ReadIdStep | tencentcloud/resource_tc_scf_function.go:702-719 | The id is cleared, without an error, iff it does not parse or the function is not found. A kept id is the formatting of the pair it parses to. |
| ScfFunction.UpdateCode | tencentcloud/resource_tc_scf_function.go:822-921 | COS fields not set together are rejected first. Then, with those set together, an unreadable zip is rejected. Either rejection comes before any call. When both checks pass, the calls are exactly the planned ModifyFunctionCode (none if no code attribute changed), whose request CodeCallAttrs describes. There is no error iff the checks pass and that call succeeds. |
| ScfFunction.CollectCodeChange | tencentcloud/resource_tc_scf_function.go:822-878 | The error is exactly the first failing code check: COS fields not set together, then an unreadable zip file. With no error, the collected list is the changed code attributes in source order and the zip content is the file read, when one is named. |
| ScfFunction.UpdateConfig | tencentcloud/resource_tc_scf_function.go:923-1039 | vpc/subnet not set together is rejected first, then cls ids not set together, then EIP without public net. Each rejection comes before any call. When all three checks pass, the calls are exactly the planned ModifyFunctionConfig, whose request ConfigCallAttrs describes. There is no error iff the checks pass and that call succeeds. |
| ScfFunction.CollectConfigChange | tencentcloud/resource_tc_scf_function.go:929-1028 | The error is exactly the first failing configuration check: vpc/subnet, then cls ids, then EIP without public net. With no error, the collected list is the changed configuration attributes in source order, and the public-net block is the one sent. |
| ScfFunction.UpdateTriggers | tencentcloud/resource_tc_scf_function.go:1041-1090 | The first call deletes all old triggers, and its failure ends the step. After a successful delete, a new COS trigger without a region ends the step with that error, before the create call. This is the only way that error arises. Otherwise the new triggers are created. No error means both calls were made and succeeded. |
| ScfFunction.UpdateTags | tencentcloud/resource_tc_scf_function.go:1092-1112 | The function is looked up, then its tags are modified. The calls stop at the first failure. |
| ScfFunction.Update | tencentcloud/resource_tc_scf_function.go:796-1115 | Up to the final Read (see Left out). An unparsable id is cleared without an error. Otherwise the calls are a prefix of the code, configuration, trigger and tag plan. With no error they are the whole plan and every check passed. A failing check stops Update where it is made: a code check before any call; a configuration check right after the code call, which succeeded; the trigger region check right after the code and configuration calls and the trigger delete, all successful. The error is that check's, and conversely a check's error is returned only in those positions, so a failed call always ends Update before any later check. The missing-region error is returned iff the checks before it pass, those calls succeed and a new COS trigger lacks its region. Every error is justified by the inputs. Every call but the last succeeded, and the last succeeded too unless it is the error. Checks that pass plus planned calls that succeed give no error. |
| ScfFunction.UpdateLater | tencentcloud/resource_tc_scf_function.go:923-1112 | Update after the code step: configuration, then triggers and tags when they changed. The same prefix, error and check-position guarantees as Update, for that part of the plan. |
| ScfFunction.UpdateTriggersAndTags | tencentcloud/resource_tc_scf_function.go:1041-1112 | Update after the configuration: the trigger replacement when triggers changed, then the tag calls when tags changed. The calls are a prefix of that plan, and the whole plan when there is no error. The missing-region error arises iff triggers changed, the delete succeeded and a new COS trigger lacks its region; then the delete is the only call. Any other error is a failed call. |
| ScfFunction.NothingPlannedWhenNothingChanged | tencentcloud/resource_tc_scf_function.go:822-1112 | Update plans no call iff none of the attributes it looks at changed. |
| ScfFunction.CodeCallAttrs | tencentcloud/resource_tc_scf_function.go:822-920 | A planned code modification names exactly the changed code attributes. That list is `updateAttrs`: it is not sent, it only decides whether the call is made and which attributes are marked partial afterwards. The request sends the handler always. It sends the stripped bucket, object name, bucket region and zip content whenever they are set, changed or not. It sends the first image configuration only when image_config changed and is not empty. |
| ScfFunction.ConfigCallAttrs | tencentcloud/resource_tc_scf_function.go:923-1038 | A planned configuration modification names exactly the changed configuration attributes. As for code, that list only gates the call and names the attributes marked partial. The request sends the vpc, subnet and cls ids whenever they are set. It sends the L5 switch only when it changed. It sends the public-net block iff public net is enabled: status enabled, with EIP enabled iff enable_eip_config. |
| ScfFunction.Delete | tencentcloud/resource_tc_scf_function.go:1119-1135 | An unparsable id is left alone without an error. Otherwise exactly one delete call is made for the parsed pair, and the method fails iff that call fails. |
| Strings.JoinSplit | tencentcloud/resource_tc_scf_function.go:505-507 | Joining the pieces of `strings.Split` with the same separator gives back the original string. |
| Strings.SplitJoin | tencentcloud/resource_tc_scf_function.go:703 | Splitting a join of separator-free pieces gives the pieces back. |
| Strings.SplitConcat | tencentcloud/resource_tc_gaap_layer4_listener.go:151 | The pieces of `x + sep + y` are the pieces of x followed by the pieces of y. |
| Strings.DigitsInjective | tencentcloud/resource_tc_gaap_layer4_listener.go:151 | Different naturals format to different `%d` strings. |
| Changes.ChangedInMembers | tencentcloud/resource_tc_scf_function.go:824-858 | An attribute is in the change list iff it is in the checked order and it changed. |
| Changes.ChangedInEmpty | tencentcloud/resource_tc_gaap_layer4_listener.go:437-470 | The change list is empty iff none of the checked attributes changed. |
| GaapLayer4Listener.CreateRejectionSpec | tencentcloud/resource_tc_gaap_layer4_listener.go:212-241 | Create rejects iff one of its four rules is broken: TCP+DOMAIN+wrr, UDP with health check, TCP timeout not below interval, or rr with a weight other than 1. The error reported names a broken rule, and TCP+DOMAIN+wrr is reported iff that rule is broken. The TCP-only rules never reject UDP. |
| GaapLayer4Listener.BuildRealservers | tencentcloud/resource_tc_gaap_layer4_listener.go:232-250 | The build fails iff the scheduler is rr and some weight is not 1. Otherwise it returns every bind unchanged, in order. |
| GaapLayer4Listener.Create | tencentcloud/resource_tc_gaap_layer4_listener.go:198-280 | Up to the final Read (see Left out). A rejection issues no call. Otherwise the first call is the protocol's create. The id is what the create returned. The realservers are bound iff the create succeeded and there are some. Create succeeds iff no rule is broken, the create succeeds and the bind, when made, succeeds. |
| GaapLayer4Listener.BindKeyInjective | tencentcloud/resource_tc_gaap_layer4_listener.go:149-152 | For ips without `-` and non-negative port and weight, two binds have the same set key iff they are equal, even when ids contain `-`. |
| GaapLayer4Listener.BindKeyAmbiguousForDomains | tencentcloud/resource_tc_gaap_layer4_listener.go:149-152 | With domain-name ips, two different binds can share a key. |
| GaapLayer4Listener.ReadOutcomeSpec | tencentcloud/resource_tc_gaap_layer4_listener.go:320-395 | TCP takes precedence over UDP. The resource is gone iff neither listener exists. UDP reads back health check off, timeout 2, interval 5 and client-ip method 0. Nil health check or create time is an error. |
| GaapLayer4Listener.ReadListener | tencentcloud/resource_tc_gaap_layer4_listener.go:284-411 | A failed TCP describe fails Read first, then a failed UDP describe does, even when a TCP listener exists. Otherwise the outcome is the choice made on the first listener of each kind. |
| GaapLayer4Listener.ReadAfterCreate | tencentcloud/resource_tc_gaap_layer4_listener.go:198-411 | A listener that Create accepted, stored as configured, reads back with its protocol, name, realservers and health check. A TCP listener also reads back its timing. |
| GaapLayer4Listener.Update | tencentcloud/resource_tc_gaap_layer4_listener.go:413-508 | Up to the final Read (see Left out). Enabling health check on UDP is rejected first, then a TCP timeout not below the interval. The calls are a prefix of the planned modify and rebind. There is no error iff the checks pass and every planned call succeeds. |
| GaapLayer4Listener.ModifyPlannedIffChanged | tencentcloud/resource_tc_gaap_layer4_listener.go:437-486 | The modify call is planned iff one of the five attributes changed. It carries a new name, scheduler or health check iff that attribute changed. |
| GaapLayer4Listener.UpdateSkipsRrWeightRule | tencentcloud/resource_tc_gaap_layer4_listener.go:488-503 | Unlike Create, Update sends a rebind with weight 2 under rr without complaint. |
| GaapLayer4Listener.Delete | tencentcloud/resource_tc_gaap_layer4_listener.go:512-527 | Exactly one delete call is made, and the method fails iff it fails. |
| Antiddos.FirstShort | tencentcloud/service_tencentcloud_antiddos.go:47-53 | The page where the loop stops has only full pages before it and is itself not full. |
| Antiddos.FirstShortUnique | tencentcloud/service_tencentcloud_antiddos.go:47-53 | The stopping page is the only page with that property, whichever page witnessed termination. |
| Antiddos.DescribeList | tencentcloud/service_tencentcloud_antiddos.go:21-54 | Offset 0, then offset + limit after every full page. The method fails iff the stopping page failed. The result is the in-order concatenation of the pages up to the stopping page, and a failed page adds nothing. The same loop, with only the request and response types changed, is in DescribeListPortAclList (116-151), DescribeListPacketFilterConfig (311-346), DescribeListDDoSAI (380-415), DescribeListDDoSSpeedLimitConfig (468-503), DescribeListDDoSGeoIPBlockConfig (556-591), DescribeListProtocolBlockConfig (593-628) and DescribeDDoSConnectLimitList (630-665). |
| Antiddos.ListedFull | tencentcloud/service_tencentcloud_antiddos.go:47-53 | n full pages list at least n·limit items. |
| Antiddos.StoreListedWhole | tencentcloud/service_tencentcloud_antiddos.go:21-54 | Over a fixed store with a positive limit, the loop stops without failure at page ⌊size/limit⌋ and lists the whole store. |
| Runs.RunSpec | tencentcloud/service_tencentcloud_antiddos.go:153-204 | For a run of checks and requests stopped at the first failure (an entry-by-entry Anti-DDoS Create, or an SCF Create): the calls are the requests before the first blocked step, in order, plus that step's request if the request itself failed. There is no error iff no step is blocked. Otherwise the error is the blocked step's. |
| Antiddos.CreateIpBlackWhite | tencentcloud/service_tencentcloud_antiddos.go:58-114 | The black list is sent if non-empty, then the white list if non-empty. Every IP goes out with mask 0. A failure stops the method. |
| Antiddos.MaskSegments | tencentcloud/service_tencentcloud_antiddos.go:62-67 | Every IP becomes a segment with mask 0, in order. |
| Antiddos.BlackFailureSkipsWhite | tencentcloud/service_tencentcloud_antiddos.go:70-89 | A failed black-list request ends the method without sending the white list. |
| Antiddos.BlackWhiteEmpty | tencentcloud/service_tencentcloud_antiddos.go:70-112 | With both lists empty, nothing is sent and no error is returned. |
| Antiddos.CreatePortAcl | tencentcloud/service_tencentcloud_antiddos.go:153-204 | Entries are processed in order. Each is checked and then sent. The first rejected or failed entry ends the method, after the earlier entries were submitted. |
| Antiddos.PortAclStepSpec | tencentcloud/service_tencentcloud_antiddos.go:157-171 | For ports in uint64 range, an entry is rejected iff a range is reversed, and the destination range is reported first. A sent entry carries its own ports. |
| Antiddos.PortAclNegativeStartWraps | tencentcloud/service_tencentcloud_antiddos.go:157 | A start port of -1 wraps to 2^64-1 under the uint64 conversion, so the entry is rejected. |
| Antiddos.CreatePacketFilter | tencentcloud/service_tencentcloud_antiddos.go:247-309 | One request per entry, in order, with `is_include` sent as `IsNot`. The first failure is returned. This is the corrected behaviour; see Findings. |
| Antiddos.PacketFilterAsWritten | tencentcloud/service_tencentcloud_antiddos.go:274-306 | As written, the method never returns an error: it panics exactly when some request fails. |
| Antiddos.PacketFilterFailurePanics | tencentcloud/service_tencentcloud_antiddos.go:274-306 | A single failing entry panics as written. The corrected method returns that request's failure. |
| Antiddos.CreateAIProtection | tencentcloud/service_tencentcloud_antiddos.go:348-378 | An empty switch sends nothing. Otherwise one request is sent for the instance. |
| Antiddos.AIProtectionSpec | tencentcloud/service_tencentcloud_antiddos.go:351-378 | An empty switch is a no-op without an error. A non-empty one is exactly one request, and the method fails iff that request fails. |
| Antiddos.BuildSpeedValues | tencentcloud/service_tencentcloud_antiddos.go:424-431 | Every speed value becomes a uint64 (type, value) pair, in the same order. |
| Antiddos.CreateDDoSSpeedLimitConfig | tencentcloud/service_tencentcloud_antiddos.go:417-466 | One request per entry, in order, stopping at the first failure. |
| Antiddos.SpeedLimitCarriesValues | tencentcloud/service_tencentcloud_antiddos.go:424-441 | Each issued request carries its entry's speed values, pair by pair. |
| Antiddos.GeoIPStepSpec | tencentcloud/service_tencentcloud_antiddos.go:520-534 | An entry is rejected iff it is "customized" with no areas. A sent entry carries an area list iff it is "customized", and that list is the entry's own areas. |
| Antiddos.CreateDDoSGeoIPBlockConfig | tencentcloud/service_tencentcloud_antiddos.go:505-554 | One request per entry, in order. A customized entry without areas is rejected before its request. The first rejection or failure is returned. This is the corrected behaviour; see Findings. |
| Antiddos.GeoIPAsWritten | tencentcloud/service_tencentcloud_antiddos.go:516-552 | As written, the method never returns an error: it panics exactly when some entry is rejected or its request fails. |
| Antiddos.GeoIPCustomizedWithoutAreasPanics | tencentcloud/service_tencentcloud_antiddos.go:524-528 | A customized entry without areas panics as written, without any request. The corrected method returns the missing-area-list error. |
| Antiddos.EmptyMappingIsNoOp | tencentcloud/service_tencentcloud_antiddos.go:249-251 | An empty block sends nothing and returns no error. This holds for port ACL, packet filter, speed limit and GeoIP. |

## Left out

- SDK calls, `resource.Retry` with its timeouts, `ratelimit.Check` and the
  `InternalError.ClusterNotFound` special case are not modelled. Each remote
  call and its retries is one success-or-failure oracle, so a ClusterNotFound
  that the source treats as success is simply a successful call.
- Logging, `d.Partial`, `time.Sleep`, `gaapActionMu` locking and
  `logElapsed` are not modelled. The `d.SetPartial` calls themselves are not
  modelled either. The attributes they mark are the `partialAttrs` list
  carried by each SCF modify call.
- Reading the zip file from disk (homedir expansion, open, read, base64) is
  one `readZip` parameter. Its three error messages become one
  `ZipUnreadable` error.
- Helpers whose source is not part of this model are taken as parameters or
  as assumptions:
  - `helper.CheckIfSetTogether` is the `together` parameter.
  - `DDOS_DESCRIBE_LIMIT` is the `limit` parameter.
  - `SCF_TRIGGER_TYPE_COS` is taken to be `"cos"`.
  - `validateIntegerInRange` is taken to be inclusive.
  - `bool2int64` is taken to be 1 for true and 0 for false.
- Antiddos.DescribeList: a service that answers every page full and never
  fails would make the Go loop run forever. The model requires a page that
  is short or fails (the ghost `lastPage` witness), so that case is not
  modelled.
- Antiddos.DescribeList: the offsets are unbounded naturals. The int64 and
  uint64 overflow of the Go offset after 2^63 items is not modelled.
- ScfFunction.Create, ScfFunction.Update, GaapLayer4Listener.Create and
  GaapLayer4Listener.Update stop before the Read each callback ends with
  (tencentcloud/resource_tc_scf_function.go:690 and :1116,
  tencentcloud/resource_tc_gaap_layer4_listener.go:281 and :509). That Read
  makes another describe call, which can fail, and the SCF Read can clear the
  id. So "no error" in their contracts means no error before that Read; the
  callback as a whole can still fail there.
- SCF Read: everything after the id handling (copying the response fields
  into the state, the image and layer parsing) is not modelled. Read is
  `ReadIdStep`, which keeps or clears the id.
- ScfFunction.Create: the `layers`, `type`, `description`, `mem_size`,
  `timeout`, `environment`, `runtime` and `role` fields are copied verbatim into the
  request and are not tracked.
- ScfFunction.UpdateCode: the image configuration is sent as the first
  `image_config` block, copied field by field. The model keeps the block as
  one value and does not spell out the six copied fields.
- ScfFunction.UpdateConfig: the request's `description`, `mem_size`,
  `timeout`, `runtime` and `role` (sent only when changed) and
  `environment` (always sent) are copied verbatim and are not tracked.
- ScfFunction.UpdateCode: the check `len(updateAttrs) == 0 &&
  updateAttrs[0] == "handler"` at
  tencentcloud/resource_tc_scf_function.go:907 sits inside
  `len(updateAttrs) > 0`, so it can never fire. The model has no branch
  for it.
- Tags are modelled only as "changed" / "set". The tag diff (`diffTags`) and
  the tag resource name are not modelled.
- CreateDropOption in tencentcloud/service_tencentcloud_antiddos.go is not
  part of this model.
- The GAAP listener's schema validators (port, interval and timeout ranges)
  and the SCF schema validators other than the name and `mem_size` are not
  modelled.
- The `Go int` → `uint64` conversions are modelled with 64-bit wrap-around
  (`U64`). The `int64` conversions are the identity, because Go's `int` is
  64 bits wide.

## Findings

| source | as written | input that shows it | evidently intended | confidence | as-written member | corrected member |
|---|---|---|---|---|---|---|
| tencentcloud/service_tencentcloud_antiddos.go:270-306 | `request :=` inside the retry closure shadows the outer `request`, which stays nil. The error log then calls `request.GetAction()` on nil, so any failed request panics. | one `packet_filter` entry whose CreatePacketFilterConfig request fails | return the request's error, as CreatePortAcl and CreateDDoSSpeedLimitConfig do with `request =` | high, not executed | Antiddos.PacketFilterAsWritten, Antiddos.PacketFilterFailurePanics | Antiddos.CreatePacketFilter |
| tencentcloud/service_tencentcloud_antiddos.go:515-552 | The same shadowed `request :=`. The "customized needs area_list" error is raised inside the closure before any request, and the nil-request log line then panics. | one `ddos_geo_ip_block_config` entry with `region_type = "customized"` and an empty `area_list` | return "When regionType is `customized`, must set area_list." | high, not executed | Antiddos.GeoIPAsWritten, Antiddos.GeoIPCustomizedWithoutAreasPanics | Antiddos.CreateDDoSGeoIPBlockConfig |
