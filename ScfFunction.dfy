/**
 * Decision logic of the SCF function resource (tencentcloud_scf_function):
 * the name and mem_size validators, the COS bucket and trigger names, the
 * resource id and its parse, the public-net/EIP and code-source choices, and
 * the order of checks and remote calls in Create, Update and Delete.
 *
 * Remote calls (the SCF and tag services, each behind its retry loop) are
 * modelled by an oracle `succeeds` that says whether a call finally succeeds;
 * the operations return the calls they issued, in order. Terraform's
 * `d.GetOk` on a string is "set" exactly when the string is not empty, on a
 * list exactly when the list is not empty, on a boolean exactly when it is
 * true. `helper.CheckIfSetTogether` is the oracle `together`, reading a zip
 * file is the oracle `readZip`, and `unicode.IsLetter`/`unicode.IsNumber`
 * are the predicates `isLetter`/`isNumber`.
 */
module ScfFunction {
  import opened Wrappers
  import opened Strings
  import opened Changes
  import opened Runs

  // ------------------------------------------------------------------ names

  datatype NameError = NotStartingWithLetter | BadLastRune | InvalidRune(allowDot: bool)

  /** What the name validator yields: its error list, or a run-time panic when
      the value is empty (the first rune is read without a length check). */
  datatype NameVerdict = Checked(errs: seq<NameError>) | IndexPanic

  predicate AllowedRune(isLetter: char -> bool, isNumber: char -> bool, allowDot: bool, r: char)
  {
    isLetter(r) || isNumber(r) || r == '-' || r == '_' || (r == '.' && allowDot)
  }

  /** The verdict stated rule by rule, the rune scan replaced by a quantifier. */
  function NameVerdictOf(isLetter: char -> bool, isNumber: char -> bool, allowDot: bool, value: seq<char>): NameVerdict
  {
    if |value| == 0 then IndexPanic
    else if !isLetter(value[0]) then Checked([NotStartingWithLetter])
    else if value[|value| - 1] == '-' || value[|value| - 1] == '_' then Checked([BadLastRune])
    else if exists i :: 0 <= i < |value| && !AllowedRune(isLetter, isNumber, allowDot, value[i])
    then Checked([InvalidRune(allowDot)])
    else Checked([])
  }

  /** scfFunctionValidate(allowDot) applied to one value. */
  method ValidateName(isLetter: char -> bool, isNumber: char -> bool, allowDot: bool, value: seq<char>)
    returns (v: NameVerdict)
    ensures v == NameVerdictOf(isLetter, isNumber, allowDot, value)
    ensures v.IndexPanic? <==> |value| == 0
    ensures v.Checked? ==> |v.errs| <= 1
    ensures v == Checked([]) <==>
              && |value| > 0
              && isLetter(value[0])
              && value[|value| - 1] != '-' && value[|value| - 1] != '_'
              && forall i :: 0 <= i < |value| ==> AllowedRune(isLetter, isNumber, allowDot, value[i])
  {
    if |value| == 0 {
      return IndexPanic;
    }
    if !isLetter(value[0]) {
      return Checked([NotStartingWithLetter]);
    }
    var last := value[|value| - 1];
    if last == '-' || last == '_' {
      return Checked([BadLastRune]);
    }
    var i := 0;
    while i < |value|
      invariant 0 <= i <= |value|
      invariant forall j :: 0 <= j < i ==> AllowedRune(isLetter, isNumber, allowDot, value[j])
    {
      if !AllowedRune(isLetter, isNumber, allowDot, value[i]) {
        return Checked([InvalidRune(allowDot)]);
      }
      i := i + 1;
    }
    return Checked([]);
  }

  /** Allowing '.' only widens what is accepted, and the values it adds are
      exactly those with a '.' that is neither a letter nor a number. */
  lemma DotOnlyWidens(isLetter: char -> bool, isNumber: char -> bool, value: seq<char>)
    ensures NameVerdictOf(isLetter, isNumber, false, value) == Checked([]) ==>
              NameVerdictOf(isLetter, isNumber, true, value) == Checked([])
    ensures NameVerdictOf(isLetter, isNumber, true, value) == Checked([]) &&
            NameVerdictOf(isLetter, isNumber, false, value) != Checked([]) ==>
              exists i :: 0 <= i < |value| && value[i] == '.' && !isLetter(value[i]) && !isNumber(value[i])
  {
    if NameVerdictOf(isLetter, isNumber, true, value) == Checked([]) &&
       NameVerdictOf(isLetter, isNumber, false, value) != Checked([])
    {
      var i :| 0 <= i < |value| && !AllowedRune(isLetter, isNumber, false, value[i]);
      assert AllowedRune(isLetter, isNumber, true, value[i]);
    }
  }

  // --------------------------------------------------------------- mem_size

  const MemSizeMin := 128
  const MemSizeMax := 1536
  const MemSizeStep := 128

  /** validateIntegerInRange(128, 1536): both ends included. */
  predicate MemSizeInRange(v: int)
  {
    MemSizeMin <= v <= MemSizeMax
  }

  /** The ladder closure: a size that is not a multiple of 128 is an error.
      Go's % truncates toward zero and Dafny's is Euclidean, but the two agree
      on whether the remainder is zero. */
  predicate MemSizeOnLadder(v: int)
  {
    v % MemSizeStep == 0
  }

  predicate MemSizeAccepted(v: int)
  {
    MemSizeInRange(v) && MemSizeOnLadder(v)
  }

  /** Exactly the twelve sizes 128, 256, ..., 1536 pass both validators. */
  lemma MemSizeLadder(v: int)
    ensures MemSizeAccepted(v) <==>
              v in {128, 256, 384, 512, 640, 768, 896, 1024, 1152, 1280, 1408, 1536}
  {
    if MemSizeAccepted(v) {
      var k := v / 128;
      assert v == 128 * k;
      assert 1 <= k <= 12;
      if k <= 4 {
        assert k == 1 || k == 2 || k == 3 || k == 4;
      } else if k <= 8 {
        assert k == 5 || k == 6 || k == 7 || k == 8;
      } else {
        assert k == 9 || k == 10 || k == 11 || k == 12;
      }
    }
  }

  // ------------------------------------------------------------ bucket name

  /** The COS bucket id without its "-<appid>" suffix: the last '-'-separated
      piece and its dash are dropped; a name without '-' is kept. */
  function StripAppId(bucket: string): string
  {
    var parts := Split(bucket, '-');
    if |parts| > 1 then Join(parts[..|parts| - 1], '-') else bucket
  }

  /** The stripped name is a prefix of the bucket id, and it stops exactly at
      the last '-' when there is one. */
  lemma StripAppIdSpec(bucket: string)
    ensures |StripAppId(bucket)| <= |bucket|
    ensures bucket[..|StripAppId(bucket)|] == StripAppId(bucket)
    ensures '-' !in bucket ==> StripAppId(bucket) == bucket
    ensures '-' in bucket ==>
              var n := |StripAppId(bucket)|;
              n < |bucket| && bucket[n] == '-' && '-' !in bucket[n + 1..]
  {
    var parts := Split(bucket, '-');
    SplitOnePiece(bucket, '-');
    if |parts| > 1 {
      var init, last := parts[..|parts| - 1], parts[|parts| - 1];
      assert parts == init + [last];
      JoinSnoc(init, last, '-');
      JoinSplit(bucket, '-');
      SplitPiecesFree(bucket, '-');
      var r := Join(init, '-');
      assert bucket == r + ['-'] + last;
      assert bucket[..|r|] == r;
      assert bucket[|r| + 1..] == last;
    }
  }

  // ---------------------------------------------------------------- the id

  datatype FunctionId = FunctionId(namespace: string, name: string)

  /** The resource id: "<namespace>+<name>". */
  function FormatId(namespace: string, name: string): string
  {
    namespace + "+" + name
  }

  /** strings.Split(id, "+") must give exactly two pieces. */
  function ParseId(id: string): Option<FunctionId>
  {
    var parts := Split(id, '+');
    if |parts| != 2 then None else Some(FunctionId(parts[0], parts[1]))
  }

  /** Formatting then parsing gives the pair back exactly when neither part
      contains '+'. */
  lemma {:induction false} ParseFormatId(namespace: string, name: string)
    ensures ParseId(FormatId(namespace, name)) == Some(FunctionId(namespace, name)) <==>
              '+' !in namespace && '+' !in name
  {
    assert FormatId(namespace, name) == namespace + ['+'] + name;
    SplitConcat(namespace, name, '+');
    SplitOnePiece(namespace, '+');
    SplitOnePiece(name, '+');
    if '+' !in namespace && '+' !in name {
      SplitNoSep(namespace, '+');
      SplitNoSep(name, '+');
    } else {
      assert |Split(namespace, '+') + Split(name, '+')| >= 3;
    }
  }

  /** Every id that parses is the format of its parts, and its parts hold no '+'. */
  lemma {:induction false} FormatParseId(id: string)
    requires ParseId(id).Some?
    ensures FormatId(ParseId(id).value.namespace, ParseId(id).value.name) == id
    ensures '+' !in ParseId(id).value.namespace && '+' !in ParseId(id).value.name
  {
    var parts := Split(id, '+');
    JoinSplit(id, '+');
    SplitPiecesFree(id, '+');
    assert parts[1..] == [parts[1]];
  }

  /** An accepted function name never holds '+' (a symbol, neither letter nor
      number), so the id built by Create always parses back to its parts when
      the namespace has no '+'. */
  lemma {:induction false} CreatedIdParses(isLetter: char -> bool, isNumber: char -> bool, namespace: string, name: string)
    requires !isLetter('+') && !isNumber('+')
    requires NameVerdictOf(isLetter, isNumber, false, name) == Checked([])
    requires '+' !in namespace
    ensures ParseId(FormatId(namespace, name)) == Some(FunctionId(namespace, name))
  {
    ParseFormatId(namespace, name);
  }

  // -------------------------------------------------------------- triggers

  const TriggerTypeCos := "cos"

  /** One element of the `triggers` set as configured. */
  datatype TriggerInput = TriggerInput(name: string, cosRegion: string, triggerType: string, triggerDesc: string)

  /** A trigger as sent to the SCF service. */
  datatype Trigger = Trigger(name: string, triggerType: string, triggerDesc: string)

  /** A COS trigger's name: "<bucket>.cos.<region>.myqcloud.com". */
  function CosTriggerName(name: string, region: string): string
  {
    name + ".cos." + region + ".myqcloud.com"
  }

  /** The bucket part and the region of a COS trigger name can be told apart
      once the bucket's length is known: for one region the name is injective. */
  lemma CosTriggerNameInjective(name1: string, name2: string, region: string)
    requires CosTriggerName(name1, region) == CosTriggerName(name2, region)
    ensures name1 == name2
  {
    var s := CosTriggerName(name1, region);
    assert |name1| == |name2|;
    assert s[..|name1|] == name1;
    assert s[..|name2|] == name2;
  }

  function TriggerFor(tg: TriggerInput): Trigger
  {
    Trigger(if tg.triggerType == TriggerTypeCos then CosTriggerName(tg.name, tg.cosRegion) else tg.name,
            tg.triggerType, tg.triggerDesc)
  }

  /** The trigger list built from a configured list, in order. */
  function TriggersFor(tgs: seq<TriggerInput>): seq<Trigger>
  {
    seq(|tgs|, i requires 0 <= i < |tgs| => TriggerFor(tgs[i]))
  }

  predicate MissingCosRegion(tg: TriggerInput)
  {
    tg.triggerType == TriggerTypeCos && tg.cosRegion == ""
  }

  datatype TogetherGroup = VpcSubnet | ClsLogsetTopic | CosFields

  datatype NetStatus = Enable | Disable

  datatype PublicNetConfig = PublicNetConfig(publicNetStatus: NetStatus, eipStatus: NetStatus)

  datatype ImageConfig = ImageConfig(imageType: string, imageUri: string, registryId: string,
                                     entryPoint: string, command: string, args: string)

  /** The fields of the create request that carry a decision of the provider. */
  datatype FunctionInfo = FunctionInfo(
    name: string, namespace: string, handler: string,
    vpcId: Option<string>, subnetId: Option<string>,
    clsLogsetId: Option<string>, clsTopicId: Option<string>,
    cosBucketName: Option<string>, cosObjectName: Option<string>, cosBucketRegion: Option<string>,
    zipFile: Option<string>, imageConfig: Option<ImageConfig>,
    publicNet: Option<PublicNetConfig>)

  datatype ScfAttr =
    | Handler | CosBucketName | CosObjectName | CosBucketRegion | ZipFile | ImageConfigAttr
    | Description | MemSize | Timeout | Environment | Runtime | VpcId | SubnetId | Role
    | ClsLogsetId | ClsTopicId | L5Enable | EnablePublicNet | EnableEipConfig
    | Triggers | Tags

  /** The attributes whose change makes Update modify the function's code,
      in the order checked; the segments are separated by the checks Update
      makes in between (COS fields set together, zip file readable). */
  const CodeAttrs: seq<ScfAttr> :=
    [Handler, CosBucketName, CosObjectName, CosBucketRegion] + [ZipFile] + [ImageConfigAttr]

  /** The attributes whose change makes Update modify the function's
      configuration, in the order checked; the segments are separated by the
      vpc/subnet and the cls checks. */
  const ConfigAttrs: seq<ScfAttr> :=
    [Description, MemSize, Timeout, Environment, Runtime, VpcId, SubnetId]
    + [Role, ClsLogsetId, ClsTopicId]
    + [L5Enable, EnablePublicNet, EnableEipConfig]

  /** The code attributes' change list, spelled out step by step. */
  lemma CodeAttrsWalk(changed: set<ScfAttr>)
    ensures ChangedIn(CodeAttrs, changed) ==
              [] + Pick(Handler, changed) + Pick(CosBucketName, changed) + Pick(CosObjectName, changed)
              + Pick(CosBucketRegion, changed) + Pick(ZipFile, changed) + Pick(ImageConfigAttr, changed)
  {
    var o := CodeAttrs;
    assert o[..0] == [];
    ChangedInPrefix(o, 0, changed);
    ChangedInPrefix(o, 1, changed);
    ChangedInPrefix(o, 2, changed);
    ChangedInPrefix(o, 3, changed);
    ChangedInPrefix(o, 4, changed);
    ChangedInPrefix(o, 5, changed);
    assert o[..6] == o;
  }

  /** The configuration attributes' change list, spelled out step by step. */
  lemma ConfigAttrsWalk(changed: set<ScfAttr>)
    ensures ChangedIn(ConfigAttrs, changed) ==
              [] + Pick(Description, changed) + Pick(MemSize, changed) + Pick(Timeout, changed)
              + Pick(Environment, changed) + Pick(Runtime, changed) + Pick(VpcId, changed)
              + Pick(SubnetId, changed) + Pick(Role, changed) + Pick(ClsLogsetId, changed)
              + Pick(ClsTopicId, changed) + Pick(L5Enable, changed) + Pick(EnablePublicNet, changed)
              + Pick(EnableEipConfig, changed)
  {
    var o := ConfigAttrs;
    assert o[..0] == [];
    ChangedInPrefix(o, 0, changed);
    ChangedInPrefix(o, 1, changed);
    ChangedInPrefix(o, 2, changed);
    ChangedInPrefix(o, 3, changed);
    ChangedInPrefix(o, 4, changed);
    ChangedInPrefix(o, 5, changed);
    ChangedInPrefix(o, 6, changed);
    ChangedInPrefix(o, 7, changed);
    ChangedInPrefix(o, 8, changed);
    ChangedInPrefix(o, 9, changed);
    ChangedInPrefix(o, 10, changed);
    ChangedInPrefix(o, 11, changed);
    ChangedInPrefix(o, 12, changed);
    assert o[..13] == o;
  }

  datatype ScfCall =
    | CreateFunction(info: FunctionInfo)
    | WaitFunctionReady(fid: FunctionId)
    | EnableL5(fid: FunctionId)
    | CreateTriggers(fid: FunctionId, triggers: seq<Trigger>)
    | DescribeFunction(fid: FunctionId)
    | ModifyTags(fid: FunctionId)
      /** `partialAttrs` is Update's `updateAttrs`: it is not sent, it only
          gates the call and names the attributes marked with d.SetPartial
          once the call succeeded. */
    | ModifyFunctionCode(fid: FunctionId, partialAttrs: seq<ScfAttr>, code: CodeRequest)
    | ModifyFunctionConfig(fid: FunctionId, partialAttrs: seq<ScfAttr>, config: ConfigRequest)
    | DeleteTriggers(fid: FunctionId, triggers: seq<Trigger>)
    | DeleteFunction(fid: FunctionId)

  /** The fields of Update's code request. */
  datatype CodeRequest = CodeRequest(
    handler: string, cosBucketName: Option<string>, cosObjectName: Option<string>,
    cosBucketRegion: Option<string>, zipFile: Option<string>, imageConfig: Option<ImageConfig>)

  /** The fields of Update's configuration request that the model tracks. */
  datatype ConfigRequest = ConfigRequest(
    vpcId: Option<string>, subnetId: Option<string>, clsLogsetId: Option<string>, clsTopicId: Option<string>,
    l5Enable: Option<bool>, publicNet: Option<PublicNetConfig>)

  datatype ScfError =
    | NotSetTogether(group: TogetherGroup)
    | EipNeedsPublicNet
    | ZipUnreadable(path: string)
    | NoFunctionCode
    | CosRegionRequired
    | ApiFailed(call: ScfCall)

  /** A step of Create or Update: a check that rejects before any further
      call, or a remote call whose failure is the error returned. */
  type ScfStep = Step<ScfCall, ScfError>

  function Request(c: ScfCall): ScfStep
  {
    Send(c, ApiFailed(c))
  }

  /** Remote calls made one after the other, as steps. */
  function Requests(cs: seq<ScfCall>): seq<ScfStep>
  {
    seq(|cs|, i requires 0 <= i < |cs| => Request(cs[i]))
  }

  /** Builds the trigger list sent to the service. With `requireCosRegion`
      (Create, and the new triggers of Update) a COS trigger without a region
      aborts the build; the old triggers that Update deletes are not checked. */
  method BuildTriggers(tgs: seq<TriggerInput>, requireCosRegion: bool) returns (r: Result<seq<Trigger>, ScfError>)
    ensures r.Failure? <==> requireCosRegion && exists i :: 0 <= i < |tgs| && MissingCosRegion(tgs[i])
    ensures r.Failure? ==> r.error == CosRegionRequired
    ensures r.Success? ==> |r.value| == |tgs| && forall i :: 0 <= i < |tgs| ==> r.value[i] == TriggerFor(tgs[i])
    ensures r.Success? ==> r.value == TriggersFor(tgs)
  {
    var triggers: seq<Trigger> := [];
    var i := 0;
    while i < |tgs|
      invariant 0 <= i <= |tgs|
      invariant |triggers| == i
      invariant forall j :: 0 <= j < i ==> triggers[j] == TriggerFor(tgs[j])
      invariant requireCosRegion ==> forall j :: 0 <= j < i ==> !MissingCosRegion(tgs[j])
    {
      var tg := tgs[i];
      var name := tg.name;
      if tg.triggerType == TriggerTypeCos {
        if requireCosRegion && tg.cosRegion == "" {
          return Failure(CosRegionRequired);
        }
        name := CosTriggerName(tg.name, tg.cosRegion);
      }
      triggers := triggers + [Trigger(name, tg.triggerType, tg.triggerDesc)];
      i := i + 1;
    }
    return Success(triggers);
  }

  // --------------------------------------------------- public net and EIP

  /** d.GetOk on a boolean attribute: false is the zero value, so it counts as unset. */
  function GetOkBool(b: bool): bool
  {
    b
  }

  /** d.GetOk on a string attribute: the empty string counts as unset. */
  function GetOkString(s: string): Option<string>
  {
    if s == "" then None else Some(s)
  }

  /** The public-net configuration sent on Create and Update. */
  method DerivePublicNet(enablePublicNet: bool, enableEipConfig: bool)
    returns (r: Result<Option<PublicNetConfig>, ScfError>)
    ensures r.Failure? <==> enableEipConfig && !enablePublicNet
    ensures r.Failure? ==> r.error == EipNeedsPublicNet
    ensures r.Success? ==> (r.value.Some? <==> enablePublicNet)
    ensures r.Success? && r.value.Some? ==> r.value.value.publicNetStatus == Enable
    ensures r.Success? && r.value.Some? ==> (r.value.value.eipStatus == Enable <==> enableEipConfig && enablePublicNet)
  {
    var config: Option<PublicNetConfig> := None;
    if GetOkBool(enablePublicNet) {
      config := Some(PublicNetConfig(if enablePublicNet then Enable else Disable, Disable));
    }
    if GetOkBool(enableEipConfig) {
      var eipStatus := Disable;
      if enableEipConfig {
        if !enablePublicNet {
          return Failure(EipNeedsPublicNet);
        }
        eipStatus := Enable;
      }
      config := Some(config.value.(eipStatus := eipStatus));
    }
    return Success(config);
  }

  // ------------------------------------------------------------ Create

  datatype ZipRead = ZipContent(base64: string) | ZipReadFailed

  datatype CodeType = CosCode | ZipFileCode | ImageCode

  /** The planned resource data that Create and Update read. */
  datatype FunctionConfig = FunctionConfig(
    name: string, namespace: string, handler: string,
    vpcId: string, subnetId: string, clsLogsetId: string, clsTopicId: string,
    cosBucketName: string, cosObjectName: string, cosBucketRegion: string,
    zipFile: string, imageConfigs: seq<ImageConfig>,
    enablePublicNet: bool, enableEipConfig: bool, l5Enable: bool,
    triggers: seq<TriggerInput>, hasTags: bool)

  predicate HasCosCode(cfg: FunctionConfig)
  {
    cfg.cosBucketName != "" || cfg.cosObjectName != "" || cfg.cosBucketRegion != ""
  }

  /** The code source the function is created from: every source that is set
      overrides the ones checked before it, so an image wins over a zip file,
      which wins over COS. */
  function CodeTypeFor(cfg: FunctionConfig): Option<CodeType>
  {
    if |cfg.imageConfigs| > 0 then Some(ImageCode)
    else if cfg.zipFile != "" then Some(ZipFileCode)
    else if HasCosCode(cfg) then Some(CosCode)
    else None
  }

  /** The zip file, when one is named, can be read. */
  predicate ZipReadable(cfg: FunctionConfig, readZip: string -> ZipRead)
  {
    cfg.zipFile != "" ==> readZip(cfg.zipFile).ZipContent?
  }

  /** The base64 content sent for the zip file, when one is named and read. */
  function ZipContentFor(cfg: FunctionConfig, readZip: string -> ZipRead): Option<string>
  {
    if cfg.zipFile != "" && readZip(cfg.zipFile).ZipContent? then Some(readZip(cfg.zipFile).base64) else None
  }

  /** The create request: every optional string only when it is set, the
      bucket without its app id, the first image configuration, and the
      public-net configuration. */
  function InfoFor(cfg: FunctionConfig, readZip: string -> ZipRead): FunctionInfo
  {
    FunctionInfo(cfg.name, cfg.namespace, cfg.handler,
                 GetOkString(cfg.vpcId), GetOkString(cfg.subnetId),
                 GetOkString(cfg.clsLogsetId), GetOkString(cfg.clsTopicId),
                 BucketFor(cfg), GetOkString(cfg.cosObjectName), GetOkString(cfg.cosBucketRegion),
                 ZipContentFor(cfg, readZip),
                 if |cfg.imageConfigs| > 0 then Some(cfg.imageConfigs[0]) else None,
                 PublicNetFor(cfg))
  }

  /** The checks Create makes before its first remote call, in the order it
      makes them; each is a step only when it fails. */
  function CreateChecks(cfg: FunctionConfig, together: TogetherGroup -> bool, readZip: string -> ZipRead): seq<ScfStep>
  {
    Check(together(VpcSubnet), NotSetTogether(VpcSubnet))
    + Check(together(ClsLogsetTopic), NotSetTogether(ClsLogsetTopic))
    + Check(!(cfg.enableEipConfig && !cfg.enablePublicNet), EipNeedsPublicNet)
    + Check(ZipReadable(cfg, readZip), ZipUnreadable(cfg.zipFile))
    + Check(CodeTypeFor(cfg).Some?, NoFunctionCode)
    + Check(CodeTypeFor(cfg) != Some(CosCode) || together(CosFields), NotSetTogether(CosFields))
  }

  datatype Prepared = Prepared(info: FunctionInfo, code: CodeType)

  /** The part of Create before the first remote call: fills the request
      field by field and rejects what it must, in this order: vpc_id and
      subnet_id not set together, cls ids not set together, EIP without public
      net, an unreadable zip file, no code source, COS fields not set together. */
  method PrepareCreate(cfg: FunctionConfig, together: TogetherGroup -> bool, readZip: string -> ZipRead)
    returns (r: Result<Prepared, ScfError>)
    ensures r.Success? <==> CreateChecks(cfg, together, readZip) == []
    ensures r.Success? <==>
              && together(VpcSubnet) && together(ClsLogsetTopic)
              && !(cfg.enableEipConfig && !cfg.enablePublicNet)
              && ZipReadable(cfg, readZip) && CodeTypeFor(cfg).Some?
              && (CodeTypeFor(cfg) == Some(CosCode) ==> together(CosFields))
    ensures r.Failure? ==> CreateChecks(cfg, together, readZip)[0] == Reject(r.error)
    ensures r.Success? ==> r.value == Prepared(InfoFor(cfg, readZip), CodeTypeFor(cfg).value)
    ensures !together(VpcSubnet) ==> r == Failure(NotSetTogether(VpcSubnet))
    ensures together(VpcSubnet) && !together(ClsLogsetTopic) ==> r == Failure(NotSetTogether(ClsLogsetTopic))
    ensures together(VpcSubnet) && together(ClsLogsetTopic) && cfg.enableEipConfig && !cfg.enablePublicNet ==>
              r == Failure(EipNeedsPublicNet)
    ensures r == Failure(ZipUnreadable(cfg.zipFile)) <==>
              && together(VpcSubnet) && together(ClsLogsetTopic)
              && !(cfg.enableEipConfig && !cfg.enablePublicNet)
              && cfg.zipFile != "" && readZip(cfg.zipFile).ZipReadFailed?
    ensures r == Failure(NoFunctionCode) <==>
              && together(VpcSubnet) && together(ClsLogsetTopic)
              && !(cfg.enableEipConfig && !cfg.enablePublicNet)
              && !HasCosCode(cfg) && cfg.zipFile == "" && |cfg.imageConfigs| == 0
    ensures r == Failure(NotSetTogether(CosFields)) <==>
              && together(VpcSubnet) && together(ClsLogsetTopic)
              && !(cfg.enableEipConfig && !cfg.enablePublicNet)
              && HasCosCode(cfg) && cfg.zipFile == "" && |cfg.imageConfigs| == 0 && !together(CosFields)
    ensures r.Failure? ==> !r.error.ApiFailed? && r.error != CosRegionRequired
    ensures r.Success? ==> (r.value.info.publicNet.Some? <==> cfg.enablePublicNet)
    ensures r.Success? && r.value.info.publicNet.Some? ==>
              (r.value.info.publicNet.value.eipStatus == Enable <==> cfg.enableEipConfig)
  {
    if !together(VpcSubnet) {
      return Failure(NotSetTogether(VpcSubnet));
    }
    if !together(ClsLogsetTopic) {
      return Failure(NotSetTogether(ClsLogsetTopic));
    }

    var code: Option<CodeType> := None;
    var bucketName, objectName, bucketRegion: Option<string> := None, None, None;
    if cfg.cosBucketName != "" {
      code := Some(CosCode);
      bucketName := Some(StripAppId(cfg.cosBucketName));
    }
    if cfg.cosObjectName != "" {
      code := Some(CosCode);
      objectName := Some(cfg.cosObjectName);
    }
    if cfg.cosBucketRegion != "" {
      code := Some(CosCode);
      bucketRegion := Some(cfg.cosBucketRegion);
    }

    var net := DerivePublicNet(cfg.enablePublicNet, cfg.enableEipConfig);
    if net.Failure? {
      return Failure(net.error);
    }
    assert net.value == PublicNetFor(cfg);

    var zipFile: Option<string> := None;
    if cfg.zipFile != "" {
      var content := readZip(cfg.zipFile);
      if content.ZipReadFailed? {
        return Failure(ZipUnreadable(cfg.zipFile));
      }
      code := Some(ZipFileCode);
      zipFile := Some(content.base64);
    }

    var imageConfig: Option<ImageConfig> := None;
    if |cfg.imageConfigs| > 0 {
      code := Some(ImageCode);
      imageConfig := Some(cfg.imageConfigs[0]);
    }

    if code.None? {
      return Failure(NoFunctionCode);
    }
    if code.value == CosCode && !together(CosFields) {
      return Failure(NotSetTogether(CosFields));
    }
    var info := FunctionInfo(cfg.name, cfg.namespace, cfg.handler,
                             GetOkString(cfg.vpcId), GetOkString(cfg.subnetId),
                             GetOkString(cfg.clsLogsetId), GetOkString(cfg.clsTopicId),
                             bucketName, objectName, bucketRegion, zipFile, imageConfig, net.value);
    return Success(Prepared(info, code.value));
  }

  function FidOf(cfg: FunctionConfig): FunctionId
  {
    FunctionId(cfg.namespace, cfg.name)
  }

  /** The calls Create makes before it builds the triggers: create the
      function, wait until it is ready, then enable L5 when asked to. */
  function CreateHeadCalls(info: FunctionInfo, cfg: FunctionConfig): seq<ScfCall>
  {
    [CreateFunction(info), WaitFunctionReady(FidOf(cfg))] + L5Calls(cfg)
  }

  function L5Calls(cfg: FunctionConfig): seq<ScfCall>
  {
    if cfg.l5Enable then [EnableL5(FidOf(cfg))] else []
  }

  /** The calls Create makes after the triggers: look the function up, then
      tag it when there are tags. */
  function CreateTailCalls(cfg: FunctionConfig): seq<ScfCall>
  {
    [DescribeFunction(FidOf(cfg))] + (if cfg.hasTags then [ModifyTags(FidOf(cfg))] else [])
  }

  function CreateTriggerCalls(cfg: FunctionConfig): seq<ScfCall>
  {
    if |cfg.triggers| > 0 then [CreateTriggers(FidOf(cfg), TriggersFor(cfg.triggers))] else []
  }

  /** Every call Create plans once its checks pass, in order. */
  function PlannedCreate(info: FunctionInfo, cfg: FunctionConfig): seq<ScfCall>
  {
    CreateHeadCalls(info, cfg) + CreateTriggerCalls(cfg) + CreateTailCalls(cfg)
  }

  /** Create from its first remote call on, as steps: create, wait, L5
      when asked, then with triggers the COS region check and the trigger
      call, then describe and tags when there are tags. */
  function ProvisionSteps(info: FunctionInfo, cfg: FunctionConfig): seq<ScfStep>
  {
    [Request(CreateFunction(info))] + ([Request(WaitFunctionReady(FidOf(cfg)))] + CreateL5Steps(cfg))
  }

  function CreateL5Steps(cfg: FunctionConfig): seq<ScfStep>
  {
    (if cfg.l5Enable then [Request(EnableL5(FidOf(cfg)))] else []) + CreateTriggerSteps(cfg)
  }

  function CreateTriggerSteps(cfg: FunctionConfig): seq<ScfStep>
  {
    (if |cfg.triggers| > 0
     then Check(TriggerChecksPass(cfg.triggers), CosRegionRequired)
          + [Request(CreateTriggers(FidOf(cfg), TriggersFor(cfg.triggers)))]
     else [])
    + CreateTailSteps(cfg)
  }

  function CreateTailSteps(cfg: FunctionConfig): seq<ScfStep>
  {
    [Request(DescribeFunction(FidOf(cfg)))] + CreateTagSteps(cfg)
  }

  function CreateTagSteps(cfg: FunctionConfig): seq<ScfStep>
  {
    if cfg.hasTags then [Request(ModifyTags(FidOf(cfg)))] else []
  }

  /** Create as a whole: its checks, then its calls. */
  function CreateSteps(cfg: FunctionConfig, together: TogetherGroup -> bool, readZip: string -> ZipRead): seq<ScfStep>
  {
    CreateChecks(cfg, together, readZip) + ProvisionSteps(InfoFor(cfg, readZip), cfg)
  }

  /** Create from its first remote call on, given the request PrepareCreate
      built: the id is set as soon as the function is created; the calls
      follow the plan up to the first failure, and the only check left, the
      COS trigger region, stops the run just before the trigger call. */
  method Provision(cfg: FunctionConfig, info: FunctionInfo, succeeds: ScfCall -> bool)
    returns (calls: seq<ScfCall>, id: string, err: Option<ScfError>)
    ensures Outcome(calls, err) == Run(ProvisionSteps(info, cfg), 0, succeeds)
    ensures calls != [] && calls[0] == CreateFunction(info)
    ensures id != "" <==> succeeds(calls[0])
    ensures id != "" ==> id == FormatId(cfg.namespace, cfg.name)
    ensures calls <= PlannedCreate(info, cfg)
    ensures Chained(calls, err, succeeds)
    ensures err.None? <==> TriggerChecksPass(cfg.triggers) && forall c :: c in PlannedCreate(info, cfg) ==> succeeds(c)
    ensures err.None? ==> calls == PlannedCreate(info, cfg)
    ensures err == Some(CosRegionRequired) <==>
              !TriggerChecksPass(cfg.triggers) && forall c :: c in CreateHeadCalls(info, cfg) ==> succeeds(c)
    ensures err == Some(CosRegionRequired) ==> calls == CreateHeadCalls(info, cfg)
    ensures err.Some? ==> err.value.ApiFailed? || err.value == CosRegionRequired
  {
    var fid := FidOf(cfg);
    ghost var rest := [WaitFunctionReady(fid)] + (L5Calls(cfg) + (CreateTriggerCalls(cfg) + CreateTailCalls(cfg)));
    PlannedCreateAfterCreate(info, cfg);
    var create := CreateFunction(info);
    AllSucceedCons(create, rest, succeeds);
    AllSucceedCons(create, [WaitFunctionReady(fid)] + L5Calls(cfg), succeeds);
    RunSent(create, ApiFailed(create), [Request(WaitFunctionReady(fid))] + CreateL5Steps(cfg), succeeds);
    calls, id, err := [create], "", None;
    if !succeeds(create) {
      err := Some(ApiFailed(create));
      return;
    }
    id := FormatId(cfg.namespace, cfg.name);
    var more, moreErr := AwaitReady(cfg, succeeds);
    PrefixAfter(calls, more, rest);
    ChainAppend(calls, more, moreErr, succeeds);
    calls, err := calls + more, moreErr;
  }

  /** Create once the function exists: wait until it is ready, then the rest. */
  method AwaitReady(cfg: FunctionConfig, succeeds: ScfCall -> bool) returns (calls: seq<ScfCall>, err: Option<ScfError>)
    ensures Outcome(calls, err) == Run([Request(WaitFunctionReady(FidOf(cfg)))] + CreateL5Steps(cfg), 0, succeeds)
    ensures calls <= [WaitFunctionReady(FidOf(cfg))] + (L5Calls(cfg) + (CreateTriggerCalls(cfg) + CreateTailCalls(cfg)))
    ensures Chained(calls, err, succeeds)
    ensures err.None? <==>
              TriggerChecksPass(cfg.triggers)
              && forall c :: c in [WaitFunctionReady(FidOf(cfg))] + (L5Calls(cfg) + (CreateTriggerCalls(cfg) + CreateTailCalls(cfg))) ==> succeeds(c)
    ensures err.None? ==> calls == [WaitFunctionReady(FidOf(cfg))] + (L5Calls(cfg) + (CreateTriggerCalls(cfg) + CreateTailCalls(cfg)))
    ensures err == Some(CosRegionRequired) <==>
              !TriggerChecksPass(cfg.triggers) && forall c :: c in [WaitFunctionReady(FidOf(cfg))] + L5Calls(cfg) ==> succeeds(c)
    ensures err == Some(CosRegionRequired) ==> calls == [WaitFunctionReady(FidOf(cfg))] + L5Calls(cfg)
    ensures err.Some? ==> err.value.ApiFailed? || err.value == CosRegionRequired
  {
    var wait := WaitFunctionReady(FidOf(cfg));
    RunSent(wait, ApiFailed(wait), CreateL5Steps(cfg), succeeds);
    calls, err := [wait], None;
    if !succeeds(wait) {
      err := Some(ApiFailed(wait));
      return;
    }
    var more, moreErr := SwitchOnL5(cfg, succeeds);
    PrefixAfter(calls, more, L5Calls(cfg) + (CreateTriggerCalls(cfg) + CreateTailCalls(cfg)));
    ChainAppend(calls, more, moreErr, succeeds);
    calls, err := calls + more, moreErr;
  }

  /** Create once the function is ready: L5 when asked, then the triggers. */
  method SwitchOnL5(cfg: FunctionConfig, succeeds: ScfCall -> bool) returns (calls: seq<ScfCall>, err: Option<ScfError>)
    ensures Outcome(calls, err) == Run(CreateL5Steps(cfg), 0, succeeds)
    ensures calls <= L5Calls(cfg) + (CreateTriggerCalls(cfg) + CreateTailCalls(cfg))
    ensures Chained(calls, err, succeeds)
    ensures err.None? <==>
              TriggerChecksPass(cfg.triggers)
              && forall c :: c in L5Calls(cfg) + (CreateTriggerCalls(cfg) + CreateTailCalls(cfg)) ==> succeeds(c)
    ensures err.None? ==> calls == L5Calls(cfg) + (CreateTriggerCalls(cfg) + CreateTailCalls(cfg))
    ensures err == Some(CosRegionRequired) <==>
              !TriggerChecksPass(cfg.triggers) && forall c :: c in L5Calls(cfg) ==> succeeds(c)
    ensures err == Some(CosRegionRequired) ==> calls == L5Calls(cfg)
    ensures err.Some? ==> err.value.ApiFailed? || err.value == CosRegionRequired
  {
    ghost var rest := CreateTriggerCalls(cfg) + CreateTailCalls(cfg);
    calls, err := [], None;
    if cfg.l5Enable {
      var l5 := EnableL5(FidOf(cfg));
      RunSent(l5, ApiFailed(l5), CreateTriggerSteps(cfg), succeeds);
      calls := [l5];
      if !succeeds(l5) {
        err := Some(ApiFailed(l5));
        return;
      }
    } else {
      assert CreateL5Steps(cfg) == CreateTriggerSteps(cfg);
    }
    assert calls == L5Calls(cfg);
    var more, moreErr := AttachTriggers(cfg, succeeds);
    PrefixAfter(calls, more, rest);
    ChainAppend(calls, more, moreErr, succeeds);
    calls, err := calls + more, moreErr;
  }

  /** Create's trigger part: a COS trigger without a region aborts before
      the trigger call; then the describe and tag calls. */
  method AttachTriggers(cfg: FunctionConfig, succeeds: ScfCall -> bool) returns (calls: seq<ScfCall>, err: Option<ScfError>)
    ensures Outcome(calls, err) == Run(CreateTriggerSteps(cfg), 0, succeeds)
    ensures calls <= CreateTriggerCalls(cfg) + CreateTailCalls(cfg)
    ensures Chained(calls, err, succeeds)
    ensures err.None? <==>
              TriggerChecksPass(cfg.triggers)
              && forall c :: c in CreateTriggerCalls(cfg) + CreateTailCalls(cfg) ==> succeeds(c)
    ensures err.None? ==> calls == CreateTriggerCalls(cfg) + CreateTailCalls(cfg)
    ensures err == Some(CosRegionRequired) <==> !TriggerChecksPass(cfg.triggers)
    ensures err == Some(CosRegionRequired) ==> calls == []
    ensures err.Some? ==> err.value.ApiFailed? || err.value == CosRegionRequired
  {
    calls, err := [], None;
    if |cfg.triggers| > 0 {
      var built := BuildTriggers(cfg.triggers, true);
      var createTriggers := CreateTriggers(FidOf(cfg), TriggersFor(cfg.triggers));
      if built.Failure? {
        assert CreateTriggerSteps(cfg) == [Reject(CosRegionRequired)] + ([Request(createTriggers)] + CreateTailSteps(cfg));
        RunRejected(CosRegionRequired, [Request(createTriggers)] + CreateTailSteps(cfg), succeeds);
        err := Some(built.error);
        return;
      }
      assert CreateTriggerSteps(cfg) == [Request(CreateTriggers(FidOf(cfg), built.value))] + CreateTailSteps(cfg);
      createTriggers := CreateTriggers(FidOf(cfg), built.value);
      RunSent(createTriggers, ApiFailed(createTriggers), CreateTailSteps(cfg), succeeds);
      calls := [createTriggers];
      if !succeeds(createTriggers) {
        err := Some(ApiFailed(createTriggers));
        return;
      }
    } else {
      assert CreateTriggerSteps(cfg) == CreateTailSteps(cfg);
    }
    assert calls == CreateTriggerCalls(cfg);
    var more, moreErr := DescribeAndTag(cfg, succeeds);
    PrefixAfter(calls, more, CreateTailCalls(cfg));
    ChainAppend(calls, more, moreErr, succeeds);
    calls, err := calls + more, moreErr;
  }

  /** The end of Create: look the function up, then tag it when there are tags. */
  method DescribeAndTag(cfg: FunctionConfig, succeeds: ScfCall -> bool) returns (calls: seq<ScfCall>, err: Option<ScfError>)
    ensures Outcome(calls, err) == Run(CreateTailSteps(cfg), 0, succeeds)
    ensures calls != [] && calls <= CreateTailCalls(cfg)
    ensures Chained(calls, err, succeeds)
    ensures err.None? <==> forall c :: c in CreateTailCalls(cfg) ==> succeeds(c)
    ensures err.None? ==> calls == CreateTailCalls(cfg)
    ensures err.Some? ==> err.value.ApiFailed?
  {
    var describe := DescribeFunction(FidOf(cfg));
    RunSent(describe, ApiFailed(describe), CreateTagSteps(cfg), succeeds);
    calls, err := [describe], None;
    if !succeeds(describe) {
      err := Some(ApiFailed(describe));
      return;
    }
    if cfg.hasTags {
      var tag := ModifyTags(FidOf(cfg));
      ghost var none: seq<ScfStep> := [];
      assert CreateTagSteps(cfg) == [Request(tag)] + none;
      RunSent(tag, ApiFailed(tag), none, succeeds);
      calls := calls + [tag];
      if !succeeds(tag) {
        err := Some(ApiFailed(tag));
      }
    }
  }

  /** resourceTencentCloudScfFunctionCreate up to the final Read: returns the
      remote calls issued, the id left in the state ("" when none was set) and
      the error returned. A failed check issues nothing and returns the first
      failed check's error; otherwise the function is created and the calls
      follow the plan up to the first failure. */
  method Create(cfg: FunctionConfig, together: TogetherGroup -> bool, readZip: string -> ZipRead,
                succeeds: ScfCall -> bool)
    returns (calls: seq<ScfCall>, id: string, err: Option<ScfError>)
    ensures Outcome(calls, err) == Run(CreateSteps(cfg, together, readZip), 0, succeeds)
    ensures calls == [] <==> CreateChecks(cfg, together, readZip) != []
    ensures calls == [] ==> id == "" && err == Some(CreateChecks(cfg, together, readZip)[0].error)
    ensures calls != [] ==> calls[0] == CreateFunction(InfoFor(cfg, readZip))
    ensures id != "" <==> calls != [] && succeeds(calls[0])
    ensures id != "" ==> id == FormatId(cfg.namespace, cfg.name)
    ensures calls <= PlannedCreate(InfoFor(cfg, readZip), cfg)
    ensures Chained(calls, err, succeeds)
    ensures err.None? <==>
              && CreateChecks(cfg, together, readZip) == [] && TriggerChecksPass(cfg.triggers)
              && forall c :: c in PlannedCreate(InfoFor(cfg, readZip), cfg) ==> succeeds(c)
    ensures err == Some(CosRegionRequired) <==>
              && CreateChecks(cfg, together, readZip) == [] && !TriggerChecksPass(cfg.triggers)
              && forall c :: c in CreateHeadCalls(InfoFor(cfg, readZip), cfg) ==> succeeds(c)
    ensures err == Some(CosRegionRequired) ==> calls == CreateHeadCalls(InfoFor(cfg, readZip), cfg)
  {
    ghost var checks := CreateChecks(cfg, together, readZip);
    RunAppend(checks, ProvisionSteps(InfoFor(cfg, readZip), cfg), 0, succeeds);
    var prepared := PrepareCreate(cfg, together, readZip);
    if prepared.Failure? {
      calls, id, err := [], "", Some(prepared.error);
      return;
    }
    calls, id, err := Provision(cfg, prepared.value.info, succeeds);
    assert [] + calls == calls;
  }

  // ------------------------------------------------------------ Read

  datatype ReadStep = KeepId(fid: FunctionId) | ClearId

  /** What Read does with the id before copying the response into the state:
      an id that does not parse, or a function the service does not return
      (the describe error is only logged), clears the id without an error. */
  function ReadIdStep(id: string, found: FunctionId -> bool): (step: ReadStep)
    ensures step.KeepId? ==> FormatId(step.fid.namespace, step.fid.name) == id && found(step.fid)
    ensures step.ClearId? <==> ParseId(id).None? || !found(ParseId(id).value)
  {
    var parsed := ParseId(id);
    if parsed.None? then ClearId
    else
      FormatParseId(id);
      if found(parsed.value) then KeepId(parsed.value) else ClearId
  }

  // ------------------------------------------------------------ Update

  /** The bucket name sent to the service: d.GetOk("cos_bucket_name") with the app id stripped. */
  function BucketFor(cfg: FunctionConfig): (b: Option<string>)
    ensures b.Some? <==> cfg.cosBucketName != ""
  {
    if cfg.cosBucketName == "" then None else Some(StripAppId(cfg.cosBucketName))
  }

  /** The public-net configuration Update sends once the EIP check passed. */
  function PublicNetFor(cfg: FunctionConfig): Option<PublicNetConfig>
  {
    if cfg.enablePublicNet then Some(PublicNetConfig(Enable, if cfg.enableEipConfig then Enable else Disable))
    else None
  }

  /** The image configuration the code request carries: the first one, and
      only when image_config changed and is not empty. */
  function UpdatedImageFor(cfg: FunctionConfig, changed: set<ScfAttr>): Option<ImageConfig>
  {
    if ImageConfigAttr in changed && |cfg.imageConfigs| > 0 then Some(cfg.imageConfigs[0]) else None
  }

  /** The L5 switch the configuration request carries: only when l5_enable changed. */
  function UpdatedL5For(cfg: FunctionConfig, changed: set<ScfAttr>): Option<bool>
  {
    if L5Enable in changed then Some(cfg.l5Enable) else None
  }

  /** The calls each part of Update plans to issue when its checks pass. */
  function CodeCalls(fid: FunctionId, cfg: FunctionConfig, changed: set<ScfAttr>, readZip: string -> ZipRead): seq<ScfCall>
  {
    var attrs := ChangedIn(CodeAttrs, changed);
    if attrs == [] then []
    else [ModifyFunctionCode(fid, attrs, CodeRequestFor(cfg, changed, readZip))]
  }

  /** The code request: the handler, every COS field and the zip content
      whenever they are set, and the image configuration as UpdatedImageFor says. */
  function CodeRequestFor(cfg: FunctionConfig, changed: set<ScfAttr>, readZip: string -> ZipRead): CodeRequest
  {
    CodeRequest(cfg.handler, BucketFor(cfg), GetOkString(cfg.cosObjectName), GetOkString(cfg.cosBucketRegion),
                ZipContentFor(cfg, readZip), UpdatedImageFor(cfg, changed))
  }

  /** The configuration request: the vpc, subnet and cls ids whenever they
      are set, the L5 switch only when it changed, and the public net. */
  function ConfigRequestFor(cfg: FunctionConfig, changed: set<ScfAttr>): ConfigRequest
  {
    ConfigRequest(GetOkString(cfg.vpcId), GetOkString(cfg.subnetId),
                  GetOkString(cfg.clsLogsetId), GetOkString(cfg.clsTopicId),
                  UpdatedL5For(cfg, changed), PublicNetFor(cfg))
  }

  function ConfigCalls(fid: FunctionId, cfg: FunctionConfig, changed: set<ScfAttr>): seq<ScfCall>
  {
    var attrs := ChangedIn(ConfigAttrs, changed);
    if attrs == [] then []
    else [ModifyFunctionConfig(fid, attrs, ConfigRequestFor(cfg, changed))]
  }

  function TriggerCalls(fid: FunctionId, oldTriggers: seq<TriggerInput>, newTriggers: seq<TriggerInput>): seq<ScfCall>
  {
    [DeleteTriggers(fid, TriggersFor(oldTriggers)), CreateTriggers(fid, TriggersFor(newTriggers))]
  }

  function TagCalls(fid: FunctionId): seq<ScfCall>
  {
    [DescribeFunction(fid), ModifyTags(fid)]
  }

  /** The whole sequence of calls Update plans: code, configuration,
      triggers, tags, each part only when its attributes changed. */
  function PlannedUpdate(fid: FunctionId, cfg: FunctionConfig, oldTriggers: seq<TriggerInput>,
                         changed: set<ScfAttr>, readZip: string -> ZipRead): seq<ScfCall>
  {
    CodeCalls(fid, cfg, changed, readZip) + LaterUpdateCalls(fid, cfg, oldTriggers, changed)
  }

  /** The checks of the code part: COS fields set together and a readable zip file. */
  predicate CodeChecksPass(cfg: FunctionConfig, together: TogetherGroup -> bool, readZip: string -> ZipRead)
  {
    together(CosFields) && (cfg.zipFile != "" ==> readZip(cfg.zipFile).ZipContent?)
  }

  /** The checks of the configuration part: vpc/subnet and cls ids set together, no EIP without public net. */
  predicate ConfigChecksPass(cfg: FunctionConfig, together: TogetherGroup -> bool)
  {
    together(VpcSubnet) && together(ClsLogsetTopic) && !(cfg.enableEipConfig && !cfg.enablePublicNet)
  }

  /** The first failing check of the code part, in the order Update makes them. */
  function CodeCheckError(cfg: FunctionConfig, together: TogetherGroup -> bool, readZip: string -> ZipRead): Option<ScfError>
  {
    if !together(CosFields) then Some(NotSetTogether(CosFields))
    else if !ZipReadable(cfg, readZip) then Some(ZipUnreadable(cfg.zipFile))
    else None
  }

  /** The first failing check of the configuration part, in the order Update makes them. */
  function ConfigCheckError(cfg: FunctionConfig, together: TogetherGroup -> bool): Option<ScfError>
  {
    if !together(VpcSubnet) then Some(NotSetTogether(VpcSubnet))
    else if !together(ClsLogsetTopic) then Some(NotSetTogether(ClsLogsetTopic))
    else if cfg.enableEipConfig && !cfg.enablePublicNet then Some(EipNeedsPublicNet)
    else None
  }

  /** The check of the trigger part: every new COS trigger has a region. */
  predicate TriggerChecksPass(newTriggers: seq<TriggerInput>)
  {
    forall i :: 0 <= i < |newTriggers| ==> !MissingCosRegion(newTriggers[i])
  }

  /** An error Update returns is justified by the inputs: a group not set
      together, EIP without public net, an unreadable zip file, a COS trigger
      without region, or a call that failed. */
  predicate Explains(e: ScfError, cfg: FunctionConfig, changed: set<ScfAttr>,
                     together: TogetherGroup -> bool, readZip: string -> ZipRead, succeeds: ScfCall -> bool)
  {
    match e
    case NotSetTogether(g) => !together(g)
    case EipNeedsPublicNet => cfg.enableEipConfig && !cfg.enablePublicNet
    case ZipUnreadable(path) => path == cfg.zipFile && path != "" && readZip(path).ZipReadFailed?
    case NoFunctionCode => false
    case CosRegionRequired => Triggers in changed && !TriggerChecksPass(cfg.triggers)
    case ApiFailed(c) => !succeeds(c)
  }

  /** Every call but the last one issued succeeded; the last one failed
      exactly when the error names it, so a check's error comes after
      calls that all succeeded. */
  predicate Chained(calls: seq<ScfCall>, err: Option<ScfError>, succeeds: ScfCall -> bool)
  {
    && (forall i :: 0 <= i < |calls| - 1 ==> succeeds(calls[i]))
    && ((err.None? || !err.value.ApiFailed?) && calls != [] ==> succeeds(calls[|calls| - 1]))
    && (err.Some? && err.value.ApiFailed? ==> calls != [] && err.value.call == calls[|calls| - 1])
  }

  /** The checking half of UpdateCode: collects the changed code attributes
      in their fixed order, stopping when the COS fields are not set together
      or the zip file cannot be read, and reads the zip file's content. */
  method CollectCodeChange(cfg: FunctionConfig, changed: set<ScfAttr>, together: TogetherGroup -> bool,
                           readZip: string -> ZipRead)
    returns (updateAttrs: seq<ScfAttr>, zipContent: Option<string>, err: Option<ScfError>)
    ensures err == CodeCheckError(cfg, together, readZip)
    ensures err.None? ==> updateAttrs == ChangedIn(CodeAttrs, changed) && zipContent == ZipContentFor(cfg, readZip)
  {
    zipContent, err := None, None;
    updateAttrs := [];
    updateAttrs := AppendIfChanged(updateAttrs, Handler, changed);
    updateAttrs := AppendIfChanged(updateAttrs, CosBucketName, changed);
    updateAttrs := AppendIfChanged(updateAttrs, CosObjectName, changed);
    updateAttrs := AppendIfChanged(updateAttrs, CosBucketRegion, changed);
    if !together(CosFields) {
      err := Some(NotSetTogether(CosFields));
      return;
    }
    updateAttrs := AppendIfChanged(updateAttrs, ZipFile, changed);
    if cfg.zipFile != "" {
      var content := readZip(cfg.zipFile);
      if content.ZipReadFailed? {
        err := Some(ZipUnreadable(cfg.zipFile));
        return;
      }
      zipContent := Some(content.base64);
    }
    updateAttrs := AppendIfChanged(updateAttrs, ImageConfigAttr, changed);
    CodeAttrsWalk(changed);
  }

  /** The code half of Update: collects the changed code attributes in
      their fixed order, rejects COS fields not set together and an
      unreadable zip file, and modifies the code when anything changed. */
  method UpdateCode(fid: FunctionId, cfg: FunctionConfig, changed: set<ScfAttr>,
                    together: TogetherGroup -> bool, readZip: string -> ZipRead, succeeds: ScfCall -> bool)
    returns (calls: seq<ScfCall>, err: Option<ScfError>)
    ensures !together(CosFields) ==> calls == [] && err == Some(NotSetTogether(CosFields))
    ensures together(CosFields) && cfg.zipFile != "" && readZip(cfg.zipFile).ZipReadFailed? ==>
              calls == [] && err == Some(ZipUnreadable(cfg.zipFile))
    ensures CodeCheckError(cfg, together, readZip).Some? ==> calls == [] && err == CodeCheckError(cfg, together, readZip)
    ensures CodeChecksPass(cfg, together, readZip) ==> calls == CodeCalls(fid, cfg, changed, readZip)
    ensures err.None? ==> calls == CodeCalls(fid, cfg, changed, readZip) && CodeChecksPass(cfg, together, readZip)
    ensures err.Some? ==> calls <= CodeCalls(fid, cfg, changed, readZip) && Explains(err.value, cfg, changed, together, readZip, succeeds)
    ensures CodeChecksPass(cfg, together, readZip) && (forall c :: c in CodeCalls(fid, cfg, changed, readZip) ==> succeeds(c)) ==>
              err.None?
    ensures Chained(calls, err, succeeds)
    ensures err.Some? && !err.value.ApiFailed? ==> calls == [] && err == CodeCheckError(cfg, together, readZip)
  {
    calls, err := [], None;
    var updateAttrs, zipContent, checkErr := CollectCodeChange(cfg, changed, together, readZip);
    if checkErr.Some? {
      err := checkErr;
      return;
    }
    var cosBucketName := if cfg.cosBucketName != "" then Some(StripAppId(cfg.cosBucketName)) else None;
    var cosObjectName := GetOkString(cfg.cosObjectName);
    var cosBucketRegion := GetOkString(cfg.cosBucketRegion);
    var imageConfig := if ImageConfigAttr in changed && |cfg.imageConfigs| > 0 then Some(cfg.imageConfigs[0]) else None;

    if |updateAttrs| > 0 {
      var request := CodeRequest(cfg.handler, cosBucketName, cosObjectName, cosBucketRegion, zipContent, imageConfig);
      assert request == CodeRequestFor(cfg, changed, readZip);
      var modifyCode := ModifyFunctionCode(fid, updateAttrs, request);
      calls := [modifyCode];
      if !succeeds(modifyCode) {
        err := Some(ApiFailed(modifyCode));
      }
    }
  }

  /** The checking half of UpdateConfig: collects the changed configuration
      attributes in their fixed order, stopping at the first check that
      fails (vpc/subnet, cls ids, EIP without public net), and derives the
      public net block. */
  method CollectConfigChange(cfg: FunctionConfig, changed: set<ScfAttr>, together: TogetherGroup -> bool)
    returns (updateAttrs: seq<ScfAttr>, publicNet: Option<PublicNetConfig>, err: Option<ScfError>)
    ensures err == ConfigCheckError(cfg, together)
    ensures err.None? ==> updateAttrs == ChangedIn(ConfigAttrs, changed) && publicNet == PublicNetFor(cfg)
  {
    publicNet, err := None, None;
    updateAttrs := [];
    updateAttrs := AppendIfChanged(updateAttrs, Description, changed);
    updateAttrs := AppendIfChanged(updateAttrs, MemSize, changed);
    updateAttrs := AppendIfChanged(updateAttrs, Timeout, changed);
    updateAttrs := AppendIfChanged(updateAttrs, Environment, changed);
    updateAttrs := AppendIfChanged(updateAttrs, Runtime, changed);
    updateAttrs := AppendIfChanged(updateAttrs, VpcId, changed);
    updateAttrs := AppendIfChanged(updateAttrs, SubnetId, changed);
    if !together(VpcSubnet) {
      err := Some(NotSetTogether(VpcSubnet));
      return;
    }
    updateAttrs := AppendIfChanged(updateAttrs, Role, changed);
    updateAttrs := AppendIfChanged(updateAttrs, ClsLogsetId, changed);
    updateAttrs := AppendIfChanged(updateAttrs, ClsTopicId, changed);
    if !together(ClsLogsetTopic) {
      err := Some(NotSetTogether(ClsLogsetTopic));
      return;
    }
    updateAttrs := AppendIfChanged(updateAttrs, L5Enable, changed);
    updateAttrs := AppendIfChanged(updateAttrs, EnablePublicNet, changed);
    updateAttrs := AppendIfChanged(updateAttrs, EnableEipConfig, changed);
    ConfigAttrsWalk(changed);
    var net := DerivePublicNet(cfg.enablePublicNet, cfg.enableEipConfig);
    if net.Failure? {
      err := Some(net.error);
      return;
    }
    publicNet := net.value;
    assert publicNet == PublicNetFor(cfg);
  }

  /** The configuration half of Update: collects the changed configuration
      attributes in their fixed order, rejects vpc/subnet and cls ids not set
      together and EIP without public net, and modifies the configuration
      when anything changed. */
  method UpdateConfig(fid: FunctionId, cfg: FunctionConfig, changed: set<ScfAttr>,
                      together: TogetherGroup -> bool, readZip: string -> ZipRead, succeeds: ScfCall -> bool)
    returns (calls: seq<ScfCall>, err: Option<ScfError>)
    ensures !together(VpcSubnet) ==> calls == [] && err == Some(NotSetTogether(VpcSubnet))
    ensures together(VpcSubnet) && !together(ClsLogsetTopic) ==>
              calls == [] && err == Some(NotSetTogether(ClsLogsetTopic))
    ensures together(VpcSubnet) && together(ClsLogsetTopic) && cfg.enableEipConfig && !cfg.enablePublicNet ==>
              calls == [] && err == Some(EipNeedsPublicNet)
    ensures ConfigCheckError(cfg, together).Some? ==> calls == [] && err == ConfigCheckError(cfg, together)
    ensures ConfigChecksPass(cfg, together) ==> calls == ConfigCalls(fid, cfg, changed)
    ensures err.None? ==> calls == ConfigCalls(fid, cfg, changed) && ConfigChecksPass(cfg, together)
    ensures err.Some? ==> calls <= ConfigCalls(fid, cfg, changed) && Explains(err.value, cfg, changed, together, readZip, succeeds)
    ensures ConfigChecksPass(cfg, together) && (forall c :: c in ConfigCalls(fid, cfg, changed) ==> succeeds(c)) ==>
              err.None?
    ensures Chained(calls, err, succeeds)
    ensures err.Some? && !err.value.ApiFailed? ==> calls == [] && err == ConfigCheckError(cfg, together)
  {
    calls, err := [], None;
    var updateAttrs, publicNet, checkErr := CollectConfigChange(cfg, changed, together);
    if checkErr.Some? {
      err := checkErr;
      return;
    }
    var l5 := if L5Enable in changed then Some(cfg.l5Enable) else None;

    if |updateAttrs| > 0 {
      var request := ConfigRequest(GetOkString(cfg.vpcId), GetOkString(cfg.subnetId),
                                   GetOkString(cfg.clsLogsetId), GetOkString(cfg.clsTopicId), l5, publicNet);
      assert request == ConfigRequestFor(cfg, changed);
      var modifyConfig := ModifyFunctionConfig(fid, updateAttrs, request);
      calls := [modifyConfig];
      if !succeeds(modifyConfig) {
        err := Some(ApiFailed(modifyConfig));
      }
    }
  }

  /** Update replaces the triggers by deleting all old ones and creating
      all new ones; a new COS trigger without a region aborts in between. */
  method UpdateTriggers(fid: FunctionId, cfg: FunctionConfig, oldTriggers: seq<TriggerInput>, changed: set<ScfAttr>,
                        together: TogetherGroup -> bool, readZip: string -> ZipRead, succeeds: ScfCall -> bool)
    returns (calls: seq<ScfCall>, err: Option<ScfError>)
    requires Triggers in changed
    ensures calls != [] && calls[0] == DeleteTriggers(fid, TriggersFor(oldTriggers))
    ensures !succeeds(calls[0]) ==> calls == [calls[0]] && err == Some(ApiFailed(calls[0]))
    ensures succeeds(calls[0]) && !TriggerChecksPass(cfg.triggers) ==> calls == [calls[0]] && err == Some(CosRegionRequired)
    ensures err == Some(CosRegionRequired) <==> succeeds(calls[0]) && !TriggerChecksPass(cfg.triggers)
    ensures err.None? ==> calls == TriggerCalls(fid, oldTriggers, cfg.triggers) && TriggerChecksPass(cfg.triggers)
    ensures err.Some? ==>
              calls <= TriggerCalls(fid, oldTriggers, cfg.triggers) && Explains(err.value, cfg, changed, together, readZip, succeeds)
    ensures TriggerChecksPass(cfg.triggers) && (forall c :: c in TriggerCalls(fid, oldTriggers, cfg.triggers) ==> succeeds(c)) ==>
              err.None?
    ensures Chained(calls, err, succeeds)
    ensures err.Some? ==> err.value.ApiFailed? || err.value == CosRegionRequired
  {
    var olds := BuildTriggers(oldTriggers, false);
    var deleteTriggers := DeleteTriggers(fid, olds.value);
    calls, err := [deleteTriggers], None;
    if !succeeds(deleteTriggers) {
      err := Some(ApiFailed(deleteTriggers));
      return;
    }
    var news := BuildTriggers(cfg.triggers, true);
    if news.Failure? {
      err := Some(news.error);
      return;
    }
    var createTriggers := CreateTriggers(fid, news.value);
    calls := calls + [createTriggers];
    if !succeeds(createTriggers) {
      err := Some(ApiFailed(createTriggers));
    }
  }

  /** Update looks the function up again and then modifies its tags. */
  method UpdateTags(fid: FunctionId, cfg: FunctionConfig, changed: set<ScfAttr>,
                    together: TogetherGroup -> bool, readZip: string -> ZipRead, succeeds: ScfCall -> bool)
    returns (calls: seq<ScfCall>, err: Option<ScfError>)
    ensures calls != []
    ensures err.None? ==> calls == TagCalls(fid)
    ensures err.Some? ==> calls <= TagCalls(fid) && Explains(err.value, cfg, changed, together, readZip, succeeds)
    ensures (forall c :: c in TagCalls(fid) ==> succeeds(c)) ==> err.None?
    ensures Chained(calls, err, succeeds)
    ensures err.Some? ==> err.value.ApiFailed?
  {
    var describe := DescribeFunction(fid);
    calls, err := [describe], None;
    if !succeeds(describe) {
      err := Some(ApiFailed(describe));
      return;
    }
    var tags := ModifyTags(fid);
    calls := calls + [tags];
    if !succeeds(tags) {
      err := Some(ApiFailed(tags));
    }
  }

  /** resourceTencentCloudScfFunctionUpdate up to the final Read. `changed`
      is what d.HasChange reports, `cfg` the new values and `oldTriggers`
      the old value of `triggers`. An id that does not parse is cleared
      without an error; otherwise the calls issued are a prefix of the
      planned ones, all of them exactly when no error is returned, and an
      error is returned exactly when a check or a call fails. A failing
      check stops Update right where it is made: after the calls of the
      parts before it, all of which succeeded. */
  method Update(id: string, cfg: FunctionConfig, oldTriggers: seq<TriggerInput>, changed: set<ScfAttr>,
                together: TogetherGroup -> bool, readZip: string -> ZipRead, succeeds: ScfCall -> bool)
    returns (calls: seq<ScfCall>, clearId: bool, err: Option<ScfError>)
    ensures clearId <==> ParseId(id).None?
    ensures clearId ==> calls == [] && err.None?
    ensures !clearId ==> calls <= PlannedUpdate(ParseId(id).value, cfg, oldTriggers, changed, readZip)
    ensures !clearId && err.None? ==>
              && calls == PlannedUpdate(ParseId(id).value, cfg, oldTriggers, changed, readZip)
              && CodeChecksPass(cfg, together, readZip) && ConfigChecksPass(cfg, together)
              && (Triggers in changed ==> TriggerChecksPass(cfg.triggers))
    ensures err.Some? ==> Explains(err.value, cfg, changed, together, readZip, succeeds)
    ensures !clearId && CodeChecksPass(cfg, together, readZip) && ConfigChecksPass(cfg, together)
            && (Triggers in changed ==> TriggerChecksPass(cfg.triggers))
            && (forall c :: c in PlannedUpdate(ParseId(id).value, cfg, oldTriggers, changed, readZip) ==> succeeds(c)) ==>
              err.None?
    ensures Chained(calls, err, succeeds)
    ensures !clearId && err.Some? && !err.value.ApiFailed? ==>
              || (CodeCheckError(cfg, together, readZip).Some? && calls == [] && err == CodeCheckError(cfg, together, readZip))
              || (&& CodeChecksPass(cfg, together, readZip) && ConfigCheckError(cfg, together).Some?
                  && calls == CodeCalls(ParseId(id).value, cfg, changed, readZip) && err == ConfigCheckError(cfg, together))
              || (&& CodeChecksPass(cfg, together, readZip) && ConfigChecksPass(cfg, together)
                  && Triggers in changed && !TriggerChecksPass(cfg.triggers)
                  && calls == CodeCalls(ParseId(id).value, cfg, changed, readZip) + ConfigCalls(ParseId(id).value, cfg, changed)
                             + [DeleteTriggers(ParseId(id).value, TriggersFor(oldTriggers))]
                  && err == Some(CosRegionRequired))
    ensures err == Some(CosRegionRequired) <==>
              && !clearId && CodeChecksPass(cfg, together, readZip) && ConfigChecksPass(cfg, together)
              && (forall c :: c in CodeCalls(ParseId(id).value, cfg, changed, readZip) + ConfigCalls(ParseId(id).value, cfg, changed) ==> succeeds(c))
              && Triggers in changed && succeeds(DeleteTriggers(ParseId(id).value, TriggersFor(oldTriggers)))
              && !TriggerChecksPass(cfg.triggers)
    ensures !clearId && CodeCheckError(cfg, together, readZip).Some? ==>
              calls == [] && err == CodeCheckError(cfg, together, readZip)
    ensures !clearId && CodeChecksPass(cfg, together, readZip)
            && (forall c :: c in CodeCalls(ParseId(id).value, cfg, changed, readZip) ==> succeeds(c))
            && ConfigCheckError(cfg, together).Some? ==>
              calls == CodeCalls(ParseId(id).value, cfg, changed, readZip) && err == ConfigCheckError(cfg, together)
    ensures !clearId && CodeChecksPass(cfg, together, readZip) && ConfigChecksPass(cfg, together)
            && (forall c :: c in CodeCalls(ParseId(id).value, cfg, changed, readZip) + ConfigCalls(ParseId(id).value, cfg, changed) ==> succeeds(c))
            && Triggers in changed && succeeds(DeleteTriggers(ParseId(id).value, TriggersFor(oldTriggers)))
            && !TriggerChecksPass(cfg.triggers) ==>
              && calls == CodeCalls(ParseId(id).value, cfg, changed, readZip) + ConfigCalls(ParseId(id).value, cfg, changed)
                          + [DeleteTriggers(ParseId(id).value, TriggersFor(oldTriggers))]
              && err == Some(CosRegionRequired)
  {
    calls, clearId, err := [], false, None;
    var parsed := ParseId(id);
    if parsed.None? {
      clearId := true;
      return;
    }
    var fid := parsed.value;
    ghost var codePlan := CodeCalls(fid, cfg, changed, readZip);
    ghost var laterPlan := LaterUpdateCalls(fid, cfg, oldTriggers, changed);

    var codeCalls, codeErr := UpdateCode(fid, cfg, changed, together, readZip, succeeds);
    calls := codeCalls;
    if codeErr.Some? {
      PrefixOfAppend(calls, codePlan, laterPlan);
      err := codeErr;
      return;
    }
    assert CodeChecksPass(cfg, together, readZip) && calls == codePlan;
    ChainedAllSucceed(calls, succeeds);
    var laterCalls, laterErr := UpdateLater(fid, cfg, oldTriggers, changed, together, readZip, succeeds);
    ChainAppend(calls, laterCalls, laterErr, succeeds);
    PrefixAfter(calls, laterCalls, laterPlan);
    if laterErr.Some? && !laterErr.value.ApiFailed? && laterCalls != [] {
      assert codePlan + laterCalls
             == codePlan + ConfigCalls(fid, cfg, changed) + [DeleteTriggers(fid, TriggersFor(oldTriggers))];
    }
    calls, err := calls + laterCalls, laterErr;
  }

  /** The calls Update plans after the code part. */
  function LaterUpdateCalls(fid: FunctionId, cfg: FunctionConfig, oldTriggers: seq<TriggerInput>,
                            changed: set<ScfAttr>): seq<ScfCall>
  {
    ConfigCalls(fid, cfg, changed) + TriggerAndTagCalls(fid, cfg, oldTriggers, changed)
  }

  /** The calls Update plans after the configuration: the triggers, then the
      tags, each only when it changed. */
  function TriggerAndTagCalls(fid: FunctionId, cfg: FunctionConfig, oldTriggers: seq<TriggerInput>,
                              changed: set<ScfAttr>): seq<ScfCall>
  {
    (if Triggers in changed then TriggerCalls(fid, oldTriggers, cfg.triggers) else [])
    + (if Tags in changed then TagCalls(fid) else [])
  }

  /** Update after its configuration part: replaces the triggers when they
      changed, then rewrites the tags when they changed. */
  method UpdateTriggersAndTags(fid: FunctionId, cfg: FunctionConfig, oldTriggers: seq<TriggerInput>, changed: set<ScfAttr>,
                               together: TogetherGroup -> bool, readZip: string -> ZipRead, succeeds: ScfCall -> bool)
    returns (calls: seq<ScfCall>, err: Option<ScfError>)
    ensures calls <= TriggerAndTagCalls(fid, cfg, oldTriggers, changed)
    ensures err.None? ==>
              calls == TriggerAndTagCalls(fid, cfg, oldTriggers, changed) && (Triggers in changed ==> TriggerChecksPass(cfg.triggers))
    ensures err.Some? ==> Explains(err.value, cfg, changed, together, readZip, succeeds)
    ensures (Triggers in changed ==> TriggerChecksPass(cfg.triggers))
            && (forall c :: c in TriggerAndTagCalls(fid, cfg, oldTriggers, changed) ==> succeeds(c)) ==>
              err.None?
    ensures Chained(calls, err, succeeds)
    ensures err.Some? ==> err.value.ApiFailed? || err.value == CosRegionRequired
    ensures err == Some(CosRegionRequired) <==>
              Triggers in changed && succeeds(DeleteTriggers(fid, TriggersFor(oldTriggers))) && !TriggerChecksPass(cfg.triggers)
    ensures err == Some(CosRegionRequired) ==> calls == [DeleteTriggers(fid, TriggersFor(oldTriggers))]
  {
    ghost var triggerPlan := if Triggers in changed then TriggerCalls(fid, oldTriggers, cfg.triggers) else [];
    ghost var tagPlan := if Tags in changed then TagCalls(fid) else [];
    calls, err := [], None;
    if Triggers in changed {
      var triggerCalls, triggerErr := UpdateTriggers(fid, cfg, oldTriggers, changed, together, readZip, succeeds);
      PrefixOfAppend(triggerCalls, triggerPlan, tagPlan);
      calls := triggerCalls;
      if triggerErr.Some? {
        err := triggerErr;
        return;
      }
    }
    assert calls == triggerPlan;
    if Tags in changed {
      var tagCalls, tagErr := UpdateTags(fid, cfg, changed, together, readZip, succeeds);
      ChainAppend(calls, tagCalls, tagErr, succeeds);
      PrefixAfter(calls, tagCalls, tagPlan);
      calls := calls + tagCalls;
      err := tagErr;
    }
  }

  /** Update after its code part: the configuration, then the triggers and
      the tags when they changed. */
  method UpdateLater(fid: FunctionId, cfg: FunctionConfig, oldTriggers: seq<TriggerInput>, changed: set<ScfAttr>,
                     together: TogetherGroup -> bool, readZip: string -> ZipRead, succeeds: ScfCall -> bool)
    returns (calls: seq<ScfCall>, err: Option<ScfError>)
    ensures calls <= LaterUpdateCalls(fid, cfg, oldTriggers, changed)
    ensures err.None? ==>
              && calls == LaterUpdateCalls(fid, cfg, oldTriggers, changed)
              && ConfigChecksPass(cfg, together) && (Triggers in changed ==> TriggerChecksPass(cfg.triggers))
    ensures err.Some? ==> Explains(err.value, cfg, changed, together, readZip, succeeds)
    ensures ConfigChecksPass(cfg, together) && (Triggers in changed ==> TriggerChecksPass(cfg.triggers))
            && (forall c :: c in LaterUpdateCalls(fid, cfg, oldTriggers, changed) ==> succeeds(c)) ==>
              err.None?
    ensures Chained(calls, err, succeeds)
    ensures err.Some? && !err.value.ApiFailed? ==>
              || (ConfigCheckError(cfg, together).Some? && calls == [] && err == ConfigCheckError(cfg, together))
              || (&& ConfigChecksPass(cfg, together) && Triggers in changed && !TriggerChecksPass(cfg.triggers)
                  && calls == ConfigCalls(fid, cfg, changed) + [DeleteTriggers(fid, TriggersFor(oldTriggers))]
                  && err == Some(CosRegionRequired))
    ensures err == Some(CosRegionRequired) <==>
              && ConfigChecksPass(cfg, together) && (forall c :: c in ConfigCalls(fid, cfg, changed) ==> succeeds(c))
              && Triggers in changed && succeeds(DeleteTriggers(fid, TriggersFor(oldTriggers)))
              && !TriggerChecksPass(cfg.triggers)
    ensures ConfigCheckError(cfg, together).Some? ==> calls == [] && err == ConfigCheckError(cfg, together)
    ensures ConfigChecksPass(cfg, together) && (forall c :: c in ConfigCalls(fid, cfg, changed) ==> succeeds(c))
            && Triggers in changed && succeeds(DeleteTriggers(fid, TriggersFor(oldTriggers)))
            && !TriggerChecksPass(cfg.triggers) ==>
              calls == ConfigCalls(fid, cfg, changed) + [DeleteTriggers(fid, TriggersFor(oldTriggers))]
              && err == Some(CosRegionRequired)
  {
    ghost var configPlan := ConfigCalls(fid, cfg, changed);
    ghost var restPlan := TriggerAndTagCalls(fid, cfg, oldTriggers, changed);

    var configCalls, configErr := UpdateConfig(fid, cfg, changed, together, readZip, succeeds);
    calls := configCalls;
    if configErr.Some? {
      PrefixOfAppend(calls, configPlan, restPlan);
      err := configErr;
      return;
    }
    var restCalls, restErr := UpdateTriggersAndTags(fid, cfg, oldTriggers, changed, together, readZip, succeeds);
    ChainAppend(calls, restCalls, restErr, succeeds);
    PrefixAfter(calls, restCalls, restPlan);
    calls, err := calls + restCalls, restErr;
  }

  /** A prefix of a list is a prefix of anything that list is extended with. */
  lemma PrefixOfAppend(p: seq<ScfCall>, xs: seq<ScfCall>, ys: seq<ScfCall>)
    requires p <= xs
    ensures p <= xs + ys
  {
    assert (xs + ys)[..|p|] == xs[..|p|];
  }

  /** Calls already made, followed by a prefix of the next planned run, are a
      prefix of the calls made followed by the whole run. */
  lemma PrefixAfter(done: seq<ScfCall>, p: seq<ScfCall>, xs: seq<ScfCall>)
    requires p <= xs
    ensures done + p <= done + xs
  {
    assert (done + xs)[..|done + p|] == done + xs[..|p|];
  }

  /** The calls Create plans, split after its first call. */
  lemma PlannedCreateAfterCreate(info: FunctionInfo, cfg: FunctionConfig)
    ensures PlannedCreate(info, cfg)
            == [CreateFunction(info)]
               + ([WaitFunctionReady(FidOf(cfg))] + (L5Calls(cfg) + (CreateTriggerCalls(cfg) + CreateTailCalls(cfg))))
    ensures CreateHeadCalls(info, cfg) == [CreateFunction(info)] + ([WaitFunctionReady(FidOf(cfg))] + L5Calls(cfg))
  {
  }

  /** Every call of a run after a first one succeeds exactly when the first
      one and every later one succeed. */
  lemma AllSucceedCons(x: ScfCall, rest: seq<ScfCall>, succeeds: ScfCall -> bool)
    ensures (forall c :: c in [x] + rest ==> succeeds(c)) <==> succeeds(x) && forall c :: c in rest ==> succeeds(c)
  {
  }

  /** A run that ended without error made only calls that succeeded. */
  lemma ChainedAllSucceed(calls: seq<ScfCall>, succeeds: ScfCall -> bool)
    requires Chained(calls, None, succeeds)
    ensures forall c :: c in calls ==> succeeds(c)
  {
  }

  /** A successful run of calls followed by another run keeps the chain. */
  lemma ChainAppend(done: seq<ScfCall>, next: seq<ScfCall>, err: Option<ScfError>, succeeds: ScfCall -> bool)
    requires Chained(done, None, succeeds)
    requires Chained(next, err, succeeds)
    ensures Chained(done + next, err, succeeds)
  {
  }

  /** Nothing is planned exactly when none of the attributes Update looks at changed. */
  lemma {:induction false} NothingPlannedWhenNothingChanged(fid: FunctionId, cfg: FunctionConfig,
                                                          oldTriggers: seq<TriggerInput>, changed: set<ScfAttr>,
                                                          readZip: string -> ZipRead)
    ensures PlannedUpdate(fid, cfg, oldTriggers, changed, readZip) == [] <==>
              forall a :: a in CodeAttrs + ConfigAttrs + [Triggers, Tags] ==> a !in changed
  {
    ChangedInEmpty(CodeAttrs, changed);
    ChangedInEmpty(ConfigAttrs, changed);
    forall a | a in CodeAttrs ensures a in CodeAttrs + ConfigAttrs + [Triggers, Tags] {}
    forall a | a in ConfigAttrs ensures a in CodeAttrs + ConfigAttrs + [Triggers, Tags] {}
  }

  /** The code request, when planned, lists exactly the changed code
      attributes for d.SetPartial. It sends the handler, and each COS field
      and the zip content whenever it is set, changed or not. It sends the
      first image configuration only when image_config changed. */
  lemma CodeCallAttrs(fid: FunctionId, cfg: FunctionConfig, changed: set<ScfAttr>, readZip: string -> ZipRead, a: ScfAttr)
    ensures forall c :: c in CodeCalls(fid, cfg, changed, readZip) ==>
              c.ModifyFunctionCode? && c.fid == fid && (a in c.partialAttrs <==> a in CodeAttrs && a in changed)
    ensures forall c :: c in CodeCalls(fid, cfg, changed, readZip) ==>
              && c.code.handler == cfg.handler
              && (c.code.cosBucketName.Some? <==> cfg.cosBucketName != "")
              && (c.code.cosBucketName.Some? ==> c.code.cosBucketName.value == StripAppId(cfg.cosBucketName))
              && (c.code.cosObjectName.Some? <==> cfg.cosObjectName != "")
              && (c.code.cosObjectName.Some? ==> c.code.cosObjectName.value == cfg.cosObjectName)
              && (c.code.cosBucketRegion.Some? <==> cfg.cosBucketRegion != "")
              && (c.code.cosBucketRegion.Some? ==> c.code.cosBucketRegion.value == cfg.cosBucketRegion)
              && (c.code.zipFile.Some? <==> cfg.zipFile != "" && readZip(cfg.zipFile).ZipContent?)
              && (c.code.zipFile.Some? ==> c.code.zipFile.value == readZip(cfg.zipFile).base64)
              && (c.code.imageConfig.Some? <==> ImageConfigAttr in changed && |cfg.imageConfigs| > 0)
              && (c.code.imageConfig.Some? ==> c.code.imageConfig.value == cfg.imageConfigs[0])
  {
    ChangedInMembers(CodeAttrs, changed, a);
  }

  /** The configuration request, when planned, lists exactly the changed
      configuration attributes for d.SetPartial. It sends the vpc, subnet
      and cls ids whenever they are set, the public-net configuration
      whenever public net is enabled, and the L5 switch only when it changed. */
  lemma ConfigCallAttrs(fid: FunctionId, cfg: FunctionConfig, changed: set<ScfAttr>, a: ScfAttr)
    ensures forall c :: c in ConfigCalls(fid, cfg, changed) ==>
              c.ModifyFunctionConfig? && c.fid == fid && (a in c.partialAttrs <==> a in ConfigAttrs && a in changed)
    ensures forall c :: c in ConfigCalls(fid, cfg, changed) ==>
              && c.config.vpcId == (if cfg.vpcId != "" then Some(cfg.vpcId) else None)
              && c.config.subnetId == (if cfg.subnetId != "" then Some(cfg.subnetId) else None)
              && c.config.clsLogsetId == (if cfg.clsLogsetId != "" then Some(cfg.clsLogsetId) else None)
              && c.config.clsTopicId == (if cfg.clsTopicId != "" then Some(cfg.clsTopicId) else None)
              && (c.config.l5Enable.Some? <==> L5Enable in changed)
              && (c.config.l5Enable.Some? ==> c.config.l5Enable.value == cfg.l5Enable)
              && (c.config.publicNet.Some? <==> cfg.enablePublicNet)
              && (c.config.publicNet.Some? ==>
                    c.config.publicNet.value.publicNetStatus == Enable
                    && (c.config.publicNet.value.eipStatus == Enable <==> cfg.enableEipConfig))
  {
    ChangedInMembers(ConfigAttrs, changed, a);
  }

  // ------------------------------------------------------------ Delete

  /** resourceTencentCloudScfFunctionDelete: an id that does not parse is
      left alone without an error; otherwise one delete call is issued. */
  method Delete(id: string, succeeds: ScfCall -> bool) returns (calls: seq<ScfCall>, err: Option<ScfError>)
    ensures ParseId(id).None? ==> calls == [] && err.None?
    ensures ParseId(id).Some? ==> calls == [DeleteFunction(ParseId(id).value)]
                                  && (err.None? <==> succeeds(calls[0]))
  {
    var parsed := ParseId(id);
    if parsed.None? {
      return [], None;
    }
    var delete := DeleteFunction(parsed.value);
    calls := [delete];
    err := if succeeds(delete) then None else Some(ApiFailed(delete));
  }
}
