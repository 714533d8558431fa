/**
 * The Anti-DDoS service helpers: the offset/limit pagination loop shared by
 * the DescribeList* methods, and the Create* methods that turn a Terraform
 * block into a sequence of remote Create* requests, checking each entry and
 * stopping at the first rejection or failed request.
 *
 * A remote request, with its retries, is the oracle `succeeds`; a page of a
 * remote listing is the oracle `fetch(offset, limit)`.
 */
module Antiddos {
  import opened Wrappers
  import opened Runs

  // ---------------------------------------------------------------------
  // Pagination (DescribeBlackWhiteIpList and the other DescribeList*)
  // ---------------------------------------------------------------------

  /** One page of a remote listing, or a failed request for it. */
  datatype Page<T> = Page(items: seq<T>) | PageFailed

  /** The page requested at offset k * limit, i.e. the k-th page. */
  function PageAt<T>(fetch: (nat, nat) -> Page<T>, limit: nat, k: nat): Page<T>
  {
    fetch(k * limit, limit)
  }

  /** A page that makes the loop ask for the next one: it arrived and it has
      at least `limit` items. */
  predicate IsFull<T>(p: Page<T>, limit: nat)
  {
    p.Page? && |p.items| >= limit
  }

  /** Every page before page n is full. */
  predicate FullBefore<T>(fetch: (nat, nat) -> Page<T>, limit: nat, n: nat)
  {
    forall k: nat :: k < n ==> IsFull(PageAt(fetch, limit, k), limit)
  }

  /** The items a page contributes to the result (none when it failed). */
  function ItemsOf<T>(p: Page<T>): seq<T>
  {
    if p.Page? then p.items else []
  }

  /** The in-order concatenation of pages 0 .. n-1. */
  function Listed<T>(fetch: (nat, nat) -> Page<T>, limit: nat, n: nat): seq<T>
    decreases n
  {
    if n == 0 then [] else Listed(fetch, limit, n - 1) + ItemsOf(PageAt(fetch, limit, n - 1))
  }

  /** The first page at or after page k that is not full, given that page
      `lastPage` is not full. */
  function FirstShortFrom<T>(fetch: (nat, nat) -> Page<T>, limit: nat, k: nat, lastPage: nat): (n: nat)
    requires k <= lastPage
    requires !IsFull(PageAt(fetch, limit, lastPage), limit)
    ensures k <= n <= lastPage
    ensures !IsFull(PageAt(fetch, limit, n), limit)
    ensures forall j: nat :: k <= j < n ==> IsFull(PageAt(fetch, limit, j), limit)
    decreases lastPage - k
  {
    if !IsFull(PageAt(fetch, limit, k), limit) then k
    else FirstShortFrom(fetch, limit, k + 1, lastPage)
  }

  /** The page at which the listing stops: the first page that is not full. */
  function FirstShort<T>(fetch: (nat, nat) -> Page<T>, limit: nat, lastPage: nat): (n: nat)
    requires !IsFull(PageAt(fetch, limit, lastPage), limit)
    ensures n <= lastPage
    ensures FullBefore(fetch, limit, n)
    ensures !IsFull(PageAt(fetch, limit, n), limit)
  {
    FirstShortFrom(fetch, limit, 0, lastPage)
  }

  /** The stopping page does not depend on which non-full page witnessed
      termination: any n with full pages before it and a non-full page at it
      is the one. */
  lemma FirstShortUnique<T>(fetch: (nat, nat) -> Page<T>, limit: nat, lastPage: nat, n: nat)
    requires !IsFull(PageAt(fetch, limit, lastPage), limit)
    requires FullBefore(fetch, limit, n)
    requires !IsFull(PageAt(fetch, limit, n), limit)
    ensures FirstShort(fetch, limit, lastPage) == n
  {
    var m := FirstShort(fetch, limit, lastPage);
    if m < n {
      assert false;
    } else if n < m {
      assert false;
    }
  }

  /**
   * The pagination loop. Starting at offset 0, it requests a page of `limit`
   * items, returns at once when the request fails, otherwise appends the
   * page and stops when it holds fewer than `limit` items, and moves the
   * offset on by `limit` otherwise. `lastPage` witnesses that the loop ends:
   * the service answers some page with a short page or a failure.
   */
  method DescribeList<T>(fetch: (nat, nat) -> Page<T>, limit: nat, ghost lastPage: nat)
    returns (result: seq<T>, failed: bool)
    requires !IsFull(PageAt(fetch, limit, lastPage), limit)
    ensures failed <==> PageAt(fetch, limit, FirstShort(fetch, limit, lastPage)).PageFailed?
    ensures result == Listed(fetch, limit, FirstShort(fetch, limit, lastPage) + 1)
  {
    ghost var n := FirstShort(fetch, limit, lastPage);
    result := [];
    failed := false;
    var offset: nat := 0;
    ghost var k: nat := 0;
    while true
      invariant k <= n
      invariant offset == k * limit
      invariant result == Listed(fetch, limit, k)
      decreases n - k
    {
      var page := fetch(offset, limit);
      assert page == PageAt(fetch, limit, k);
      if page.PageFailed? {
        failed := true;
        return;
      }
      result := result + page.items;
      if |page.items| < limit {
        return;
      }
      offset := offset + limit;
      k := k + 1;
    }
  }

  /** With full pages only, n pages list at least n * limit items. */
  lemma {:induction false} ListedFull<T>(fetch: (nat, nat) -> Page<T>, limit: nat, n: nat)
    requires FullBefore(fetch, limit, n)
    ensures |Listed(fetch, limit, n)| >= n * limit
    decreases n
  {
    if n > 0 {
      assert FullBefore(fetch, limit, n - 1);
      ListedFull(fetch, limit, n - 1);
      assert n * limit == (n - 1) * limit + limit;
    }
  }

  /** A listing backed by a fixed store: the page at (offset, limit) is the
      slice of the store from offset, at most limit items long. */
  function StorePage<T>(store: seq<T>, offset: nat, limit: nat): Page<T>
  {
    var lo := if offset <= |store| then offset else |store|;
    var hi := if offset + limit <= |store| then offset + limit else |store|;
    Page(store[lo..hi])
  }

  /** Over a fixed store and a positive limit, the loop stops at page
      |store| / limit without failure, and the pages it concatenates are the
      whole store. */
  lemma StoreListedWhole<T>(store: seq<T>, limit: nat)
    requires limit > 0
    ensures var fetch := (o: nat, l: nat) => StorePage(store, o, l);
            var n := |store| / limit;
            FullBefore(fetch, limit, n)
            && PageAt(fetch, limit, n).Page?
            && !IsFull(PageAt(fetch, limit, n), limit)
            && Listed(fetch, limit, n + 1) == store
  {
    var fetch := (o: nat, l: nat) => StorePage(store, o, l);
    var n := |store| / limit;
    DivBounds(|store|, limit);
    forall k: nat | k < n
      ensures IsFull(PageAt(fetch, limit, k), limit)
    {
      StoreListedUpTo(store, limit, k);
    }
    StoreListedUpTo(store, limit, n);
    assert PageAt(fetch, limit, n).items == store[n * limit..];
    assert Listed(fetch, limit, n + 1) == store[..n * limit] + store[n * limit..];
    assert store[..n * limit] + store[n * limit..] == store;
  }

  /** Euclidean division bounds: (a / b) * b <= a < (a / b) * b + b. */
  lemma DivBounds(a: nat, b: nat)
    requires b > 0
    ensures (a / b) * b <= a < (a / b) * b + b
  {
  }

  /** Induction step for StoreListedWhole: pages below |store| / limit are
      full slices of the store, and k of them list its first k * limit items. */
  lemma {:induction false} StoreListedUpTo<T>(store: seq<T>, limit: nat, k: nat)
    requires limit > 0
    requires k <= |store| / limit
    ensures k * limit <= |store|
    ensures var fetch := (o: nat, l: nat) => StorePage(store, o, l);
            Listed(fetch, limit, k) == store[..k * limit]
            && (k < |store| / limit ==> IsFull(PageAt(fetch, limit, k), limit))
    decreases k
  {
    var fetch := (o: nat, l: nat) => StorePage(store, o, l);
    var n := |store| / limit;
    DivBounds(|store|, limit);
    MulMono(k, n, limit);
    if k < n {
      MulMono(k + 1, n, limit);
      assert (k + 1) * limit == k * limit + limit;
      assert |PageAt(fetch, limit, k).items| == limit;
    }
    if k > 0 {
      StoreListedUpTo(store, limit, k - 1);
      assert k * limit == (k - 1) * limit + limit;
      assert PageAt(fetch, limit, k - 1).items == store[(k - 1) * limit .. k * limit];
      assert store[..(k - 1) * limit] + store[(k - 1) * limit .. k * limit] == store[..k * limit];
    }
  }

  /** Multiplication by a natural is monotonic. */
  lemma MulMono(a: nat, b: nat, c: nat)
    requires a <= b
    ensures a * c <= b * c
  {
    assert b * c == a * c + (b - a) * c;
  }

  // ---------------------------------------------------------------------
  // Remote requests and the generic "one request per entry" run
  // ---------------------------------------------------------------------

  /** Go's uint64(i) for a 64-bit int i: two's complement wrap-around. */
  function U64(i: int): (u: nat)
    ensures u < 0x1_0000_0000_0000_0000
    ensures 0 <= i < 0x1_0000_0000_0000_0000 ==> u == i
    ensures -0x1_0000_0000_0000_0000 <= i < 0 ==> u == i + 0x1_0000_0000_0000_0000
  {
    i % 0x1_0000_0000_0000_0000
  }

  datatype IpListType = Black | White

  /** An IP segment; the provider always sends mask 0. */
  datatype IpSegment = IpSegment(ip: string, mask: nat)

  datatype AclConfig = AclConfig(
    forwardProtocol: string,
    dPortStart: nat, dPortEnd: nat,
    sPortStart: nat, sPortEnd: nat,
    action: string, priority: nat)

  datatype PacketFilterConfig = PacketFilterConfig(
    protocol: string,
    sportStart: int, sportEnd: int, dportStart: int, dportEnd: int,
    pktlenMin: int, pktlenMax: int,
    action: string, matchBegin: string, matchType: string, str: string,
    depth: int, offset: int, isNot: int)

  datatype SpeedValue = SpeedValue(kind: nat, value: nat)

  datatype SpeedLimitConfig = SpeedLimitConfig(
    mode: nat, protocolList: string, dstPortList: string, speedValues: seq<SpeedValue>)

  datatype GeoIPBlockConfig = GeoIPBlockConfig(
    regionType: string, action: string, areaList: Option<seq<int>>)

  /** The remote Create* requests the helpers issue. */
  datatype DdosCall =
    | CreateBlackWhiteIpList(instanceId: string, ipList: seq<IpSegment>, listType: IpListType)
    | CreatePortAclConfig(instanceId: string, acl: AclConfig)
    | CreateDDoSAI(instanceIdList: seq<string>, ddosAi: string)
    | CreatePacketFilterConfig(instanceId: string, filter: PacketFilterConfig)
    | CreateSpeedLimitConfig(instanceId: string, speedLimit: SpeedLimitConfig)
    | CreateGeoIPBlockConfig(instanceId: string, geoIp: GeoIPBlockConfig)

  datatype PortSide = Destination | Source

  datatype DdosError =
    | PortRangeReversed(side: PortSide)
    | AreaListRequired
    | ApiFailed(call: DdosCall)

  /** One step of an entry-by-entry Create*: a rejection of the entry before
      any request, or one request, reported as ApiFailed when it fails. */
  type DdosStep = Step<DdosCall, DdosError>

  function Request(c: DdosCall): DdosStep
  {
    Send(c, ApiFailed(c))
  }

  // ---------------------------------------------------------------------
  // CreateIpBlackWhite
  // ---------------------------------------------------------------------

  /** The IPs as segments with mask 0. */
  function Masked(ips: seq<string>): seq<IpSegment>
  {
    seq(|ips|, i requires 0 <= i < |ips| => IpSegment(ips[i], 0))
  }

  /** The black-list request if there are black IPs, then the white-list
      request if there are white IPs. */
  function BlackWhiteSteps(instanceId: string, blackIps: seq<string>, whiteIps: seq<string>): seq<DdosStep>
  {
    (if |blackIps| > 0 then [Request(CreateBlackWhiteIpList(instanceId, Masked(blackIps), Black))] else [])
    + (if |whiteIps| > 0 then [Request(CreateBlackWhiteIpList(instanceId, Masked(whiteIps), White))] else [])
  }

  /** Each IP becomes a segment with mask 0, in order. */
  method MaskSegments(ips: seq<string>) returns (segments: seq<IpSegment>)
    ensures |segments| == |ips|
    ensures forall i :: 0 <= i < |ips| ==> segments[i] == IpSegment(ips[i], 0)
  {
    segments := [];
    for i := 0 to |ips|
      invariant |segments| == i
      invariant forall j :: 0 <= j < i ==> segments[j] == IpSegment(ips[j], 0)
    {
      segments := segments + [IpSegment(ips[i], 0)];
    }
  }

  method CreateIpBlackWhite(instanceId: string, blackIps: seq<string>, whiteIps: seq<string>,
                            succeeds: DdosCall -> bool)
    returns (calls: seq<DdosCall>, err: Option<DdosError>)
    ensures Outcome(calls, err) == Run(BlackWhiteSteps(instanceId, blackIps, whiteIps), 0, succeeds)
  {
    ghost var steps := BlackWhiteSteps(instanceId, blackIps, whiteIps);
    ghost var i := 0;
    var blackWithMask := MaskSegments(blackIps);
    var whiteWithMask := MaskSegments(whiteIps);
    assert blackWithMask == Masked(blackIps);
    assert whiteWithMask == Masked(whiteIps);
    calls := [];
    err := None;
    if |blackWithMask| > 0 {
      var black := CreateBlackWhiteIpList(instanceId, blackWithMask, Black);
      assert steps[0] == Request(black);
      calls := calls + [black];
      if !succeeds(black) {
        err := Some(ApiFailed(black));
        return;
      }
      ContinueSend([], black, Run(steps, 1, succeeds));
      i := 1;
    }
    if |whiteWithMask| > 0 {
      var white := CreateBlackWhiteIpList(instanceId, whiteWithMask, White);
      assert steps[i] == Request(white);
      ContinueSend(calls, white, Run(steps, i + 1, succeeds));
      calls := calls + [white];
      if !succeeds(white) {
        err := Some(ApiFailed(white));
        return;
      }
      i := i + 1;
    }
    assert i == |steps|;
  }

  /** A failed black-list request ends the method: the white list is not sent. */
  lemma BlackFailureSkipsWhite(instanceId: string, blackIps: seq<string>, whiteIps: seq<string>,
                               succeeds: DdosCall -> bool)
    requires |blackIps| > 0
    requires !succeeds(CreateBlackWhiteIpList(instanceId, Masked(blackIps), Black))
    ensures var black := CreateBlackWhiteIpList(instanceId, Masked(blackIps), Black);
            Run(BlackWhiteSteps(instanceId, blackIps, whiteIps), 0, succeeds)
            == Outcome([black], Some(ApiFailed(black)))
  {
    var steps := BlackWhiteSteps(instanceId, blackIps, whiteIps);
    assert steps[0] == Request(CreateBlackWhiteIpList(instanceId, Masked(blackIps), Black));
  }

  /** With both lists empty nothing is sent and no error is returned. */
  lemma BlackWhiteEmpty(instanceId: string, succeeds: DdosCall -> bool)
    ensures Run(BlackWhiteSteps(instanceId, [], []), 0, succeeds) == Outcome([], None)
  {
    assert BlackWhiteSteps(instanceId, [], []) == [];
  }

  // ---------------------------------------------------------------------
  // CreatePortAcl
  // ---------------------------------------------------------------------

  /** One port_acl block entry, with the Go int values as entered. */
  datatype PortAclEntry = PortAclEntry(
    dStartPort: int, dEndPort: int, sStartPort: int, sEndPort: int,
    protocol: string, action: string, priority: int)

  /** The destination range is checked first, then the source range, both on
      the uint64 conversions; a valid entry is one request. */
  function PortAclStep(instanceId: string, e: PortAclEntry): DdosStep
  {
    var dStart, dEnd := U64(e.dStartPort), U64(e.dEndPort);
    var sStart, sEnd := U64(e.sStartPort), U64(e.sEndPort);
    if dStart > dEnd then Reject(PortRangeReversed(Destination))
    else if sStart > sEnd then Reject(PortRangeReversed(Source))
    else Request(CreatePortAclConfig(instanceId,
      AclConfig(e.protocol, dStart, dEnd, sStart, sEnd, e.action, U64(e.priority))))
  }

  function PortAclSteps(instanceId: string, mapping: seq<PortAclEntry>): seq<DdosStep>
  {
    seq(|mapping|, i requires 0 <= i < |mapping| => PortAclStep(instanceId, mapping[i]))
  }

  /** For ports that fit in a uint64 (the schema restricts them to 0..65535):
      an entry is rejected exactly when a range is reversed, the destination
      range being reported first, and a valid entry is sent with its own
      port numbers. */
  lemma PortAclStepSpec(instanceId: string, e: PortAclEntry)
    requires 0 <= e.dStartPort < 0x1_0000_0000_0000_0000 && 0 <= e.dEndPort < 0x1_0000_0000_0000_0000
    requires 0 <= e.sStartPort < 0x1_0000_0000_0000_0000 && 0 <= e.sEndPort < 0x1_0000_0000_0000_0000
    ensures var s := PortAclStep(instanceId, e);
            (s.Reject? <==> e.dStartPort > e.dEndPort || e.sStartPort > e.sEndPort)
            && (e.dStartPort > e.dEndPort ==> s == Reject(PortRangeReversed(Destination)))
            && (e.dStartPort <= e.dEndPort && e.sStartPort > e.sEndPort
                ==> s == Reject(PortRangeReversed(Source)))
            && (s.Send? ==> s.call.acl.dPortStart == e.dStartPort && s.call.acl.dPortEnd == e.dEndPort
                            && s.call.acl.sPortStart == e.sStartPort && s.call.acl.sPortEnd == e.sEndPort)
  {
  }

  /** A negative port wraps to a huge uint64 start, so the entry is
      rejected rather than sent. */
  lemma PortAclNegativeStartWraps(instanceId: string, e: PortAclEntry)
    requires e.dStartPort == -1 && 0 <= e.dEndPort < 0x1_0000_0000_0000_0000 - 1
    ensures PortAclStep(instanceId, e) == Reject(PortRangeReversed(Destination))
  {
  }

  method CreatePortAcl(instanceId: string, mapping: seq<PortAclEntry>, succeeds: DdosCall -> bool)
    returns (calls: seq<DdosCall>, err: Option<DdosError>)
    ensures Outcome(calls, err) == Run(PortAclSteps(instanceId, mapping), 0, succeeds)
  {
    ghost var steps := PortAclSteps(instanceId, mapping);
    calls := [];
    err := None;
    var i := 0;
    while i < |mapping|
      invariant 0 <= i <= |mapping|
      invariant Run(steps, 0, succeeds) == Continue(calls, Run(steps, i, succeeds))
    {
      var v := mapping[i];
      var dStartPort, dEndPort := U64(v.dStartPort), U64(v.dEndPort);
      var sStartPort, sEndPort := U64(v.sStartPort), U64(v.sEndPort);
      var priority := U64(v.priority);
      if dStartPort > dEndPort {
        err := Some(PortRangeReversed(Destination));
        return;
      }
      if sStartPort > sEndPort {
        err := Some(PortRangeReversed(Source));
        return;
      }
      var call := CreatePortAclConfig(instanceId,
        AclConfig(v.protocol, dStartPort, dEndPort, sStartPort, sEndPort, v.action, priority));
      assert steps[i] == Request(call);
      if !succeeds(call) {
        calls := calls + [call];
        err := Some(ApiFailed(call));
        return;
      }
      ContinueSend(calls, call, Run(steps, i + 1, succeeds));
      calls := calls + [call];
      i := i + 1;
    }
  }

  // ---------------------------------------------------------------------
  // CreatePacketFilter
  // ---------------------------------------------------------------------

  /** One packet_filter block entry. */
  datatype PacketFilterEntry = PacketFilterEntry(
    protocol: string,
    dStartPort: int, dEndPort: int, sStartPort: int, sEndPort: int,
    pktLengthMin: int, pktLengthMax: int,
    matchBegin: string, matchType: string, matchStr: string,
    depth: int, offset: int, isInclude: bool, action: string)

  /** bool2int64: true is 1, false is 0. */
  function BoolToInt(b: bool): int
  {
    if b then 1 else 0
  }

  /** Every entry is one request, with no argument check; is_include is sent
      as the IsNot flag. */
  function PacketFilterStep(instanceId: string, e: PacketFilterEntry): DdosStep
  {
    Request(CreatePacketFilterConfig(instanceId, PacketFilterConfig(
      e.protocol, e.sStartPort, e.sEndPort, e.dStartPort, e.dEndPort,
      e.pktLengthMin, e.pktLengthMax, e.action, e.matchBegin, e.matchType, e.matchStr,
      e.depth, e.offset, BoolToInt(e.isInclude))))
  }

  function PacketFilterSteps(instanceId: string, mapping: seq<PacketFilterEntry>): seq<DdosStep>
  {
    seq(|mapping|, i requires 0 <= i < |mapping| => PacketFilterStep(instanceId, mapping[i]))
  }

  /** The packet filters are sent one request per entry, in order, stopping
      at the first failed request, which is returned as the error. */
  method CreatePacketFilter(instanceId: string, mapping: seq<PacketFilterEntry>, succeeds: DdosCall -> bool)
    returns (calls: seq<DdosCall>, err: Option<DdosError>)
    ensures Outcome(calls, err) == Run(PacketFilterSteps(instanceId, mapping), 0, succeeds)
  {
    ghost var steps := PacketFilterSteps(instanceId, mapping);
    calls := [];
    err := None;
    if |mapping| == 0 {
      return;
    }
    var i := 0;
    while i < |mapping|
      invariant 0 <= i <= |mapping|
      invariant Run(steps, 0, succeeds) == Continue(calls, Run(steps, i, succeeds))
    {
      var v := mapping[i];
      var call := CreatePacketFilterConfig(instanceId, PacketFilterConfig(
        v.protocol, v.sStartPort, v.sEndPort, v.dStartPort, v.dEndPort,
        v.pktLengthMin, v.pktLengthMax, v.action, v.matchBegin, v.matchType, v.matchStr,
        v.depth, v.offset, BoolToInt(v.isInclude)));
      assert steps[i] == Request(call);
      if !succeeds(call) {
        calls := calls + [call];
        err := Some(ApiFailed(call));
        return;
      }
      ContinueSend(calls, call, Run(steps, i + 1, succeeds));
      calls := calls + [call];
      i := i + 1;
    }
  }

  /** How a Create* method as written ends: it returns (possibly an error) or
      it panics. */
  datatype Ending = Returned(err: Option<DdosError>) | Panicked

  /**
   * CreatePacketFilter as written: the request is declared with `:=` inside
   * the retry closure, so the outer request variable stays nil, and the
   * error log dereferences it. Every failure therefore panics instead of
   * returning the error.
   */
  function PacketFilterAsWritten(instanceId: string, mapping: seq<PacketFilterEntry>,
                                 succeeds: DdosCall -> bool): (r: Ending)
    ensures r.Returned? ==> r.err.None?
    ensures r.Panicked? <==> FirstBlocked(PacketFilterSteps(instanceId, mapping), 0, succeeds) < |mapping|
  {
    var steps := PacketFilterSteps(instanceId, mapping);
    RunSpec(steps, 0, succeeds);
    if Run(steps, 0, succeeds).err.Some? then Panicked else Returned(None)
  }

  /** A single entry whose request fails: as written the method panics; the
      corrected CreatePacketFilter returns that request's failure. */
  lemma PacketFilterFailurePanics(instanceId: string, e: PacketFilterEntry, succeeds: DdosCall -> bool)
    requires !succeeds(PacketFilterStep(instanceId, e).call)
    ensures PacketFilterAsWritten(instanceId, [e], succeeds) == Panicked
    ensures var c := PacketFilterStep(instanceId, e).call;
            Run(PacketFilterSteps(instanceId, [e]), 0, succeeds) == Outcome([c], Some(ApiFailed(c)))
  {
    assert PacketFilterSteps(instanceId, [e])[0] == PacketFilterStep(instanceId, e);
  }

  // ---------------------------------------------------------------------
  // CreateAIProtection
  // ---------------------------------------------------------------------

  /** An empty switch sends nothing; otherwise one request for this instance. */
  function AIProtectionSteps(instanceId: string, ddosAiSwitch: string): seq<DdosStep>
  {
    if |ddosAiSwitch| == 0 then [] else [Request(CreateDDoSAI([instanceId], ddosAiSwitch))]
  }

  method CreateAIProtection(instanceId: string, ddosAiSwitch: string, succeeds: DdosCall -> bool)
    returns (calls: seq<DdosCall>, err: Option<DdosError>)
    ensures Outcome(calls, err) == Run(AIProtectionSteps(instanceId, ddosAiSwitch), 0, succeeds)
  {
    calls := [];
    err := None;
    if |ddosAiSwitch| <= 0 {
      return;
    }
    var call := CreateDDoSAI([instanceId], ddosAiSwitch);
    calls := [call];
    if !succeeds(call) {
      err := Some(ApiFailed(call));
    }
  }

  /** The empty switch is a no-op without error; a non-empty one is exactly
      one request, failing exactly when that request fails. */
  lemma AIProtectionSpec(instanceId: string, ddosAiSwitch: string, succeeds: DdosCall -> bool)
    ensures var o := Run(AIProtectionSteps(instanceId, ddosAiSwitch), 0, succeeds);
            (|ddosAiSwitch| == 0 ==> o == Outcome([], None))
            && (|ddosAiSwitch| > 0 ==>
                  o.calls == [CreateDDoSAI([instanceId], ddosAiSwitch)]
                  && (o.err.None? <==> succeeds(CreateDDoSAI([instanceId], ddosAiSwitch))))
  {
  }

  // ---------------------------------------------------------------------
  // CreateDDoSSpeedLimitConfig
  // ---------------------------------------------------------------------

  datatype SpeedValueEntry = SpeedValueEntry(kind: int, value: int)

  /** One ddos_speed_limit_config block entry. */
  datatype SpeedLimitEntry = SpeedLimitEntry(
    speedValues: seq<SpeedValueEntry>, mode: int, protocolList: string, dstPortList: string)

  /** The speed values as uint64 (type, value) pairs, in order. */
  function SpeedValuesFor(vs: seq<SpeedValueEntry>): seq<SpeedValue>
  {
    seq(|vs|, i requires 0 <= i < |vs| => SpeedValue(U64(vs[i].kind), U64(vs[i].value)))
  }

  function SpeedLimitStep(instanceId: string, e: SpeedLimitEntry): DdosStep
  {
    Request(CreateSpeedLimitConfig(instanceId,
      SpeedLimitConfig(U64(e.mode), e.protocolList, e.dstPortList, SpeedValuesFor(e.speedValues))))
  }

  function SpeedLimitSteps(instanceId: string, mapping: seq<SpeedLimitEntry>): seq<DdosStep>
  {
    seq(|mapping|, i requires 0 <= i < |mapping| => SpeedLimitStep(instanceId, mapping[i]))
  }

  /** Each speed value becomes a (type, value) pair, in the same order. */
  method BuildSpeedValues(vs: seq<SpeedValueEntry>) returns (list: seq<SpeedValue>)
    ensures |list| == |vs|
    ensures forall i :: 0 <= i < |vs| ==> list[i] == SpeedValue(U64(vs[i].kind), U64(vs[i].value))
  {
    list := [];
    for j := 0 to |vs|
      invariant |list| == j
      invariant forall i :: 0 <= i < j ==> list[i] == SpeedValue(U64(vs[i].kind), U64(vs[i].value))
    {
      list := list + [SpeedValue(U64(vs[j].kind), U64(vs[j].value))];
    }
  }

  method CreateDDoSSpeedLimitConfig(instanceId: string, mapping: seq<SpeedLimitEntry>,
                                    succeeds: DdosCall -> bool)
    returns (calls: seq<DdosCall>, err: Option<DdosError>)
    ensures Outcome(calls, err) == Run(SpeedLimitSteps(instanceId, mapping), 0, succeeds)
  {
    ghost var steps := SpeedLimitSteps(instanceId, mapping);
    calls := [];
    err := None;
    if |mapping| == 0 {
      return;
    }
    var i := 0;
    while i < |mapping|
      invariant 0 <= i <= |mapping|
      invariant Run(steps, 0, succeeds) == Continue(calls, Run(steps, i, succeeds))
    {
      var v := mapping[i];
      var speedValueList := BuildSpeedValues(v.speedValues);
      assert speedValueList == SpeedValuesFor(v.speedValues);
      var call := CreateSpeedLimitConfig(instanceId,
        SpeedLimitConfig(U64(v.mode), v.protocolList, v.dstPortList, speedValueList));
      assert steps[i] == Request(call);
      if !succeeds(call) {
        calls := calls + [call];
        err := Some(ApiFailed(call));
        return;
      }
      ContinueSend(calls, call, Run(steps, i + 1, succeeds));
      calls := calls + [call];
      i := i + 1;
    }
  }

  /** Every speed-limit request carries its entry's speed values, as
      (type, value) pairs in the entry's order. */
  lemma SpeedLimitCarriesValues(instanceId: string, mapping: seq<SpeedLimitEntry>,
                                succeeds: DdosCall -> bool, j: nat, i: nat)
    requires j < |Run(SpeedLimitSteps(instanceId, mapping), 0, succeeds).calls|
    ensures j < |mapping|
    ensures var c := Run(SpeedLimitSteps(instanceId, mapping), 0, succeeds).calls[j];
            c.CreateSpeedLimitConfig?
            && |c.speedLimit.speedValues| == |mapping[j].speedValues|
            && (i < |mapping[j].speedValues| ==>
                  c.speedLimit.speedValues[i].kind == U64(mapping[j].speedValues[i].kind)
                  && c.speedLimit.speedValues[i].value == U64(mapping[j].speedValues[i].value))
  {
    RunSpec(SpeedLimitSteps(instanceId, mapping), 0, succeeds);
    assert SpeedLimitSteps(instanceId, mapping)[0 + j] == SpeedLimitStep(instanceId, mapping[j]);
  }

  // ---------------------------------------------------------------------
  // CreateDDoSGeoIPBlockConfig
  // ---------------------------------------------------------------------

  const Customized: string := "customized"

  /** One ddos_geo_ip_block_config block entry. */
  datatype GeoIPEntry = GeoIPEntry(regionType: string, action: string, areaList: seq<int>)

  /** A "customized" entry needs an area list, which is then attached; other
      region types are sent without one. */
  function GeoIPStep(instanceId: string, e: GeoIPEntry): DdosStep
  {
    if e.regionType == Customized && |e.areaList| == 0 then Reject(AreaListRequired)
    else Request(CreateGeoIPBlockConfig(instanceId, GeoIPBlockConfig(e.regionType, e.action,
      if e.regionType == Customized then Some(e.areaList) else None)))
  }

  function GeoIPSteps(instanceId: string, mapping: seq<GeoIPEntry>): seq<DdosStep>
  {
    seq(|mapping|, i requires 0 <= i < |mapping| => GeoIPStep(instanceId, mapping[i]))
  }

  /** An entry is rejected exactly when it is "customized" with no areas; a
      sent entry carries an area list exactly when it is "customized", and
      then the entry's own areas. */
  lemma GeoIPStepSpec(instanceId: string, e: GeoIPEntry)
    ensures var s := GeoIPStep(instanceId, e);
            (s.Reject? <==> e.regionType == Customized && |e.areaList| == 0)
            && (s.Reject? ==> s.error == AreaListRequired)
            && (s.Send? ==> s.call.geoIp.regionType == e.regionType && s.call.geoIp.action == e.action
                            && (s.call.geoIp.areaList.Some? <==> e.regionType == Customized)
                            && (s.call.geoIp.areaList.Some? ==> s.call.geoIp.areaList.value == e.areaList))
  {
  }

  /** The GeoIP blocks are sent one request per entry, in order; a
      "customized" entry without areas is rejected before its request and a
      failed request ends the method; either is returned as the error. */
  method CreateDDoSGeoIPBlockConfig(instanceId: string, mapping: seq<GeoIPEntry>, succeeds: DdosCall -> bool)
    returns (calls: seq<DdosCall>, err: Option<DdosError>)
    ensures Outcome(calls, err) == Run(GeoIPSteps(instanceId, mapping), 0, succeeds)
  {
    ghost var steps := GeoIPSteps(instanceId, mapping);
    calls := [];
    err := None;
    if |mapping| == 0 {
      return;
    }
    var i := 0;
    while i < |mapping|
      invariant 0 <= i <= |mapping|
      invariant Run(steps, 0, succeeds) == Continue(calls, Run(steps, i, succeeds))
    {
      var v := mapping[i];
      var areaList: Option<seq<int>> := None;
      if v.regionType == Customized {
        if |v.areaList| == 0 {
          err := Some(AreaListRequired);
          return;
        }
        areaList := Some(v.areaList);
      }
      var call := CreateGeoIPBlockConfig(instanceId, GeoIPBlockConfig(v.regionType, v.action, areaList));
      assert steps[i] == Request(call);
      if !succeeds(call) {
        calls := calls + [call];
        err := Some(ApiFailed(call));
        return;
      }
      ContinueSend(calls, call, Run(steps, i + 1, succeeds));
      calls := calls + [call];
      i := i + 1;
    }
  }

  /**
   * CreateDDoSGeoIPBlockConfig as written: like CreatePacketFilter it
   * declares the request with `:=` inside the retry closure, and its error
   * log dereferences the nil outer request, so every rejection or failed
   * request panics instead of being returned.
   */
  function GeoIPAsWritten(instanceId: string, mapping: seq<GeoIPEntry>, succeeds: DdosCall -> bool): (r: Ending)
    ensures r.Returned? ==> r.err.None?
    ensures r.Panicked? <==> FirstBlocked(GeoIPSteps(instanceId, mapping), 0, succeeds) < |mapping|
  {
    var steps := GeoIPSteps(instanceId, mapping);
    RunSpec(steps, 0, succeeds);
    if Run(steps, 0, succeeds).err.Some? then Panicked else Returned(None)
  }

  /** A "customized" entry with an empty area list: as written the method
      panics without issuing any request; corrected, it returns the
      missing-area-list error, again with no request. */
  lemma GeoIPCustomizedWithoutAreasPanics(instanceId: string, action: string, succeeds: DdosCall -> bool)
    ensures GeoIPAsWritten(instanceId, [GeoIPEntry(Customized, action, [])], succeeds) == Panicked
    ensures Run(GeoIPSteps(instanceId, [GeoIPEntry(Customized, action, [])]), 0, succeeds)
            == Outcome([], Some(AreaListRequired))
  {
    var steps := GeoIPSteps(instanceId, [GeoIPEntry(Customized, action, [])]);
    assert steps[0] == Reject(AreaListRequired);
  }

  /** An empty block sends nothing and returns no error, for every
      per-entry Create* method. */
  lemma EmptyMappingIsNoOp(instanceId: string, succeeds: DdosCall -> bool)
    ensures Run(PortAclSteps(instanceId, []), 0, succeeds) == Outcome([], None)
    ensures Run(PacketFilterSteps(instanceId, []), 0, succeeds) == Outcome([], None)
    ensures Run(SpeedLimitSteps(instanceId, []), 0, succeeds) == Outcome([], None)
    ensures Run(GeoIPSteps(instanceId, []), 0, succeeds) == Outcome([], None)
  {
    assert PortAclSteps(instanceId, []) == [];
    assert PacketFilterSteps(instanceId, []) == [];
    assert SpeedLimitSteps(instanceId, []) == [];
    assert GeoIPSteps(instanceId, []) == [];
  }
}
