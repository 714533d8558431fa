/**
 * Decision logic of the GAAP layer-4 listener resource
 * (tencentcloud_gaap_layer4_listener): the rejection rules of Create and
 * Update, the realserver list Create builds, the key that identifies a
 * realserver bind in the `realserver_bind_set` set, how Read chooses between
 * the TCP and the UDP listener and which defaults it fills for UDP, and the
 * change list Update accumulates.
 *
 * Remote calls (GaapService, each behind its retry loop) are oracles: a
 * create call yields the new listener id or fails (`created`), any other
 * call succeeds or fails (`succeeds`). The schema's value checks (protocol,
 * scheduler and realserver type from fixed lists) are the datatypes below.
 */
module GaapLayer4Listener {
  import opened Wrappers
  import opened Strings
  import opened Changes

  datatype Protocol = TCP | UDP

  datatype Scheduler = Rr | Wrr | Lc

  datatype RealserverType = IpType | DomainType

  /** One element of `realserver_bind_set`. */
  datatype RealserverBind = RealserverBind(id: string, ip: string, port: int, weight: int)

  /** The planned resource data that Create and Update read. */
  datatype ListenerConfig = ListenerConfig(
    protocol: Protocol, name: string, port: int, scheduler: Scheduler,
    realserverType: RealserverType, proxyId: string, healthCheck: bool,
    interval: int, connectTimeout: int, clientIpMethod: int,
    realservers: seq<RealserverBind>)

  datatype GaapCall =
    | CreateTCPListener(name: string, scheduler: Scheduler, realserverType: RealserverType, proxyId: string,
                        port: int, interval: int, connectTimeout: int, clientIpMethod: int, healthCheck: bool)
    | CreateUDPListener(name: string, scheduler: Scheduler, realserverType: RealserverType, proxyId: string,
                        port: int)
    | BindRealservers(listenerId: string, protocol: Protocol, proxyId: string, realservers: seq<RealserverBind>)
    | ModifyTCPListenerAttribute(proxyId: string, listenerId: string, newName: Option<string>,
                                 newScheduler: Option<Scheduler>, newHealthCheck: Option<bool>,
                                 interval: int, connectTimeout: int)
    | ModifyUDPListenerAttribute(proxyId: string, listenerId: string, newName: Option<string>,
                                 newScheduler: Option<Scheduler>)
    | DeleteLayer4Listener(listenerId: string, proxyId: string, protocol: Protocol)

  datatype GaapError =
    | TcpDomainWrr
    | UdpHealthCheck
    | UdpCannotEnableHealthCheck
    | TimeoutNotBelowInterval
    | RrWeightNotOne
    | HealthCheckNil
    | CreateTimeNil
    | DescribeFailed(protocol: Protocol)
    | ApiFailed(call: GaapCall)

  // ------------------------------------------------------------ the rules

  /** A TCP listener with DOMAIN realservers cannot use the wrr scheduler. */
  predicate TcpDomainWrrRule(cfg: ListenerConfig)
  {
    !(cfg.protocol == TCP && cfg.realserverType == DomainType && cfg.scheduler == Wrr)
  }

  /** A UDP listener cannot use health check. */
  predicate UdpHealthCheckRule(cfg: ListenerConfig)
  {
    !(cfg.protocol == UDP && cfg.healthCheck)
  }

  /** For TCP only, the connect timeout must be below the interval. */
  predicate TimeoutRule(cfg: ListenerConfig)
  {
    cfg.protocol == TCP ==> cfg.connectTimeout < cfg.interval
  }

  /** With the rr scheduler every realserver has weight 1. */
  predicate RrWeightRule(scheduler: Scheduler, realservers: seq<RealserverBind>)
  {
    scheduler == Rr ==> forall i :: 0 <= i < |realservers| ==> realservers[i].weight == 1
  }

  /** The first rule Create finds broken, in the order Create checks them. */
  function CreateRejection(cfg: ListenerConfig): (e: Option<GaapError>)
  {
    if !TcpDomainWrrRule(cfg) then Some(TcpDomainWrr)
    else if !UdpHealthCheckRule(cfg) then Some(UdpHealthCheck)
    else if !TimeoutRule(cfg) then Some(TimeoutNotBelowInterval)
    else if !RrWeightRule(cfg.scheduler, cfg.realservers) then Some(RrWeightNotOne)
    else None
  }

  /** The list of Create's rules, written out: a configuration is rejected
      exactly when one of the four rules is broken, what is reported is one
      of those rules' errors, the error reported names a rule that is
      broken, and a UDP listener never breaks the two rules that only
      concern TCP. */
  lemma CreateRejectionSpec(cfg: ListenerConfig)
    ensures CreateRejection(cfg).None? <==>
              TcpDomainWrrRule(cfg) && UdpHealthCheckRule(cfg) && TimeoutRule(cfg)
              && RrWeightRule(cfg.scheduler, cfg.realservers)
    ensures CreateRejection(cfg).Some? ==>
              CreateRejection(cfg).value in {TcpDomainWrr, UdpHealthCheck, TimeoutNotBelowInterval, RrWeightNotOne}
    ensures cfg.protocol == UDP ==> CreateRejection(cfg) != Some(TimeoutNotBelowInterval)
    ensures cfg.protocol == UDP ==> CreateRejection(cfg) != Some(TcpDomainWrr)
    ensures CreateRejection(cfg) == Some(TcpDomainWrr) <==> !TcpDomainWrrRule(cfg)
    ensures CreateRejection(cfg) == Some(UdpHealthCheck) ==> !UdpHealthCheckRule(cfg)
    ensures CreateRejection(cfg) == Some(TimeoutNotBelowInterval) ==> !TimeoutRule(cfg)
    ensures CreateRejection(cfg) == Some(RrWeightNotOne) ==> !RrWeightRule(cfg.scheduler, cfg.realservers)
  {
  }

  // ------------------------------------------------------------ Create

  /** The loop of Create over `realserver_bind_set`: copies every bind and
      aborts at the first weight other than 1 when the scheduler is rr. */
  method BuildRealservers(scheduler: Scheduler, binds: seq<RealserverBind>)
    returns (r: Result<seq<RealserverBind>, GaapError>)
    ensures r.Failure? <==> !RrWeightRule(scheduler, binds)
    ensures r.Failure? ==> r.error == RrWeightNotOne
    ensures r.Success? ==> r.value == binds
  {
    var realservers: seq<RealserverBind> := [];
    var i := 0;
    while i < |binds|
      invariant 0 <= i <= |binds|
      invariant realservers == binds[..i]
      invariant scheduler == Rr ==> forall j :: 0 <= j < i ==> binds[j].weight == 1
    {
      var m := binds[i];
      if scheduler == Rr && m.weight != 1 {
        return Failure(RrWeightNotOne);
      }
      realservers := realservers + [RealserverBind(m.id, m.ip, m.port, m.weight)];
      i := i + 1;
    }
    assert binds[..|binds|] == binds;
    return Success(realservers);
  }

  /** The create request for the configured protocol. */
  function CreateCall(cfg: ListenerConfig): GaapCall
  {
    match cfg.protocol
    case TCP => CreateTCPListener(cfg.name, cfg.scheduler, cfg.realserverType, cfg.proxyId, cfg.port,
                                  cfg.interval, cfg.connectTimeout, cfg.clientIpMethod, cfg.healthCheck)
    case UDP => CreateUDPListener(cfg.name, cfg.scheduler, cfg.realserverType, cfg.proxyId, cfg.port)
  }

  /** resourceTencentCloudGaapLayer4ListenerCreate up to the final Read:
      returns the calls issued, the id set and the error returned. */
  method Create(cfg: ListenerConfig, created: GaapCall -> Option<string>, succeeds: GaapCall -> bool)
    returns (calls: seq<GaapCall>, id: string, err: Option<GaapError>)
    ensures CreateRejection(cfg).Some? ==> calls == [] && id == "" && err == CreateRejection(cfg)
    ensures CreateRejection(cfg).None? ==> 1 <= |calls| <= 2 && calls[0] == CreateCall(cfg)
    ensures calls != [] && created(calls[0]).None? ==>
              calls == [calls[0]] && id == "" && err == Some(ApiFailed(calls[0]))
    ensures calls != [] && created(calls[0]).Some? ==> id == created(calls[0]).value
    ensures |calls| == 2 <==>
              calls != [] && created(calls[0]).Some? && |cfg.realservers| > 0
    ensures |calls| == 2 ==>
              calls[1] == BindRealservers(id, cfg.protocol, cfg.proxyId, cfg.realservers)
              && (err.None? <==> succeeds(calls[1]))
              && (err.Some? ==> err == Some(ApiFailed(calls[1])))
    ensures err.None? <==>
              CreateRejection(cfg).None? && created(CreateCall(cfg)).Some?
              && (|cfg.realservers| > 0 ==>
                    succeeds(BindRealservers(created(CreateCall(cfg)).value, cfg.protocol, cfg.proxyId, cfg.realservers)))
  {
    calls, id, err := [], "", None;
    if cfg.protocol == TCP && cfg.realserverType == DomainType && cfg.scheduler == Wrr {
      err := Some(TcpDomainWrr);
      return;
    }
    if cfg.protocol == UDP && cfg.healthCheck {
      err := Some(UdpHealthCheck);
      return;
    }
    if cfg.protocol == TCP && cfg.connectTimeout >= cfg.interval {
      err := Some(TimeoutNotBelowInterval);
      return;
    }

    var realservers: seq<RealserverBind> := [];
    if |cfg.realservers| > 0 {
      var built := BuildRealservers(cfg.scheduler, cfg.realservers);
      if built.Failure? {
        err := Some(built.error);
        return;
      }
      realservers := built.value;
    }

    var create := CreateCall(cfg);
    calls := [create];
    var newId := created(create);
    if newId.None? {
      err := Some(ApiFailed(create));
      return;
    }
    id := newId.value;

    if |realservers| > 0 {
      var bind := BindRealservers(id, cfg.protocol, cfg.proxyId, realservers);
      calls := calls + [bind];
      if !succeeds(bind) {
        err := Some(ApiFailed(bind));
      }
    }
  }

  // ------------------------------------------------------------ the set key

  /** The string the `realserver_bind_set` hash is computed from:
      "<id>-<ip>-<port>-<weight>". Terraform treats two binds with the same
      key as the same element of the set. */
  function BindKey(b: RealserverBind): string
  {
    b.id + "-" + b.ip + "-" + Decimal(b.port) + "-" + Decimal(b.weight)
  }

  /** A key splits on '-' into the pieces of the id followed by the ip, the
      port and the weight, when the ip has no '-' and the numbers are not negative. */
  lemma {:induction false} SplitBindKey(b: RealserverBind)
    requires '-' !in b.ip && b.port >= 0 && b.weight >= 0
    ensures Split(BindKey(b), '-') == Split(b.id, '-') + [b.ip, Digits(b.port), Digits(b.weight)]
  {
    var p, w := Digits(b.port), Digits(b.weight);
    assert BindKey(b) == (b.id + ['-'] + b.ip + ['-'] + p) + ['-'] + w;
    SplitConcat(b.id + ['-'] + b.ip + ['-'] + p, w, '-');
    SplitConcat(b.id + ['-'] + b.ip, p, '-');
    SplitConcat(b.id, b.ip, '-');
    SplitNoSep(b.ip, '-');
    SplitNoSep(p, '-');
    SplitNoSep(w, '-');
  }

  /** Two binds whose ips hold no '-' (IPv4 and IPv6 addresses) and whose port
      and weight are in the schema's ranges have the same key exactly when they
      are the same bind; the id may contain '-'. */
  lemma BindKeyInjective(a: RealserverBind, b: RealserverBind)
    requires '-' !in a.ip && '-' !in b.ip
    requires 0 <= a.port && 0 <= b.port && 0 <= a.weight && 0 <= b.weight
    ensures BindKey(a) == BindKey(b) <==> a == b
  {
    if BindKey(a) == BindKey(b) {
      SplitBindKey(a);
      SplitBindKey(b);
      var sa, sb := Split(BindKey(a), '-'), Split(BindKey(b), '-');
      var na, nb := |Split(a.id, '-')|, |Split(b.id, '-')|;
      assert na == nb;
      assert sa[na] == a.ip && sb[nb] == b.ip;
      assert sa[na + 1] == Digits(a.port) && sb[nb + 1] == Digits(b.port);
      assert sa[na + 2] == Digits(a.weight) && sb[nb + 2] == Digits(b.weight);
      DigitsInjective(a.port, b.port);
      DigitsInjective(a.weight, b.weight);
      assert sa[..na] == Split(a.id, '-');
      assert sb[..nb] == Split(b.id, '-');
      JoinSplit(a.id, '-');
      JoinSplit(b.id, '-');
    }
  }

  /** With DOMAIN realservers the ip is a domain name and may hold '-': then
      two different binds can share a key, and the set keeps only one of them. */
  lemma BindKeyAmbiguousForDomains()
    ensures var a, b := RealserverBind("rs-1", "x-y.com", 80, 1), RealserverBind("rs-1-x", "y.com", 80, 1);
            a != b && BindKey(a) == BindKey(b)
  {
    var a, b := RealserverBind("rs-1", "x-y.com", 80, 1), RealserverBind("rs-1-x", "y.com", 80, 1);
    assert Digits(80) == "80" by {
      assert Digits(8) == "8";
    }
    assert Digits(1) == "1";
    assert BindKey(a) == "rs-1-x-y.com-80-1";
    assert BindKey(b) == "rs-1-x-y.com-80-1";
  }

  // ------------------------------------------------------------ Read

  /** The fields of a TCP listener as DescribeTCPListeners returns them. */
  datatype TcpListenerInfo = TcpListenerInfo(
    name: string, port: int, scheduler: Scheduler, realserverType: RealserverType,
    healthCheck: Option<int>, delayLoop: int, connectTimeout: int, clientIpMethod: int,
    realservers: seq<RealserverBind>, status: int, createTime: Option<int>)

  /** The fields of a UDP listener as DescribeUDPListeners returns them. */
  datatype UdpListenerInfo = UdpListenerInfo(
    name: string, port: int, scheduler: Scheduler, realserverType: RealserverType,
    realservers: seq<RealserverBind>, status: int, createTime: Option<int>)

  /** What Read writes into the resource data. */
  datatype ListenerState = ListenerState(
    protocol: Protocol, name: string, port: int, scheduler: Scheduler, realserverType: RealserverType,
    healthCheck: bool, interval: int, connectTimeout: int, clientIpMethod: int,
    realservers: seq<RealserverBind>, status: int, createTime: int)

  datatype ReadOutcome = Found(state: ListenerState) | Gone | ReadFailed(error: GaapError)

  /** The values Read fills in for a UDP listener, which has no health check. */
  const UdpDefaultHealthCheck := false
  const UdpDefaultConnectTimeout := 2
  const UdpDefaultInterval := 5
  const UdpDefaultClientIpMethod := 0

  function Head<T>(s: seq<T>): Option<T>
  {
    if |s| > 0 then Some(s[0]) else None
  }

  /** The choice Read makes once both describes succeeded, given the first
      TCP and the first UDP listener found (if any). */
  function ReadOutcomeOf(tcp: Option<TcpListenerInfo>, udp: Option<UdpListenerInfo>): ReadOutcome
  {
    if tcp.Some? then
      var l := tcp.value;
      if l.healthCheck.None? then ReadFailed(HealthCheckNil)
      else if l.createTime.None? then ReadFailed(CreateTimeNil)
      else Found(ListenerState(TCP, l.name, l.port, l.scheduler, l.realserverType,
                               l.healthCheck.value == 1, l.delayLoop, l.connectTimeout,
                               l.clientIpMethod, l.realservers, l.status, l.createTime.value))
    else if udp.Some? then
      var l := udp.value;
      if l.createTime.None? then ReadFailed(CreateTimeNil)
      else Found(ListenerState(UDP, l.name, l.port, l.scheduler, l.realserverType,
                               UdpDefaultHealthCheck, UdpDefaultInterval, UdpDefaultConnectTimeout,
                               UdpDefaultClientIpMethod, l.realservers, l.status, l.createTime.value))
    else Gone
  }

  /** TCP takes precedence over UDP; a UDP listener always reads back with
      health check off, timeout 2, interval 5 and client-ip method 0; when
      neither exists the resource is gone, which is not an error. */
  lemma ReadOutcomeSpec(tcp: Option<TcpListenerInfo>, udp: Option<UdpListenerInfo>)
    ensures tcp.Some? ==> ReadOutcomeOf(tcp, udp) == ReadOutcomeOf(tcp, None)
    ensures ReadOutcomeOf(tcp, udp).Gone? <==> tcp.None? && udp.None?
    ensures ReadOutcomeOf(tcp, udp).Found? ==> (ReadOutcomeOf(tcp, udp).state.protocol == TCP <==> tcp.Some?)
    ensures ReadOutcomeOf(tcp, udp).Found? && ReadOutcomeOf(tcp, udp).state.protocol == UDP ==>
              var st := ReadOutcomeOf(tcp, udp).state;
              !st.healthCheck && st.connectTimeout == 2 && st.interval == 5 && st.clientIpMethod == 0
    ensures ReadOutcomeOf(tcp, udp).ReadFailed? ==>
              ReadOutcomeOf(tcp, udp).error in {HealthCheckNil, CreateTimeNil}
    ensures tcp.Some? && tcp.value.healthCheck.None? ==> ReadOutcomeOf(tcp, udp) == ReadFailed(HealthCheckNil)
  {
  }

  /** resourceTencentCloudGaapLayer4ListenerRead given the two describe
      responses (None: the describe call failed). Both describes run before
      the choice, so a failing UDP describe fails Read even when a TCP
      listener exists. */
  method ReadListener(tcp: Option<seq<TcpListenerInfo>>, udp: Option<seq<UdpListenerInfo>>)
    returns (outcome: ReadOutcome)
    ensures tcp.None? ==> outcome == ReadFailed(DescribeFailed(TCP))
    ensures tcp.Some? && udp.None? ==> outcome == ReadFailed(DescribeFailed(UDP))
    ensures tcp.Some? && udp.Some? ==> outcome == ReadOutcomeOf(Head(tcp.value), Head(udp.value))
  {
    if tcp.None? {
      return ReadFailed(DescribeFailed(TCP));
    }
    if udp.None? {
      return ReadFailed(DescribeFailed(UDP));
    }
    var protocol: Protocol;
    var healthCheck: bool;
    var interval, connectTimeout, clientIpMethod: int;
    var name: string;
    var port, status, createTime: int;
    var scheduler: Scheduler;
    var realserverType: RealserverType;
    var realservers: seq<RealserverBind>;
    if |tcp.value| > 0 {
      protocol := TCP;
      var listener := tcp.value[0];
      clientIpMethod := listener.clientIpMethod;
      name, port, scheduler, realserverType := listener.name, listener.port, listener.scheduler, listener.realserverType;
      if listener.healthCheck.None? {
        return ReadFailed(HealthCheckNil);
      }
      healthCheck := listener.healthCheck.value == 1;
      interval, connectTimeout := listener.delayLoop, listener.connectTimeout;
      realservers := listener.realservers;
      status := listener.status;
      if listener.createTime.None? {
        return ReadFailed(CreateTimeNil);
      }
      createTime := listener.createTime.value;
    } else if |udp.value| > 0 {
      protocol := UDP;
      var listener := udp.value[0];
      name, port, scheduler, realserverType := listener.name, listener.port, listener.scheduler, listener.realserverType;
      healthCheck := UdpDefaultHealthCheck;
      connectTimeout := UdpDefaultConnectTimeout;
      interval := UdpDefaultInterval;
      clientIpMethod := UdpDefaultClientIpMethod;
      realservers := listener.realservers;
      status := listener.status;
      if listener.createTime.None? {
        return ReadFailed(CreateTimeNil);
      }
      createTime := listener.createTime.value;
    } else {
      return Gone;
    }
    return Found(ListenerState(protocol, name, port, scheduler, realserverType, healthCheck,
                               interval, connectTimeout, clientIpMethod, realservers, status, createTime));
  }

  /** A listener Create accepted, stored by the service as configured, reads
      back with the configured values, health check included (for UDP Create
      has ruled health check out, so the default false agrees). */
  lemma ReadAfterCreate(cfg: ListenerConfig, listenerStatus: int, createTime: int)
    requires CreateRejection(cfg).None?
    ensures var outcome :=
              if cfg.protocol == TCP
              then ReadOutcomeOf(Some(TcpListenerInfo(cfg.name, cfg.port, cfg.scheduler, cfg.realserverType,
                                                      Some(if cfg.healthCheck then 1 else 0), cfg.interval,
                                                      cfg.connectTimeout, cfg.clientIpMethod, cfg.realservers,
                                                      listenerStatus, Some(createTime))), None)
              else ReadOutcomeOf(None, Some(UdpListenerInfo(cfg.name, cfg.port, cfg.scheduler, cfg.realserverType,
                                                            cfg.realservers, listenerStatus, Some(createTime))));
            && outcome.Found?
            && outcome.state.protocol == cfg.protocol && outcome.state.name == cfg.name
            && outcome.state.realservers == cfg.realservers
            && outcome.state.healthCheck == cfg.healthCheck
            && (cfg.protocol == TCP ==>
                  outcome.state.interval == cfg.interval && outcome.state.connectTimeout == cfg.connectTimeout)
  {
  }

  // ------------------------------------------------------------ Update

  datatype ListenerAttr = NameAttr | SchedulerAttr | HealthCheckAttr | IntervalAttr | ConnectTimeoutAttr
                        | RealserverBindSetAttr

  /** The attributes whose change makes Update modify the listener, in the
      order checked; the UDP health-check rule sits after the first segment. */
  const ModifyAttrs: seq<ListenerAttr> := [NameAttr, SchedulerAttr, HealthCheckAttr] + [IntervalAttr, ConnectTimeoutAttr]

  /** The modify request Update sends: name, scheduler and health check only
      when they changed; TCP also carries interval and timeout. */
  function ModifyCall(id: string, cfg: ListenerConfig, changed: set<ListenerAttr>): GaapCall
  {
    var name := if NameAttr in changed then Some(cfg.name) else None;
    var scheduler := if SchedulerAttr in changed then Some(cfg.scheduler) else None;
    var healthCheck := if HealthCheckAttr in changed then Some(cfg.healthCheck) else None;
    match cfg.protocol
    case TCP => ModifyTCPListenerAttribute(cfg.proxyId, id, name, scheduler, healthCheck, cfg.interval, cfg.connectTimeout)
    case UDP => ModifyUDPListenerAttribute(cfg.proxyId, id, name, scheduler)
  }

  /** The calls Update plans once its checks pass. */
  function PlannedListenerUpdate(id: string, cfg: ListenerConfig, changed: set<ListenerAttr>): seq<GaapCall>
  {
    (if ChangedIn(ModifyAttrs, changed) == [] then [] else [ModifyCall(id, cfg, changed)])
    + (if RealserverBindSetAttr in changed then [BindRealservers(id, cfg.protocol, cfg.proxyId, cfg.realservers)] else [])
  }

  /** The first check Update finds broken: enabling health check on UDP,
      then the TCP timeout rule. */
  function UpdateRejection(cfg: ListenerConfig, changed: set<ListenerAttr>): Option<GaapError>
  {
    if cfg.protocol == UDP && HealthCheckAttr in changed && cfg.healthCheck then Some(UdpCannotEnableHealthCheck)
    else if !TimeoutRule(cfg) then Some(TimeoutNotBelowInterval)
    else None
  }

  /** resourceTencentCloudGaapLayer4ListenerUpdate up to the final Read.
      `changed` is what d.HasChange reports and `cfg` the new values. */
  method Update(id: string, cfg: ListenerConfig, changed: set<ListenerAttr>, succeeds: GaapCall -> bool)
    returns (calls: seq<GaapCall>, attrChange: seq<ListenerAttr>, err: Option<GaapError>)
    ensures UpdateRejection(cfg, changed).Some? ==> calls == [] && err == UpdateRejection(cfg, changed)
    ensures UpdateRejection(cfg, changed).None? ==> attrChange == ChangedIn(ModifyAttrs, changed)
    ensures calls <= PlannedListenerUpdate(id, cfg, changed)
    ensures err.None? <==>
              UpdateRejection(cfg, changed).None? && forall c :: c in PlannedListenerUpdate(id, cfg, changed) ==> succeeds(c)
    ensures err.None? ==> calls == PlannedListenerUpdate(id, cfg, changed)
    ensures UpdateRejection(cfg, changed).None? && err.Some? ==> err.value.ApiFailed?
    ensures err.Some? && err.value.ApiFailed? ==>
              calls != [] && err.value.call == calls[|calls| - 1] && !succeeds(err.value.call)
              && forall i :: 0 <= i < |calls| - 1 ==> succeeds(calls[i])
  {
    calls, attrChange, err := [], [], None;
    attrChange := AppendIfChanged(attrChange, NameAttr, changed);
    attrChange := AppendIfChanged(attrChange, SchedulerAttr, changed);
    attrChange := AppendIfChanged(attrChange, HealthCheckAttr, changed);
    var healthCheck: Option<bool> := if HealthCheckAttr in changed then Some(cfg.healthCheck) else None;
    if cfg.protocol == UDP && healthCheck.Some? && healthCheck.value {
      err := Some(UdpCannotEnableHealthCheck);
      return;
    }
    attrChange := AppendIfChanged(attrChange, IntervalAttr, changed);
    attrChange := AppendIfChanged(attrChange, ConnectTimeoutAttr, changed);
    if cfg.protocol == TCP && cfg.connectTimeout >= cfg.interval {
      err := Some(TimeoutNotBelowInterval);
      return;
    }
    ModifyAttrsWalk(changed);

    if |attrChange| > 0 {
      var modifyCall := ModifyCall(id, cfg, changed);
      calls := [modifyCall];
      if !succeeds(modifyCall) {
        err := Some(ApiFailed(modifyCall));
        return;
      }
    }

    if RealserverBindSetAttr in changed {
      var bind := BindRealservers(id, cfg.protocol, cfg.proxyId, cfg.realservers);
      calls := calls + [bind];
      if !succeeds(bind) {
        err := Some(ApiFailed(bind));
        return;
      }
    }
  }

  /** The change list, spelled out step by step. */
  lemma ModifyAttrsWalk(changed: set<ListenerAttr>)
    ensures ChangedIn(ModifyAttrs, changed) ==
              [] + Pick(NameAttr, changed) + Pick(SchedulerAttr, changed) + Pick(HealthCheckAttr, changed)
              + Pick(IntervalAttr, changed) + Pick(ConnectTimeoutAttr, changed)
  {
    var o := ModifyAttrs;
    assert o[..0] == [];
    ChangedInPrefix(o, 0, changed);
    ChangedInPrefix(o, 1, changed);
    ChangedInPrefix(o, 2, changed);
    ChangedInPrefix(o, 3, changed);
    ChangedInPrefix(o, 4, changed);
    assert o[..5] == o;
  }

  /** The modify call is planned exactly when one of the five attributes
      changed, and it carries a new name, scheduler or health check exactly
      when that attribute changed. */
  lemma ModifyPlannedIffChanged(id: string, cfg: ListenerConfig, changed: set<ListenerAttr>)
    ensures (exists c :: c in PlannedListenerUpdate(id, cfg, changed)
                         && (c.ModifyTCPListenerAttribute? || c.ModifyUDPListenerAttribute?)) <==>
              exists a :: a in ModifyAttrs && a in changed
    ensures ModifyCall(id, cfg, changed).newName.Some? <==> NameAttr in changed
    ensures ModifyCall(id, cfg, changed).newScheduler.Some? <==> SchedulerAttr in changed
    ensures cfg.protocol == TCP ==> (ModifyCall(id, cfg, changed).newHealthCheck.Some? <==> HealthCheckAttr in changed)
  {
    ChangedInEmpty(ModifyAttrs, changed);
    var plan := PlannedListenerUpdate(id, cfg, changed);
    if exists a :: a in ModifyAttrs && a in changed {
      assert plan[0] == ModifyCall(id, cfg, changed);
    }
  }

  /** Unlike Create, Update does not check realserver weights against the rr
      scheduler: a rebind with weight 2 under rr is sent as planned. */
  lemma UpdateSkipsRrWeightRule(id: string, cfg: ListenerConfig)
    requires cfg.scheduler == Rr && cfg.realservers == [RealserverBind("rs-1", "1.1.1.1", 80, 2)]
    requires cfg.protocol == TCP && cfg.connectTimeout < cfg.interval
    ensures !RrWeightRule(cfg.scheduler, cfg.realservers)
    ensures UpdateRejection(cfg, {RealserverBindSetAttr}).None?
    ensures PlannedListenerUpdate(id, cfg, {RealserverBindSetAttr}) ==
              [BindRealservers(id, TCP, cfg.proxyId, cfg.realservers)]
  {
    assert cfg.realservers[0].weight != 1;
    ChangedInEmpty(ModifyAttrs, {RealserverBindSetAttr});
  }

  // ------------------------------------------------------------ Delete

  /** resourceTencentCloudGaapLayer4ListenerDelete: one delete call. */
  method Delete(id: string, cfg: ListenerConfig, succeeds: GaapCall -> bool)
    returns (calls: seq<GaapCall>, err: Option<GaapError>)
    ensures calls == [DeleteLayer4Listener(id, cfg.proxyId, cfg.protocol)]
    ensures err.None? <==> succeeds(calls[0])
    ensures err.Some? ==> err.value == ApiFailed(calls[0])
  {
    var delete := DeleteLayer4Listener(id, cfg.proxyId, cfg.protocol);
    calls := [delete];
    err := if succeeds(delete) then None else Some(ApiFailed(delete));
  }
}
