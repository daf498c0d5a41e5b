/** consul/registry.go: announcing certificates to a Consul agent. A
    certificate is known to the agent as a service whose id is the base64
    of its signature, with a TTL check next to it. The agent is a
    collaborator that records the requests it gets, keeps the services and
    checks registered with it, and turns down the kinds of request in its
    `refused` set (an agent that cannot be reached refuses them all). */
module Consul {
  import opened Types
  import Base64

  /** Five days. */
  const DefaultTTL := "432000s"

  /** getServiceId: standard padded base64 of the signature. */
  function ServiceId(cert: Certificate): (r: string)
    ensures |r| == 4 * ((|cert.signature| + 2) / 3)
  {
    Base64.EncodeLength(cert.signature);
    Base64.Encode(cert.signature)
  }

  /** getCheckId: the service id followed by "-valid". */
  function CheckId(cert: Certificate): (r: string)
    ensures |r| == |ServiceId(cert)| + 6 && r[..|ServiceId(cert)|] == ServiceId(cert)
  {
    ServiceId(cert) + "-valid"
  }

  /** Both ids tell certificates with different signatures apart. */
  lemma IdsInjective(a: Certificate, b: Certificate)
    ensures ServiceId(a) == ServiceId(b) ==> a.signature == b.signature
    ensures CheckId(a) == CheckId(b) ==> a.signature == b.signature
  {
    if ServiceId(a) == ServiceId(b) {
      Base64.EncodeInjective(a.signature, b.signature);
    }
    if CheckId(a) == CheckId(b) {
      assert ServiceId(a) == CheckId(a)[..|CheckId(a)| - 6] == CheckId(b)[..|CheckId(b)| - 6] == ServiceId(b);
      Base64.EncodeInjective(a.signature, b.signature);
    }
  }

  datatype ServiceRegistration = ServiceRegistration(id: string, name: string)

  datatype CheckRegistration = CheckRegistration(id: string, name: string, notes: string, serviceId: string, ttl: string)

  datatype AgentCall =
    | PassTTL(checkId: string, note: string)
    | FailTTL(checkId: string, note: string)
    | ServiceRegister(service: ServiceRegistration)
    | CheckRegister(check: CheckRegistration)
    | ServiceDeregister(serviceId: string)
    | CheckDeregister(checkId: string)

  /** The kinds of request an agent can turn down. */
  datatype Op = PassOp | FailOp | ServiceRegisterOp | CheckRegisterOp | ServiceDeregisterOp | CheckDeregisterOp

  function OpOf(c: AgentCall): Op
  {
    match c
    case PassTTL(_, _) => PassOp
    case FailTTL(_, _) => FailOp
    case ServiceRegister(_) => ServiceRegisterOp
    case CheckRegister(_) => CheckRegisterOp
    case ServiceDeregister(_) => ServiceDeregisterOp
    case CheckDeregister(_) => CheckDeregisterOp
  }

  /** What the agent holds: the requests so far, the registered services,
      and the registered checks with whether each is passing. */
  datatype AgentState = AgentState(calls: seq<AgentCall>, services: set<string>, checks: map<string, bool>)

  /** The agent's answer to one request. TTL updates need a registered
      check and a check needs its service. */
  function Handle(refused: set<Op>, st: AgentState, c: AgentCall): (r: (AgentState, Option<Error>))
    ensures r.0.calls == st.calls + [c]
    ensures OpOf(c) in refused ==> r.1.Some?
    ensures r.1.Some? ==> r.0 == st.(calls := st.calls + [c])
  {
    var st1 := st.(calls := st.calls + [c]);
    if OpOf(c) in refused then (st1, Some(External("request refused by the agent")))
    else
      match c
      case PassTTL(id, _) =>
        if id in st.checks then (st1.(checks := st.checks[id := true]), None)
        else (st1, Some(External("unknown check")))
      case FailTTL(id, _) =>
        if id in st.checks then (st1.(checks := st.checks[id := false]), None)
        else (st1, Some(External("unknown check")))
      case ServiceRegister(s) => (st1.(services := st.services + {s.id}), None)
      case CheckRegister(ch) =>
        if ch.serviceId in st.services then (st1.(checks := st.checks[ch.id := false]), None)
        else (st1, Some(External("unknown service")))
      case ServiceDeregister(id) => (st1.(services := st.services - {id}), None)
      case CheckDeregister(id) => (st1.(checks := st.checks - {id}), None)
  }

  class Agent {
    const refused: set<Op>
    var calls: seq<AgentCall>
    var services: set<string>
    var checks: map<string, bool>

    function View(): AgentState
      reads this
    {
      AgentState(calls, services, checks)
    }

    constructor (refused: set<Op>, services: set<string>, checks: map<string, bool>)
      ensures this.refused == refused && View() == AgentState([], services, checks)
    {
      this.refused := refused;
      calls := [];
      this.services := services;
      this.checks := checks;
    }

    /** Sends one request. */
    method Request(c: AgentCall) returns (err: Option<Error>)
      modifies this
      ensures (View(), err) == Handle(refused, old(View()), c)
    {
      var r := Handle(refused, View(), c);
      calls, services, checks := r.0.calls, r.0.services, r.0.checks;
      err := r.1;
    }
  }

  function CheckFor(cert: Certificate): CheckRegistration
  {
    CheckRegistration(CheckId(cert), ServiceId(cert), "TTL check for TLS certificate " + ServiceId(cert), ServiceId(cert), DefaultTTL)
  }

  /** CertAvailable: pass the TTL check; when that fails, register the
      service and then its check, stopping at the first error. */
  function CertAvailableOutcome(serviceName: string, refused: set<Op>, st: AgentState, cert: Certificate): (AgentState, Option<Error>)
  {
    var (st1, e1) := Handle(refused, st, PassTTL(CheckId(cert), "ok"));
    if e1.None? then (st1, None)
    else
      var (st2, e2) := Handle(refused, st1, ServiceRegister(ServiceRegistration(ServiceId(cert), serviceName)));
      if e2.Some? then (st2, Some(Wrap("Can't register service for TLS certificate", e2.value)))
      else
        var (st3, e3) := Handle(refused, st2, CheckRegister(CheckFor(cert)));
        (st3, WrapOpt("Can't register check", e3))
  }

  /** CertsExpired: fail the TTL check, deregister the service, deregister
      the check, stopping at the first error. */
  function CertsExpiredOutcome(refused: set<Op>, st: AgentState, cert: Certificate): (AgentState, Option<Error>)
  {
    var (st1, e1) := Handle(refused, st, FailTTL(CheckId(cert), "fail"));
    if e1.Some? then (st1, Some(Wrap("Failed to fail TTL check", e1.value)))
    else
      var (st2, e2) := Handle(refused, st1, ServiceDeregister(ServiceId(cert)));
      if e2.Some? then (st2, Some(Wrap("Can't deregister certificate service instance", e2.value)))
      else
        var (st3, e3) := Handle(refused, st2, CheckDeregister(CheckId(cert)));
        (st3, WrapOpt("Can't deregister check for certificate", e3))
  }

  datatype ConsulRegistry = ConsulRegistry(agent: Agent, serviceName: string)
  {
    method CertAvailable(cert: Certificate) returns (err: Option<Error>)
      modifies agent
      ensures (agent.View(), err) == CertAvailableOutcome(serviceName, agent.refused, old(agent.View()), cert)
    {
      var serviceId := ServiceId(cert);
      var checkId := CheckId(cert);
      var e := agent.Request(PassTTL(checkId, "ok"));
      if e.Some? {
        var checkReg := CheckRegistration(checkId, serviceId, "TTL check for TLS certificate " + serviceId, serviceId, DefaultTTL);
        var service := ServiceRegistration(serviceId, serviceName);
        e := agent.Request(ServiceRegister(service));
        if e.Some? {
          return Some(Wrap("Can't register service for TLS certificate", e.value));
        }
        e := agent.Request(CheckRegister(checkReg));
        if e.Some? {
          return Some(Wrap("Can't register check", e.value));
        }
      }
      return None;
    }

    method CertsExpired(cert: Certificate) returns (err: Option<Error>)
      modifies agent
      ensures (agent.View(), err) == CertsExpiredOutcome(agent.refused, old(agent.View()), cert)
    {
      var serviceId := ServiceId(cert);
      var checkId := CheckId(cert);
      var e := agent.Request(FailTTL(checkId, "fail"));
      if e.Some? {
        return Some(Wrap("Failed to fail TTL check", e.value));
      }
      e := agent.Request(ServiceDeregister(serviceId));
      if e.Some? {
        return Some(Wrap("Can't deregister certificate service instance", e.value));
      }
      e := agent.Request(CheckDeregister(checkId));
      if e.Some? {
        return Some(Wrap("Can't deregister check for certificate", e.value));
      }
      return None;
    }
  }

  /** NewConsulRegistry, given the outcome of creating the client and of
      asking it for the cluster leader. */
  function NewConsulRegistry(agent: Agent, serviceName: string, clientErr: Option<Error>, leaderErr: Option<Error>): (r: Result<ConsulRegistry>)
    ensures r.Ok? <==> clientErr.None? && leaderErr.None?
    ensures r.Ok? ==> r.value.agent == agent && r.value.serviceName == serviceName
  {
    if clientErr.Some? then Err(Wrap("Can't create Consul client", clientErr.value))
    else if leaderErr.Some? then Err(Wrap("Can't connect to consul node", leaderErr.value))
    else Ok(ConsulRegistry(agent, serviceName))
  }

  // ---------------------------------------------------------------- properties

  /** The requests CertAvailable sends: PassTTL on the check id; only when
      that fails, ServiceRegister of the service id under the service name;
      only when that succeeds, CheckRegister of the check with the default
      TTL under the service id, which then fails only if the agent refuses
      check registrations, and otherwise leaves the check registered and
      not yet passing. */
  lemma CertAvailableCalls(serviceName: string, refused: set<Op>, st: AgentState, cert: Certificate)
    ensures var r := CertAvailableOutcome(serviceName, refused, st, cert);
      var pass, reg, check := PassTTL(CheckId(cert), "ok"), ServiceRegister(ServiceRegistration(ServiceId(cert), serviceName)), CheckRegister(CheckFor(cert));
      && (Handle(refused, st, pass).1.None? ==> r.0.calls == st.calls + [pass] && r.1.None?)
      && (Handle(refused, st, pass).1.Some? && (ServiceRegisterOp in refused) ==> r.0.calls == st.calls + [pass, reg] && r.1.Some?)
      && (Handle(refused, st, pass).1.Some? && (ServiceRegisterOp !in refused) ==>
            && r.0.calls == st.calls + [pass, reg, check]
            && ServiceId(cert) in r.0.services
            && (r.1.None? <==> CheckRegisterOp !in refused)
            && (r.1.None? ==> r.0.checks == st.checks[CheckId(cert) := false]))
  {
    var pass, reg, check := PassTTL(CheckId(cert), "ok"), ServiceRegister(ServiceRegistration(ServiceId(cert), serviceName)), CheckRegister(CheckFor(cert));
    var (st1, e1) := Handle(refused, st, pass);
    var (st2, e2) := Handle(refused, st1, reg);
    assert st1.calls + [reg] == st.calls + [pass, reg];
    assert st2.calls + [check] == st.calls + [pass, reg, check];
  }

  /** The check registered by CertAvailable carries the default TTL and
      belongs to the service named by the signature. */
  lemma CheckRegistrationShape(cert: Certificate)
    ensures CheckFor(cert).ttl == DefaultTTL && CheckFor(cert).serviceId == ServiceId(cert)
    ensures CheckFor(cert).id == ServiceId(cert) + "-valid"
  {
  }

  /** After CertAvailable succeeds the agent knows the check; the next
      CertAvailable for the same certificate only passes the TTL. */
  lemma CertAvailableIdempotent(serviceName: string, refused: set<Op>, st: AgentState, cert: Certificate)
    requires PassOp !in refused
    ensures var r := CertAvailableOutcome(serviceName, refused, st, cert);
      r.1.None? ==> (CheckId(cert) in r.0.checks
        && CertAvailableOutcome(serviceName, refused, r.0, cert)
           == (r.0.(calls := r.0.calls + [PassTTL(CheckId(cert), "ok")], checks := r.0.checks[CheckId(cert) := true]), None))
  {
  }

  /** CertsExpired sends FailTTL, ServiceDeregister and CheckDeregister in
      this order, stops at the first error, and on success the agent no
      longer knows the service or the check. */
  lemma CertsExpiredCalls(refused: set<Op>, st: AgentState, cert: Certificate)
    ensures var r := CertsExpiredOutcome(refused, st, cert);
      var fail, dereg, checkDereg := FailTTL(CheckId(cert), "fail"), ServiceDeregister(ServiceId(cert)), CheckDeregister(CheckId(cert));
      && (r.1.None? <==> CheckId(cert) in st.checks && FailOp !in refused && ServiceDeregisterOp !in refused && CheckDeregisterOp !in refused)
      && (r.1.None? ==> r.0.calls == st.calls + [fail, dereg, checkDereg]
                        && ServiceId(cert) !in r.0.services && CheckId(cert) !in r.0.checks)
      && (r.1.Some? ==> r.0.calls == st.calls + [fail] || r.0.calls == st.calls + [fail, dereg]
                        || r.0.calls == st.calls + [fail, dereg, checkDereg])
  {
    var fail, dereg, checkDereg := FailTTL(CheckId(cert), "fail"), ServiceDeregister(ServiceId(cert)), CheckDeregister(CheckId(cert));
    var (st1, e1) := Handle(refused, st, fail);
    var (st2, e2) := Handle(refused, st1, dereg);
    assert st1.calls + [dereg] == st.calls + [fail, dereg];
    assert st2.calls + [checkDereg] == st.calls + [fail, dereg, checkDereg];
  }
}
