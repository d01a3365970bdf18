/**
 * snmp/pinger_driver.go: the registry of SNMP pingers, keyed by
 * "<network>,<address>".  A pinger's sockets are not modelled: a pinger
 * keeps the probes sent through it and the arrivals it will receive, and
 * its send results, JSON decoding, getVersion, ParseIPRange and NewPinger
 * are inputs.
 */
module PingerDrivers {
  import opened Common
  import SnmpClient

  /** A probe sent through a pinger: the target "host:port" and the SNMP version. */
  datatype Probe = Probe(target: string, version: SnmpClient.SnmpVersion)

  /** What Recv answers: an address with its version, a timeout, or another error. */
  datatype Arrival = Arrived(addr: string, version: string) | RecvTimeout | RecvFailed(message: string)

  class Pinger {
    const network: string
    const address: string
    /** What Recv will answer, in order; past the end it times out. */
    var inbox: seq<Arrival>
    var sent: seq<Probe>
    var closed: bool

    constructor (network: string, address: string, inbox: seq<Arrival>)
      ensures this.network == network && this.address == address
      ensures this.inbox == inbox && sent == [] && !closed
    {
      this.network := network;
      this.address := address;
      this.inbox := inbox;
      sent := [];
      closed := false;
    }

    method Recv() returns (a: Arrival)
      modifies this
      ensures old(inbox) == [] ==> a == RecvTimeout && inbox == []
      ensures old(inbox) != [] ==> a == old(inbox)[0] && inbox == old(inbox)[1..]
      ensures sent == old(sent) && closed == old(closed)
    {
      if inbox == [] {
        return RecvTimeout;
      }
      a := inbox[0];
      inbox := inbox[1..];
    }

    /** Send: the probe is recorded and the network's answer `result` returned. */
    method Send(p: Probe, result: Option<string>) returns (err: Option<string>)
      modifies this
      ensures sent == old(sent) + [p] && err == result
      ensures inbox == old(inbox) && closed == old(closed)
    {
      sent := sent + [p];
      err := result;
    }

    method Close()
      modifies this
      ensures closed && inbox == old(inbox) && sent == old(sent)
    {
      closed := true;
    }
  }

  datatype RangeParse = Hosts(hosts: seq<string>) | RangeFailed(message: string)
  datatype DecodedObject = DecodedObject(fields: map<string, string>) | ObjectFailed(message: string)
  datatype DecodedList = DecodedList(items: seq<string>) | ListFailed(message: string)

  /** The inputs: JSON decoding, getVersion, ParseIPRange, the send results and NewPinger. */
  datatype PingerEnv = PingerEnv(
    decodeObject: string -> DecodedObject,
    decodeList: string -> DecodedList,
    version: map<string, string> -> SnmpClient.SnmpVersion,
    parseRange: string -> RangeParse,
    sendResult: Probe -> Option<string>,
    newPinger: (string, string) -> Option<string>)

  /** What the driver answers. */
  datatype PingAnswer =
    | Received(pairs: seq<(string, string)>)
    | PingOk
    | PingCreated(id: string)
    | PingDeleted
    | PingFailed(error: AppError)

  /** net.JoinHostPort: an IPv6 host is bracketed. */
  function JoinHostPort(host: string, port: string): string
  {
    if ':' in host then "[" + host + "]:" + port else host + ":" + port
  }

  // ---------------------------------------------------------------------
  // Get: draining a pinger until it times out
  // ---------------------------------------------------------------------

  datatype Drained = Drained(pairs: seq<(string, string)>, err: Option<AppError>, rest: seq<Arrival>)

  /** Recv until the first timeout: the pairs received, an error if one came first, and what is left. */
  function Drain(inbox: seq<Arrival>): (r: Drained)
    ensures |r.rest| <= |inbox|
    ensures |r.pairs| <= |inbox|
    ensures r.err.Some? ==> exists k | 0 <= k < |inbox| :: inbox[k].RecvFailed? && r.err.value == InternalError(inbox[k].message)
    decreases |inbox|
  {
    if inbox == [] then Drained([], None, [])
    else match inbox[0]
      case RecvTimeout => Drained([], None, inbox[1..])
      case RecvFailed(m) => Drained([], Some(InternalError(m)), inbox[1..])
      case Arrived(a, v) =>
        var d := Drain(inbox[1..]);
        assert forall k | 0 <= k < |inbox| - 1 :: inbox[1..][k] == inbox[k + 1];
        Drained([(a, v)] + d.pairs, d.err, d.rest)
  }

  /** Arrivals with no error before the first timeout are all received, in order. */
  lemma {:induction false} DrainCollects(arrivals: seq<(string, string)>, tail: seq<Arrival>)
    ensures var inbox := seq(|arrivals|, k requires 0 <= k < |arrivals| => Arrived(arrivals[k].0, arrivals[k].1)) + [RecvTimeout] + tail;
            Drain(inbox) == Drained(arrivals, None, tail)
    decreases |arrivals|
  {
    var inbox := seq(|arrivals|, k requires 0 <= k < |arrivals| => Arrived(arrivals[k].0, arrivals[k].1)) + [RecvTimeout] + tail;
    if arrivals == [] {
      assert inbox == [RecvTimeout] + tail;
      assert inbox[1..] == tail;
    } else {
      var rest := arrivals[1..];
      DrainCollects(rest, tail);
      var inbox' := seq(|rest|, k requires 0 <= k < |rest| => Arrived(rest[k].0, rest[k].1)) + [RecvTimeout] + tail;
      assert inbox[1..] == inbox';
      assert arrivals == [arrivals[0]] + rest;
    }
  }

  // ---------------------------------------------------------------------
  // Put: the probes, as a plan of steps
  // ---------------------------------------------------------------------

  /** One step of Put's loops: a probe to send, or an address range that does not parse. */
  datatype Step = SendProbe(probe: Probe) | Unparsable(message: string)

  /** The concatenation of a list of plans, in order. */
  function Flatten(parts: seq<seq<Step>>): seq<Step>
    decreases |parts|
  {
    if parts == [] then [] else Flatten(parts[..|parts| - 1]) + parts[|parts| - 1]
  }

  /** The innermost loop: every host of a range, on one version. */
  function HostSteps(hosts: seq<string>, v: SnmpClient.SnmpVersion, port: string): (r: seq<Step>)
    ensures |r| == |hosts|
    ensures forall k | 0 <= k < |hosts| :: r[k] == SendProbe(Probe(JoinHostPort(hosts[k], port), v))
  {
    seq(|hosts|, k requires 0 <= k < |hosts| => SendProbe(Probe(JoinHostPort(hosts[k], port), v)))
  }

  /** The version loop: the whole range once per version, the range started afresh for each. */
  function RangePlan(hosts: seq<string>, versions: seq<SnmpClient.SnmpVersion>, port: string): (r: seq<seq<Step>>)
    ensures |r| == |versions|
    ensures forall k | 0 <= k < |versions| :: r[k] == HostSteps(hosts, versions[k], port)
  {
    seq(|versions|, k requires 0 <= k < |versions| => HostSteps(hosts, versions[k], port))
  }

  /** One entry of the body's list: its range on every version, or the range's parse error. */
  function EntrySteps(ip: string, versions: seq<SnmpClient.SnmpVersion>, port: string, env: PingerEnv): seq<Step>
  {
    match env.parseRange(ip)
    case RangeFailed(m) => [Unparsable(m)]
    case Hosts(hosts) => Flatten(RangePlan(hosts, versions, port))
  }

  /** The address loop: each entry of the body's list, in order. */
  function PutPlan(ipList: seq<string>, versions: seq<SnmpClient.SnmpVersion>, port: string, env: PingerEnv): (r: seq<seq<Step>>)
    ensures |r| == |ipList|
    ensures forall k | 0 <= k < |ipList| :: r[k] == EntrySteps(ipList[k], versions, port, env)
  {
    seq(|ipList|, k requires 0 <= k < |ipList| => EntrySteps(ipList[k], versions, port, env))
  }

  /** The probes sent and the error that ended the run. */
  datatype Outcome = Outcome(sent: seq<Probe>, err: Option<AppError>)

  /** Running a plan after another: the second runs only if the first finished without error. */
  function Then(a: Outcome, b: Outcome): Outcome
  {
    if a.err.Some? then a else Outcome(a.sent + b.sent, b.err)
  }

  lemma ThenAssoc(a: Outcome, b: Outcome, c: Outcome)
    ensures Then(Then(a, b), c) == Then(a, Then(b, c))
  {
    if a.err.None? && b.err.None? {
      assert (a.sent + b.sent) + c.sent == a.sent + (b.sent + c.sent);
    }
  }

  /** The outcome of one step: a range error, or a probe and its send result. */
  function StepOutcome(s: Step, env: PingerEnv): Outcome
  {
    match s
    case Unparsable(m) => Outcome([], Some(InternalError(m)))
    case SendProbe(p) =>
      if env.sendResult(p).Some? then Outcome([p], Some(InternalError(env.sendResult(p).value))) else Outcome([p], None)
  }

  /** Running a plan: every step in order, until the first range error or send error. */
  function Run(steps: seq<Step>, env: PingerEnv): (r: Outcome)
    ensures |r.sent| <= |steps|
    decreases |steps|
  {
    if steps == [] then Outcome([], None)
    else Then(Run(steps[..|steps| - 1], env), StepOutcome(steps[|steps| - 1], env))
  }

  /** Running a concatenation is running its parts one after the other. */
  lemma {:induction false} RunAppend(a: seq<Step>, b: seq<Step>, env: PingerEnv)
    ensures Run(a + b, env) == Then(Run(a, env), Run(b, env))
    decreases |b|
  {
    if b == [] {
      assert a + b == a;
      assert Run(a, env).sent + [] == Run(a, env).sent;
    } else {
      var n := |b|;
      assert (a + b)[..|a + b| - 1] == a + b[..n - 1];
      assert (a + b)[|a + b| - 1] == b[n - 1];
      RunAppend(a, b[..n - 1], env);
      ThenAssoc(Run(a, env), Run(b[..n - 1], env), StepOutcome(b[n - 1], env));
    }
  }

  /** The run up to step i + 1 is the run up to step i followed by step i. */
  lemma RunStep(steps: seq<Step>, i: int, env: PingerEnv)
    requires 0 <= i < |steps|
    ensures Run(steps[..i + 1], env) == Then(Run(steps[..i], env), StepOutcome(steps[i], env))
  {
    assert steps[..i + 1][..i] == steps[..i];
  }

  /** A run that has failed by step i ends there. */
  lemma RunStops(steps: seq<Step>, i: int, env: PingerEnv)
    requires 0 <= i <= |steps| && Run(steps[..i], env).err.Some?
    ensures Run(steps, env) == Run(steps[..i], env)
  {
    assert steps == steps[..i] + steps[i..];
    RunAppend(steps[..i], steps[i..], env);
  }

  /** Without a failing send or range, every planned probe goes out, in plan order. */
  lemma {:induction false} RunSendsAll(steps: seq<Step>, env: PingerEnv)
    requires forall k | 0 <= k < |steps| :: steps[k].SendProbe? && env.sendResult(steps[k].probe).None?
    ensures Run(steps, env).err.None?
    ensures Run(steps, env).sent == seq(|steps|, k requires 0 <= k < |steps| => steps[k].probe)
    decreases |steps|
  {
    if steps != [] {
      var n := |steps|;
      assert forall k | 0 <= k < n - 1 :: steps[..n - 1][k] == steps[k];
      RunSendsAll(steps[..n - 1], env);
    }
  }

  /** A run fails at its first failing step, having sent the probes of the steps before it and that one. */
  lemma {:induction false} RunFailsAtFirst(steps: seq<Step>, i: int, env: PingerEnv)
    requires 0 <= i < |steps|
    requires forall k | 0 <= k < i :: steps[k].SendProbe? && env.sendResult(steps[k].probe).None?
    requires StepOutcome(steps[i], env).err.Some?
    ensures Run(steps, env).err == StepOutcome(steps[i], env).err
    ensures Run(steps, env).sent == seq(i, k requires 0 <= k < i => steps[k].probe) + StepOutcome(steps[i], env).sent
  {
    assert forall k | 0 <= k < i :: steps[..i][k] == steps[k];
    RunSendsAll(steps[..i], env);
    RunStep(steps, i, env);
    RunStops(steps, i + 1, env);
  }

  // The loops of Put follow the plan level by level: a fold per loop.

  /** The innermost loop run over `hosts`: each probe sent until one fails. */
  function HostRun(hosts: seq<string>, v: SnmpClient.SnmpVersion, port: string, env: PingerEnv): Outcome
    decreases |hosts|
  {
    if hosts == [] then Outcome([], None)
    else Then(HostRun(hosts[..|hosts| - 1], v, port, env),
              StepOutcome(SendProbe(Probe(JoinHostPort(hosts[|hosts| - 1], port), v)), env))
  }

  /** The version loop run over `versions`: the range once per version until a send fails. */
  function RangeRun(hosts: seq<string>, versions: seq<SnmpClient.SnmpVersion>, port: string, env: PingerEnv): Outcome
    decreases |versions|
  {
    if versions == [] then Outcome([], None)
    else Then(RangeRun(hosts, versions[..|versions| - 1], port, env), HostRun(hosts, versions[|versions| - 1], port, env))
  }

  /** One entry of the address loop: its parse error, or its range on every version. */
  function EntryRun(ip: string, versions: seq<SnmpClient.SnmpVersion>, port: string, env: PingerEnv): Outcome
  {
    match env.parseRange(ip)
    case RangeFailed(m) => Outcome([], Some(InternalError(m)))
    case Hosts(hosts) => RangeRun(hosts, versions, port, env)
  }

  /** The address loop run over `ipList`, until an entry fails. */
  function PutRun(ipList: seq<string>, versions: seq<SnmpClient.SnmpVersion>, port: string, env: PingerEnv): Outcome
    decreases |ipList|
  {
    if ipList == [] then Outcome([], None)
    else Then(PutRun(ipList[..|ipList| - 1], versions, port, env), EntryRun(ipList[|ipList| - 1], versions, port, env))
  }

  lemma {:induction false} HostRunStops(hosts: seq<string>, h: int, v: SnmpClient.SnmpVersion, port: string, env: PingerEnv)
    requires 0 <= h <= |hosts| && HostRun(hosts[..h], v, port, env).err.Some?
    ensures HostRun(hosts, v, port, env) == HostRun(hosts[..h], v, port, env)
    decreases |hosts|
  {
    if h == |hosts| {
      assert hosts[..h] == hosts;
    } else {
      assert hosts[..|hosts| - 1][..h] == hosts[..h];
      HostRunStops(hosts[..|hosts| - 1], h, v, port, env);
    }
  }

  /** One more host after an error-free prefix: its probe is sent, and its send result is the error. */
  lemma HostRunNext(hosts: seq<string>, h: int, v: SnmpClient.SnmpVersion, port: string, env: PingerEnv)
    requires 0 <= h < |hosts| && HostRun(hosts[..h], v, port, env).err.None?
    ensures var p := Probe(JoinHostPort(hosts[h], port), v);
            HostRun(hosts[..h + 1], v, port, env) ==
              Outcome(HostRun(hosts[..h], v, port, env).sent + [p],
                      if env.sendResult(p).Some? then Some(InternalError(env.sendResult(p).value)) else None)
  {
    assert hosts[..h + 1][..h] == hosts[..h];
  }

  lemma {:induction false} RangeRunStops(hosts: seq<string>, versions: seq<SnmpClient.SnmpVersion>, j: int, port: string, env: PingerEnv)
    requires 0 <= j <= |versions| && RangeRun(hosts, versions[..j], port, env).err.Some?
    ensures RangeRun(hosts, versions, port, env) == RangeRun(hosts, versions[..j], port, env)
    decreases |versions|
  {
    if j == |versions| {
      assert versions[..j] == versions;
    } else {
      assert versions[..|versions| - 1][..j] == versions[..j];
      RangeRunStops(hosts, versions[..|versions| - 1], j, port, env);
    }
  }

  lemma {:induction false} PutRunStops(ipList: seq<string>, i: int, versions: seq<SnmpClient.SnmpVersion>, port: string, env: PingerEnv)
    requires 0 <= i <= |ipList| && PutRun(ipList[..i], versions, port, env).err.Some?
    ensures PutRun(ipList, versions, port, env) == PutRun(ipList[..i], versions, port, env)
    decreases |ipList|
  {
    if i == |ipList| {
      assert ipList[..i] == ipList;
    } else {
      assert ipList[..|ipList| - 1][..i] == ipList[..i];
      PutRunStops(ipList[..|ipList| - 1], i, versions, port, env);
    }
  }

  /** The innermost loop does what its plan says. */
  lemma {:induction false} HostRunIsRun(hosts: seq<string>, v: SnmpClient.SnmpVersion, port: string, env: PingerEnv)
    ensures HostRun(hosts, v, port, env) == Run(HostSteps(hosts, v, port), env)
    decreases |hosts|
  {
    if hosts != [] {
      var n := |hosts|;
      HostRunIsRun(hosts[..n - 1], v, port, env);
      assert HostSteps(hosts, v, port)[..n - 1] == HostSteps(hosts[..n - 1], v, port);
    }
  }

  /** The version loop does what its plan says. */
  lemma {:induction false} RangeRunIsRun(hosts: seq<string>, versions: seq<SnmpClient.SnmpVersion>, port: string, env: PingerEnv)
    ensures RangeRun(hosts, versions, port, env) == Run(Flatten(RangePlan(hosts, versions, port)), env)
    decreases |versions|
  {
    if versions != [] {
      var n := |versions|;
      var plan := RangePlan(hosts, versions, port);
      RangeRunIsRun(hosts, versions[..n - 1], port, env);
      assert plan[..n - 1] == RangePlan(hosts, versions[..n - 1], port);
      HostRunIsRun(hosts, versions[n - 1], port, env);
      RunAppend(Flatten(plan[..n - 1]), plan[n - 1], env);
    }
  }

  /** The address loop does what its plan says. */
  lemma {:induction false} PutRunIsRun(ipList: seq<string>, versions: seq<SnmpClient.SnmpVersion>, port: string, env: PingerEnv)
    ensures PutRun(ipList, versions, port, env) == Run(Flatten(PutPlan(ipList, versions, port, env)), env)
    decreases |ipList|
  {
    if ipList != [] {
      var n := |ipList|;
      var plan := PutPlan(ipList, versions, port, env);
      PutRunIsRun(ipList[..n - 1], versions, port, env);
      assert plan[..n - 1] == PutPlan(ipList[..n - 1], versions, port, env);
      match env.parseRange(ipList[n - 1])
      case RangeFailed(m) =>
      case Hosts(hosts) => RangeRunIsRun(hosts, versions, port, env);
      RunAppend(Flatten(plan[..n - 1]), plan[n - 1], env);
    }
  }

  /**
   * When every range parses and no send fails, Put sends every planned
   * probe, in order: entry by entry, version by version, host by host.
   */
  lemma PutSendsEveryProbe(ipList: seq<string>, versions: seq<SnmpClient.SnmpVersion>, port: string, env: PingerEnv)
    requires var steps := Flatten(PutPlan(ipList, versions, port, env));
             forall k | 0 <= k < |steps| :: steps[k].SendProbe? && env.sendResult(steps[k].probe).None?
    ensures var steps := Flatten(PutPlan(ipList, versions, port, env));
            PutRun(ipList, versions, port, env) ==
            Outcome(seq(|steps|, k requires 0 <= k < |steps| => steps[k].probe), None)
  {
    PutRunIsRun(ipList, versions, port, env);
    RunSendsAll(Flatten(PutPlan(ipList, versions, port, env)), env);
  }

  /** Put stops at its first failing step: what it sent is the probes before it and that one. */
  lemma PutStopsAtFirstFailure(ipList: seq<string>, versions: seq<SnmpClient.SnmpVersion>, port: string, env: PingerEnv, i: int)
    requires var steps := Flatten(PutPlan(ipList, versions, port, env));
             0 <= i < |steps| && StepOutcome(steps[i], env).err.Some? &&
             forall k | 0 <= k < i :: steps[k].SendProbe? && env.sendResult(steps[k].probe).None?
    ensures var steps := Flatten(PutPlan(ipList, versions, port, env));
            PutRun(ipList, versions, port, env) ==
            Outcome(seq(i, k requires 0 <= k < i => steps[k].probe) + StepOutcome(steps[i], env).sent,
                    StepOutcome(steps[i], env).err)
  {
    PutRunIsRun(ipList, versions, port, env);
    RunFailsAtFirst(Flatten(PutPlan(ipList, versions, port, env)), i, env);
  }

  /** The versions Put probes: both v2c and v3, unless the request names one. */
  function ProbeVersions(params: map<string, string>, env: PingerEnv): (r: seq<SnmpClient.SnmpVersion>)
    ensures env.version(params) == SnmpClient.Verr ==> r == [SnmpClient.V2C, SnmpClient.V3]
    ensures env.version(params) != SnmpClient.Verr ==> r == [env.version(params)]
  {
    if SnmpClient.Verr != env.version(params) then [env.version(params)] else [SnmpClient.V2C, SnmpClient.V3]
  }

  /** The port Put probes: params["port"], else 161. */
  function PortOf(params: map<string, string>): string
  {
    if "port" in params then params["port"] else "161"
  }

  /** The innermost loop of Put: the hosts of one range, on one version, until a send fails. */
  method SendHosts(pinger: Pinger, hosts: seq<string>, v: SnmpClient.SnmpVersion, port: string, env: PingerEnv)
      returns (err: Option<AppError>)
    modifies pinger
    ensures pinger.sent == old(pinger.sent) + HostRun(hosts, v, port, env).sent
    ensures err == HostRun(hosts, v, port, env).err
    ensures pinger.inbox == old(pinger.inbox) && pinger.closed == old(pinger.closed)
  {
    ghost var done: seq<Probe> := [];
    var h := 0;
    while h < |hosts|
      invariant 0 <= h <= |hosts|
      invariant pinger.sent == old(pinger.sent) + done
      invariant HostRun(hosts[..h], v, port, env) == Outcome(done, None)
      invariant pinger.inbox == old(pinger.inbox) && pinger.closed == old(pinger.closed)
    {
      var p := Probe(JoinHostPort(hosts[h], port), v);
      HostRunNext(hosts, h, v, port, env);
      var e := pinger.Send(p, env.sendResult(p));
      if e.Some? {
        HostRunStops(hosts, h + 1, v, port, env);
        return Some(InternalError(e.value));
      }
      done := done + [p];
      h := h + 1;
    }
    assert hosts[..h] == hosts;
    return None;
  }

  /** The version loop of Put: the whole range once per version, until a send fails. */
  method SendRange(pinger: Pinger, hosts: seq<string>, versions: seq<SnmpClient.SnmpVersion>, port: string, env: PingerEnv)
      returns (err: Option<AppError>)
    modifies pinger
    ensures pinger.sent == old(pinger.sent) + RangeRun(hosts, versions, port, env).sent
    ensures err == RangeRun(hosts, versions, port, env).err
    ensures pinger.inbox == old(pinger.inbox) && pinger.closed == old(pinger.closed)
  {
    ghost var done: seq<Probe> := [];
    var j := 0;
    while j < |versions|
      invariant 0 <= j <= |versions|
      invariant pinger.sent == old(pinger.sent) + done
      invariant RangeRun(hosts, versions[..j], port, env) == Outcome(done, None)
      invariant pinger.inbox == old(pinger.inbox) && pinger.closed == old(pinger.closed)
    {
      assert versions[..j + 1][..j] == versions[..j];
      var e := SendHosts(pinger, hosts, versions[j], port, env);
      if e.Some? {
        RangeRunStops(hosts, versions, j + 1, port, env);
        return e;
      }
      done := done + HostRun(hosts, versions[j], port, env).sent;
      j := j + 1;
    }
    assert versions[..j] == versions;
    return None;
  }

  /** One entry of Put's list: its address range parsed, then probed on every version. */
  method SendEntry(pinger: Pinger, ip: string, versions: seq<SnmpClient.SnmpVersion>, port: string, env: PingerEnv)
      returns (err: Option<AppError>)
    modifies pinger
    ensures pinger.sent == old(pinger.sent) + EntryRun(ip, versions, port, env).sent
    ensures err == EntryRun(ip, versions, port, env).err
    ensures pinger.inbox == old(pinger.inbox) && pinger.closed == old(pinger.closed)
  {
    var parsed := env.parseRange(ip);
    if parsed.RangeFailed? {
      assert pinger.sent == pinger.sent + [];
      return Some(InternalError(parsed.message));
    }
    err := SendRange(pinger, parsed.hosts, versions, port, env);
  }

  /** The address loop of Put: each entry of the list, until one fails. */
  method SendAll(pinger: Pinger, ipList: seq<string>, versions: seq<SnmpClient.SnmpVersion>, port: string, env: PingerEnv)
      returns (err: Option<AppError>)
    modifies pinger
    ensures pinger.sent == old(pinger.sent) + PutRun(ipList, versions, port, env).sent
    ensures err == PutRun(ipList, versions, port, env).err
    ensures pinger.inbox == old(pinger.inbox) && pinger.closed == old(pinger.closed)
  {
    ghost var done: seq<Probe> := [];
    var i := 0;
    while i < |ipList|
      invariant 0 <= i <= |ipList|
      invariant pinger.sent == old(pinger.sent) + done
      invariant PutRun(ipList[..i], versions, port, env) == Outcome(done, None)
      invariant pinger.inbox == old(pinger.inbox) && pinger.closed == old(pinger.closed)
    {
      assert ipList[..i + 1][..i] == ipList[..i];
      var e := SendEntry(pinger, ipList[i], versions, port, env);
      if e.Some? {
        PutRunStops(ipList, i + 1, versions, port, env);
        return e;
      }
      done := done + EntryRun(ipList[i], versions, port, env).sent;
      i := i + 1;
    }
    assert ipList[..i] == ipList;
    return None;
  }

  // ---------------------------------------------------------------------
  // The driver
  // ---------------------------------------------------------------------

  class PingerDriver {
    var pingers: map<string, Pinger>
    const env: PingerEnv

    constructor (env: PingerEnv)
      ensures pingers == map[] && this.env == env
    {
      pingers := map[];
      this.env := env;
    }

    /** Get: the pinger's arrivals up to its first timeout; a receive error fails the call. */
    method Get(params: map<string, string>) returns (r: PingAnswer)
      modifies pingers.Values
      ensures "id" !in params ==> r == PingFailed(IdNotExists)
      ensures "id" in params && params["id"] !in pingers ==> r == PingFailed(RecordNotFound(params["id"]))
      ensures "id" in params && params["id"] in pingers ==>
                var p := pingers[params["id"]];
                var d := Drain(old(p.inbox));
                p.inbox == d.rest && p.sent == old(p.sent) && p.closed == old(p.closed) &&
                r == (if d.err.Some? then PingFailed(d.err.value) else Received(d.pairs))
      ensures forall q | q in pingers.Values && !("id" in params && params["id"] in pingers && q == pingers[params["id"]]) ::
                unchanged(q)
    {
      if "id" !in params {
        return PingFailed(IdNotExists);
      }
      var id := params["id"];
      if id !in pingers {
        return PingFailed(RecordNotFound(id));
      }
      var pinger := pingers[id];
      var values: seq<(string, string)> := [];
      while true
        invariant pinger.sent == old(pinger.sent) && pinger.closed == old(pinger.closed)
        invariant forall q | q in pingers.Values && q != pinger :: unchanged(q)
        invariant Drain(old(pinger.inbox)) ==
                  var d := Drain(pinger.inbox); Drained(values + d.pairs, d.err, d.rest)
        decreases |pinger.inbox|
      {
        ghost var before := pinger.inbox;
        var a := pinger.Recv();
        if a.RecvTimeout? {
          return Received(values);
        }
        if a.RecvFailed? {
          return PingFailed(InternalError(a.message));
        }
        assert values + ([(a.addr, a.version)] + Drain(pinger.inbox).pairs) ==
               (values + [(a.addr, a.version)]) + Drain(pinger.inbox).pairs;
        values := values + [(a.addr, a.version)];
      }
    }

    /**
     * Put: IdNotExists, RecordNotFound, BodyNotExists, IsRequired("body")
     * or a BadRequest for a body that is not a JSON list of strings;
     * otherwise the probes run, address by address and version by version,
     * until the first failure.
     */
    method Put(params: map<string, string>) returns (r: PingAnswer)
      modifies pingers.Values
      ensures "id" !in params ==> r == PingFailed(IdNotExists)
      ensures "id" in params && params["id"] !in pingers ==> r == PingFailed(RecordNotFound(params["id"]))
      ensures "id" in params && params["id"] in pingers && "body" !in params ==> r == PingFailed(BodyNotExists)
      ensures "id" in params && params["id"] in pingers && "body" in params && params["body"] == "" ==>
                r == PingFailed(IsRequired("body"))
      ensures "id" in params && params["id"] in pingers && "body" in params && params["body"] != "" &&
              env.decodeList(params["body"]).ListFailed? ==>
                r == PingFailed(BadRequest("read body failed, it is not []string of json - " +
                                           env.decodeList(params["body"]).message + params["body"]))
      ensures "id" in params && params["id"] in pingers && "body" in params && params["body"] != "" &&
              env.decodeList(params["body"]).DecodedList? ==>
                var p := pingers[params["id"]];
                var o := PutRun(env.decodeList(params["body"]).items, ProbeVersions(params, env), PortOf(params), env);
                p.sent == old(p.sent) + o.sent && p.inbox == old(p.inbox) && p.closed == old(p.closed) &&
                r == (if o.err.Some? then PingFailed(o.err.value) else PingOk)
      ensures forall q | q in pingers.Values && !("id" in params && params["id"] in pingers && q == pingers[params["id"]] &&
                                                 "body" in params && params["body"] != "" &&
                                                 env.decodeList(params["body"]).DecodedList?) ::
                unchanged(q)
    {
      if "id" !in params {
        return PingFailed(IdNotExists);
      }
      var id := params["id"];
      if id !in pingers {
        return PingFailed(RecordNotFound(id));
      }
      var pinger := pingers[id];
      var port := if "port" in params then params["port"] else "161";
      if "body" !in params {
        return PingFailed(BodyNotExists);
      }
      var body := params["body"];
      if "" == body {
        return PingFailed(IsRequired("body"));
      }
      var decoded := env.decodeList(body);
      if decoded.ListFailed? {
        return PingFailed(BadRequest("read body failed, it is not []string of json - " + decoded.message + body));
      }
      var ipList := decoded.items;
      var versions := [SnmpClient.V2C, SnmpClient.V3];
      var version := env.version(params);
      if SnmpClient.Verr != version {
        versions := [version];
      }
      var e := SendAll(pinger, ipList, versions, port, env);
      if e.Some? {
        return PingFailed(e.value);
      }
      return PingOk;
    }

    /** The network and address Create uses: the body's value, else the request's. */
    function Field(body: map<string, string>, params: map<string, string>, key: string): string
    {
      if ParamOf(body, key) != "" then ParamOf(body, key) else ParamOf(params, key)
    }

    /**
     * Create: the body (an empty one reads as "{}") gives network and
     * address, falling back to the request; the id "<network>,<address>"
     * must be free; the new pinger is stored under it.
     */
    method Create(params: map<string, string>, arrivals: seq<Arrival>) returns (r: PingAnswer)
      modifies this
      ensures var text := if ParamOf(params, "body") == "" then "{}" else params["body"];
              var decoded := env.decodeObject(text);
              (decoded.ObjectFailed? ==>
                 r == PingFailed(BadRequest("read body failed, it is not map[string]string of json - " + decoded.message)) &&
                 pingers == old(pingers)) &&
              (decoded.DecodedObject? ==>
                 var network := Field(decoded.fields, params, "network");
                 var id := network + "," + Field(decoded.fields, params, "address");
                 (network == "" ==> r == PingFailed(IsRequired("network")) && pingers == old(pingers)) &&
                 (network != "" && id in old(pingers) ==> r == PingFailed(RecordAlreadyExists(id)) && pingers == old(pingers)) &&
                 (network != "" && id !in old(pingers) && env.newPinger(network, Field(decoded.fields, params, "address")).Some? ==>
                    r == PingFailed(AppError(500, env.newPinger(network, Field(decoded.fields, params, "address")).value)) &&
                    pingers == old(pingers)) &&
                 (network != "" && id !in old(pingers) && env.newPinger(network, Field(decoded.fields, params, "address")).None? ==>
                    r == PingCreated(id) && pingers.Keys == old(pingers).Keys + {id} &&
                    fresh(pingers[id]) && pingers[id].inbox == arrivals && pingers[id].sent == [] &&
                    forall k | k in old(pingers) :: pingers[k] == old(pingers)[k]))
    {
      var body := ParamOf(params, "body");
      if "" == body {
        body := "{}";
      }
      var decoded := env.decodeObject(body);
      if decoded.ObjectFailed? {
        return PingFailed(BadRequest("read body failed, it is not map[string]string of json - " + decoded.message));
      }
      var params2 := decoded.fields;
      var network := ParamOf(params2, "network");
      if "" == network {
        network := ParamOf(params, "network");
        if "" == network {
          return PingFailed(IsRequired("network"));
        }
      }
      var address := ParamOf(params2, "address");
      if "" == address {
        address := ParamOf(params, "address");
      }
      var id := network + "," + address;
      if id in pingers {
        return PingFailed(RecordAlreadyExists(id));
      }
      var err := env.newPinger(network, address);
      if err.Some? {
        return PingFailed(AppError(500, err.value));
      }
      var pinger := new Pinger(network, address, arrivals);
      pingers := pingers[id := pinger];
      return PingCreated(id);
    }

    /** Delete: IdNotExists, RecordNotFound, or that entry removed and its pinger closed. */
    method Delete(params: map<string, string>) returns (r: PingAnswer)
      modifies this, pingers.Values
      ensures "id" !in params ==> r == PingFailed(IdNotExists) && pingers == old(pingers)
      ensures "id" in params && params["id"] !in old(pingers) ==>
                r == PingFailed(RecordNotFound(params["id"])) && pingers == old(pingers)
      ensures "id" in params && params["id"] in old(pingers) ==>
                r == PingDeleted && pingers == old(pingers) - {params["id"]} && old(pingers)[params["id"]].closed &&
                old(pingers)[params["id"]].inbox == old(pingers[params["id"]].inbox) &&
                old(pingers)[params["id"]].sent == old(pingers[params["id"]].sent)
      ensures forall q | q in old(pingers).Values && !("id" in params && params["id"] in old(pingers) && q == old(pingers)[params["id"]]) ::
                unchanged(q)
    {
      if "id" !in params {
        return PingFailed(IdNotExists);
      }
      var id := params["id"];
      if id !in pingers {
        return PingFailed(RecordNotFound(id));
      }
      var pinger := pingers[id];
      pingers := pingers - {id};
      pinger.Close();
      return PingDeleted;
    }
  }
}
