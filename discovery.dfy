/**
 * network_discovery/discoverer.go: the bookkeeping of a network discovery.
 * Devices that answer SNMP are recorded under their address, their
 * interface addresses are mapped to them, every /24 subnet of a new
 * interface address is probed once on every SNMP pinger, and the rounds
 * stop when a round brings no device or the depth is reached.  The channels
 * and goroutines become a given stream of events; address parsing, range
 * expansion and the pingers are parameters.
 */
module Discovery {
  import opened Common
  import Drivers

  const END_TOKEN: string := "end"
  const TIMEOUT_TOKEN: string := "timeout"

  /** A discovered device: map[string]interface{}. */
  type Device = map<string, Value>

  /** A device's address, "" when it has none. */
  function Address(d: Device): (a: string)
    ensures "address" in d && d["address"].Str? ==> a == d["address"].s
  {
    if "address" in d && d["address"].Str? then d["address"].s else ""
  }

  /** An interface row: a map whose "address" is a string (the source asserts the type). */
  predicate AddressRow(v: Value)
  {
    v.Obj? && "address" in v.fields && v.fields["address"].Str?
  }

  function RowAddress(v: Value): string
    requires AddressRow(v)
  {
    v.fields["address"].s
  }

  /** A map row the source's `row["address"].(string)` would panic on. */
  predicate BadRow(v: Value)
  {
    v.Obj? && !AddressRow(v)
  }

  /**
   * A table detectNewAddress reads without panicking: list- or map-shaped,
   * every map row carries a string address; any other value has no rows.
   */
  predicate WellFormedTable(t: Value)
  {
    (t.List? ==> forall i | 0 <= i < |t.items| :: !BadRow(t.items[i])) &&
    (t.Obj? ==> forall k | k in t.fields :: !BadRow(t.fields[k]))
  }

  /**
   * A device addDevice stores without panicking: a string address, and a
   * string address on every map row of a map-shaped "$address".
   */
  predicate AddableDevice(d: Device)
  {
    "address" in d && d["address"].Str? &&
    (Lookup(d, "$address").Obj? ==> forall k | k in Lookup(d, "$address").fields :: !BadRow(Lookup(d, "$address").fields[k]))
  }

  /** A device serve both adds and explores without panicking. */
  predicate WellFormedDevice(d: Device)
  {
    AddableDevice(d) && WellFormedTable(Lookup(d, "$address"))
  }

  /** The addresses of the rows among `keys` of a map-shaped table. */
  ghost function KeyAddresses(fields: map<string, Value>, keys: set<string>): set<string>
  {
    set k | k in keys && k in fields && AddressRow(fields[k]) :: RowAddress(fields[k])
  }

  lemma KeyAddressesAdd(fields: map<string, Value>, keys: set<string>, k: string)
    requires k in fields
    ensures KeyAddresses(fields, keys + {k}) ==
            KeyAddresses(fields, keys) + (if AddressRow(fields[k]) then {RowAddress(fields[k])} else {})
  {
  }

  /** The addresses of the first n rows of a list-shaped table. */
  ghost function ListAddresses(items: seq<Value>, n: nat): set<string>
    requires n <= |items|
  {
    set i | 0 <= i < n && AddressRow(items[i]) :: RowAddress(items[i])
  }

  lemma ListAddressesNext(items: seq<Value>, n: nat)
    requires n < |items|
    ensures ListAddresses(items, n + 1) ==
            ListAddresses(items, n) + (if AddressRow(items[n]) then {RowAddress(items[n])} else {})
  {
  }

  /** The addresses of every map row of a table; non-tables have none. */
  ghost function TableAddresses(t: Value): set<string>
  {
    if t.List? then ListAddresses(t.items, |t.items|)
    else if t.Obj? then KeyAddresses(t.fields, t.fields.Keys)
    else {}
  }

  /** The interface addresses addDevice maps to a device: only a map-shaped "$address" counts. */
  ghost function ManagedAddresses(d: Device): set<string>
  {
    var t := Lookup(d, "$address");
    if t.Obj? then TableAddresses(t) else {}
  }

  /** Every key of `keys` mapped to `v`. */
  function ConstMap(keys: set<string>, v: string): (m: map<string, string>)
    ensures m.Keys == keys && forall k | k in m :: m[k] == v
  {
    map k | k in keys :: v
  }

  /** One row of addDevice's loop: a map row adds its address, any other row nothing. */
  lemma ManageStep(m: map<string, string>, rows: map<string, Value>, visited: set<string>, k: string, v: string)
    requires k in rows && (rows[k].Obj? ==> AddressRow(rows[k]))
    ensures rows[k].Obj? ==>
              m + ConstMap(KeyAddresses(rows, visited + {k}), v) ==
              (m + ConstMap(KeyAddresses(rows, visited), v))[RowAddress(rows[k]) := v]
    ensures !rows[k].Obj? ==>
              m + ConstMap(KeyAddresses(rows, visited + {k}), v) == m + ConstMap(KeyAddresses(rows, visited), v)
  {
    KeyAddressesAdd(rows, visited, k);
  }

  /** The /24 subnet detectNewAddress derives from an address. */
  function Subnet(ip: string): string
  {
    ip + "/24"
  }

  lemma {:induction false} SubnetInjective(a: string, b: string)
    ensures Subnet(a) == Subnet(b) ==> a == b
  {
    if Subnet(a) == Subnet(b) {
      assert |a| == |b|;
      assert a == Subnet(a)[..|a|];
      assert b == Subnet(b)[..|b|];
    }
  }

  /** net.JoinHostPort(addr, "161"). */
  function HostPort(addr: string): string
  {
    if ':' in addr then "[" + addr + "]:161" else addr + ":161"
  }

  /** One SNMP request sent by a pinger to an address. */
  datatype Probe = Probe(pinger: nat, target: string)

  /** The requests pinger i sends while walking the addresses of a range. */
  function PingerProbes(i: nat, addrs: seq<string>): (ps: seq<Probe>)
    ensures |ps| == |addrs|
    decreases |addrs|
  {
    if |addrs| == 0 then [] else PingerProbes(i, addrs[..|addrs| - 1]) + [Probe(i, HostPort(addrs[|addrs| - 1]))]
  }

  /** The requests of pingers 0..k-1 over the addresses of a range, pinger by pinger. */
  function RangeProbes(addrs: seq<string>, k: nat): seq<Probe>
    decreases k
  {
    if k == 0 then [] else RangeProbes(addrs, k - 1) + PingerProbes(k - 1, addrs)
  }

  lemma {:induction false} PingerProbesCover(i: nat, addrs: seq<string>, a: string)
    requires a in addrs
    ensures Probe(i, HostPort(a)) in PingerProbes(i, addrs)
    decreases |addrs|
  {
    if a != addrs[|addrs| - 1] {
      var init := addrs[..|addrs| - 1];
      assert addrs == init + [addrs[|addrs| - 1]];
      assert a in init;
      PingerProbesCover(i, init, a);
    }
  }

  /** Scanning a range probes every one of its addresses on every pinger. */
  lemma {:induction false} RangeProbesCover(addrs: seq<string>, k: nat, i: nat, a: string)
    requires i < k && a in addrs
    ensures Probe(i, HostPort(a)) in RangeProbes(addrs, k)
    decreases k
  {
    var p := Probe(i, HostPort(a));
    var before, last := RangeProbes(addrs, k - 1), PingerProbes(k - 1, addrs);
    assert RangeProbes(addrs, k) == before + last;
    if i == k - 1 {
      PingerProbesCover(i, addrs, a);
      assert p in last;
    } else {
      RangeProbesCover(addrs, k - 1, i, a);
      assert p in before;
    }
  }

  /**
   * What the discovery does not decide itself: netutils.IsInvalidAddress,
   * netutils.ParseIPRange (the range's canonical String(), or a parse
   * failure) and the addresses a range walks through.
   */
  datatype Network = Network(
    invalid: string -> bool,
    parse: string -> Option<string>,
    members: string -> seq<string>)

  /** The range an entry of a range list stands for, unless detectNewRange skips it for its form. */
  function RangeOf(net: Network, ip: string): Option<string>
  {
    if |ip| == 0 || net.invalid(ip) then None else net.parse(ip)
  }

  datatype Detection = Detection(probes: seq<Probe>, scanned: set<string>)

  /**
   * detectNewRange as a reference: entries are taken in order; an entry
   * that is empty, invalid, unparseable or already scanned is skipped, and
   * any other range is probed on every pinger and then marked scanned.
   */
  function Detect(list: seq<string>, scanned: set<string>, pingers: nat, net: Network): Detection
    decreases |list|
  {
    if |list| == 0 then Detection([], scanned)
    else
      var r := RangeOf(net, list[0]);
      if r.None? || r.value in scanned then Detect(list[1..], scanned, pingers, net)
      else
        var rest := Detect(list[1..], scanned + {r.value}, pingers, net);
        Detection(RangeProbes(net.members(r.value), pingers) + rest.probes, rest.scanned)
  }

  /** An entry Detect skips. */
  lemma DetectSkip(list: seq<string>, i: nat, scanned: set<string>, pingers: nat, net: Network)
    requires i < |list|
    requires RangeOf(net, list[i]).None? || RangeOf(net, list[i]).value in scanned
    ensures Detect(list[i..], scanned, pingers, net) == Detect(list[i + 1..], scanned, pingers, net)
  {
    assert list[i..][1..] == list[i + 1..];
  }

  /** An entry Detect scans: its probes come first, then the rest of the list's. */
  lemma DetectScan(list: seq<string>, i: nat, scanned: set<string>, pingers: nat, net: Network)
    requires i < |list|
    requires RangeOf(net, list[i]).Some? && RangeOf(net, list[i]).value !in scanned
    ensures var r := RangeOf(net, list[i]).value;
            var rest := Detect(list[i + 1..], scanned + {r}, pingers, net);
            Detect(list[i..], scanned, pingers, net) ==
            Detection(RangeProbes(net.members(r), pingers) + rest.probes, rest.scanned)
  {
    assert list[i..][1..] == list[i + 1..];
  }

  /**
   * range_scanned only grows, and it grows by exactly the ranges of the
   * list; every range of the list ends up scanned, and a range that was not
   * scanned before had every address probed on every pinger.
   */
  lemma {:induction false} DetectScansRanges(list: seq<string>, scanned: set<string>, pingers: nat, net: Network)
    ensures var d := Detect(list, scanned, pingers, net);
      scanned <= d.scanned &&
      (forall n | n in d.scanned - scanned :: exists k | 0 <= k < |list| :: RangeOf(net, list[k]) == Some(n)) &&
      (forall k | 0 <= k < |list| && RangeOf(net, list[k]).Some? ::
         RangeOf(net, list[k]).value in d.scanned &&
         (RangeOf(net, list[k]).value !in scanned ==>
            forall i, a | 0 <= i < pingers && a in net.members(RangeOf(net, list[k]).value) ::
              Probe(i, HostPort(a)) in d.probes))
    decreases |list|
  {
    if |list| > 0 {
      var r := RangeOf(net, list[0]);
      var scanned' := if r.None? || r.value in scanned then scanned else scanned + {r.value};
      DetectScansRanges(list[1..], scanned', pingers, net);
      var d := Detect(list, scanned, pingers, net);
      var rest := Detect(list[1..], scanned', pingers, net);
      assert d.scanned == rest.scanned;
      forall n | n in d.scanned - scanned
        ensures exists k | 0 <= k < |list| :: RangeOf(net, list[k]) == Some(n)
      {
        if n in scanned' {
          assert RangeOf(net, list[0]) == Some(n);
        } else {
          var k' :| 0 <= k' < |list[1..]| && RangeOf(net, list[1..][k']) == Some(n);
          assert list[1..][k'] == list[k' + 1];
        }
      }
      forall k | 0 <= k < |list| && RangeOf(net, list[k]).Some?
        ensures RangeOf(net, list[k]).value in d.scanned
        ensures RangeOf(net, list[k]).value !in scanned ==>
                  forall i, a | 0 <= i < pingers && a in net.members(RangeOf(net, list[k]).value) ::
                    Probe(i, HostPort(a)) in d.probes
      {
        var n := RangeOf(net, list[k]).value;
        if k == 0 {
          if n !in scanned {
            forall i, a | 0 <= i < pingers && a in net.members(n) ensures Probe(i, HostPort(a)) in d.probes {
              RangeProbesCover(net.members(n), pingers, i, a);
            }
          }
        } else {
          assert list[1..][k - 1] == list[k];
          if n !in scanned {
            if n in scanned' {
              // The same range appeared first at entry 0 and was probed there.
              forall i, a | 0 <= i < pingers && a in net.members(n) ensures Probe(i, HostPort(a)) in d.probes {
                RangeProbesCover(net.members(n), pingers, i, a);
              }
            }
          }
        }
      }
    }
  }

  /** A list whose every range is already scanned changes nothing and sends nothing. */
  lemma {:induction false} DetectScannedIsNoop(list: seq<string>, scanned: set<string>, pingers: nat, net: Network)
    requires forall k | 0 <= k < |list| :: RangeOf(net, list[k]).Some? ==> RangeOf(net, list[k]).value in scanned
    ensures Detect(list, scanned, pingers, net) == Detection([], scanned)
    decreases |list|
  {
    if |list| > 0 {
      forall k | 0 <= k < |list[1..]| ensures RangeOf(net, list[1..][k]).Some? ==> RangeOf(net, list[1..][k]).value in scanned {
        assert list[1..][k] == list[k + 1];
      }
      DetectScannedIsNoop(list[1..], scanned, pingers, net);
    }
  }

  /** Every subnet of a table's rows that stands for a range is scanned. */
  ghost predicate TableExplored(t: Value, net: Network, scanned: set<string>)
  {
    WellFormedTable(t) &&
    forall ip | ip in TableAddresses(t) && RangeOf(net, Subnet(ip)).Some? :: RangeOf(net, Subnet(ip)).value in scanned
  }

  lemma ExploredGrows(t: Value, net: Network, scanned: set<string>, scanned': set<string>)
    requires scanned <= scanned'
    ensures TableExplored(t, net, scanned) ==> TableExplored(t, net, scanned')
  {
  }

  /** The devices among the first n events have their "$address" tables scanned. */
  ghost predicate EventsExplored(events: seq<Event>, n: nat, net: Network, scanned: set<string>)
    requires n <= |events|
  {
    forall i | 0 <= i < n :: events[i].Arrival? ==> TableExplored(Lookup(events[i].drv, "$address"), net, scanned)
  }

  /** A round whose devices were all explored extends the explored prefix of the events. */
  lemma RoundExplored(events: seq<Event>, n: nat, next: nat, pending: seq<Device>, net: Network,
                      before: set<string>, after: set<string>)
    requires n <= next <= |events| && before <= after
    requires EventsExplored(events, n, net, before)
    requires forall i | n <= i < next :: events[i].Arrival? ==> events[i].drv in pending
    requires forall j | 0 <= j < |pending| :: TableExplored(Lookup(pending[j], "$address"), net, after)
    ensures EventsExplored(events, next, net, after)
  {
    forall i | 0 <= i < n && events[i].Arrival?
      ensures TableExplored(Lookup(events[i].drv, "$address"), net, after)
    {
      ExploredGrows(Lookup(events[i].drv, "$address"), net, before, after);
    }
    forall i | n <= i < next && events[i].Arrival?
      ensures TableExplored(Lookup(events[i].drv, "$address"), net, after)
    {
      var j :| 0 <= j < |pending| && pending[j] == events[i].drv;
    }
  }

  /** Every entry of a range list that stands for a range is scanned. */
  predicate RangesScanned(list: seq<string>, net: Network, scanned: set<string>)
  {
    forall k | 0 <= k < |list| :: RangeOf(net, list[k]).Some? ==> RangeOf(net, list[k]).value in scanned
  }

  /**
   * DiscoveryParams (its declaration is not part of this model): the fields
   * the discoverer reads, and the defaults NewDiscoverer writes back.
   */
  class DiscoveryParams {
    var ipRange: seq<string>
    var communities: Option<seq<string>>
    var depth: int
    var timeout: int
    var isReadLocal: bool

    constructor (ipRange: seq<string>, communities: Option<seq<string>>, depth: int, timeout: int, isReadLocal: bool)
      ensures this.ipRange == ipRange && this.communities == communities && this.depth == depth
      ensures this.timeout == timeout && this.isReadLocal == isReadLocal
    {
      this.ipRange := ipRange;
      this.communities := communities;
      this.depth := depth;
      this.timeout := timeout;
      this.isReadLocal := isReadLocal;
    }
  }

  /** What serve reads from its channels: a device, a control command, or a round's timeout. */
  datatype Event = Arrival(drv: Device) | PingFailed | NewDeviceNote | TimedOut

  predicate EndsRound(e: Event) { e.PingFailed? || e.TimedOut? }

  /** The devices that arrive among a slice of events, in order. */
  function Arrivals(s: seq<Event>): seq<Device>
    decreases |s|
  {
    if |s| == 0 then []
    else Arrivals(s[..|s| - 1]) + (if s[|s| - 1].Arrival? then [s[|s| - 1].drv] else [])
  }

  /** One more event of a round: its device, if it brought one, is the next arrival. */
  lemma ArrivalsNext(events: seq<Event>, from: nat, next: nat)
    requires from <= next < |events|
    ensures Arrivals(events[from..next + 1]) ==
            Arrivals(events[from..next]) + (if events[next].Arrival? then [events[next].drv] else [])
  {
    assert events[from..next + 1][..next - from] == events[from..next];
  }

  /** The arrivals of two slices of events, one after the other. */
  lemma {:induction false} ArrivalsConcat(s: seq<Event>, t: seq<Event>)
    ensures Arrivals(s + t) == Arrivals(s) + Arrivals(t)
    decreases |t|
  {
    if |t| == 0 {
      assert s + t == s;
    } else {
      assert (s + t)[..|s + t| - 1] == s + t[..|t| - 1];
      assert (s + t)[|s + t| - 1] == t[|t| - 1];
      ArrivalsConcat(s, t[..|t| - 1]);
    }
  }

  /** A round that brought a device adds at least one to the arrivals read so far. */
  lemma ArrivalsGrow(events: seq<Event>, n: nat, next: nat, d: nat)
    requires n <= next <= |events|
    requires |Arrivals(events[..n])| >= d - 1 && |Arrivals(events[n..next])| > 0
    ensures |Arrivals(events[..next])| >= d
  {
    assert events[..next] == events[..n] + events[n..next];
    ArrivalsConcat(events[..n], events[n..next]);
  }

  /** Every arrival of a slice of events comes from one of its events. */
  lemma {:induction false} ArrivalSource(s: seq<Event>, k: nat)
    requires k < |Arrivals(s)|
    ensures exists i | 0 <= i < |s| :: s[i].Arrival? && s[i].drv == Arrivals(s)[k]
    decreases |s|
  {
    var init := s[..|s| - 1];
    if k < |Arrivals(init)| {
      ArrivalSource(init, k);
      var i :| 0 <= i < |init| && init[i].Arrival? && init[i].drv == Arrivals(init)[k];
      assert s[i] == init[i];
    } else {
      assert s[|s| - 1].Arrival? && s[|s| - 1].drv == Arrivals(s)[k];
    }
  }

  /** A round device whose table is malformed was brought by an event of the round. */
  lemma MalformedArrival(events: seq<Event>, from: nat, next: nat, pending: seq<Device>, j: nat)
    requires from <= next <= |events| && pending == Arrivals(events[from..next])
    requires j < |pending| && !WellFormedTable(Lookup(pending[j], "$address"))
    ensures exists i | from <= i < next :: events[i].Arrival? && !WellFormedDevice(events[i].drv)
  {
    ArrivalSource(events[from..next], j);
    var i :| 0 <= i < next - from && events[from..next][i].Arrival? && events[from..next][i].drv == pending[j];
    assert events[from + i] == events[from..next][i];
  }

  class Discoverer {
    var params: DiscoveryParams
    /** How many SNMP pingers listen: one per community. */
    var pingers: nat
    var devices: map<string, Device>
    var ip2managed: map<string, string>
    var rangeScanned: set<string>
    /** The SNMP requests sent, in order. */
    var probes: seq<Probe>
    var isCompleted: bool
    var isRunning: int

    constructor (params: DiscoveryParams, pingers: nat)
      ensures this.params == params && this.pingers == pingers
      ensures devices == map[] && ip2managed == map[] && rangeScanned == {} && probes == []
      ensures !isCompleted && isRunning == 1
    {
      this.params := params;
      this.pingers := pingers;
      devices := map[];
      ip2managed := map[];
      rangeScanned := {};
      probes := [];
      isCompleted := false;
      isRunning := 1;
    }

    /**
     * isExists: true exactly when the address is neither a device nor an
     * interface of one; the name reads inverted, true means "new".
     */
    predicate IsExists(ip: string)
      reads this
    {
      ip !in devices && ip !in ip2managed
    }

    predicate IsScanned(ipRange: string)
      reads this
    {
      ipRange in rangeScanned
    }

    method AlreadyScanned(ipRange: string)
      modifies this`rangeScanned
      ensures rangeScanned == old(rangeScanned) + {ipRange}
      ensures IsScanned(ipRange)
    {
      rangeScanned := rangeScanned + {ipRange};
    }

    /**
     * addDevice: the device is stored under its address, and every map row of
     * a non-empty map-shaped "$address" maps that row's address to it.  A
     * missing or non-string address, on the device or on one of those rows,
     * panics (`panicked`): before anything is stored for the device's own,
     * part-way through the rows for a row's.
     */
    method AddDevice(drv: Device) returns (panicked: bool)
      modifies this`devices, this`ip2managed
      ensures panicked <==> !AddableDevice(drv)
      ensures !("address" in drv && drv["address"].Str?) ==>
                devices == old(devices) && ip2managed == old(ip2managed)
      ensures "address" in drv && drv["address"].Str? ==> devices == old(devices)[drv["address"].s := drv]
      ensures !panicked ==> ip2managed == old(ip2managed) + ConstMap(ManagedAddresses(drv), drv["address"].s)
    {
      if "address" !in drv || !drv["address"].Str? {
        return true;
      }
      var addr := drv["address"].s;
      devices := devices[addr := drv];
      var t := Lookup(drv, "$address");
      if !t.Obj? || |t.fields| == 0 {
        assert ManagedAddresses(drv) == {};
        assert ConstMap(ManagedAddresses(drv), addr) == map[];
        return false;
      }
      panicked := ManageRows(t.fields, addr);
    }

    /**
     * The loop of addDevice: each map row's address is mapped to the device;
     * the first map row without a string address panics.
     */
    method ManageRows(rows: map<string, Value>, addr: string) returns (panicked: bool)
      modifies this`ip2managed
      ensures panicked <==> exists k | k in rows :: BadRow(rows[k])
      ensures !panicked ==> ip2managed == old(ip2managed) + ConstMap(KeyAddresses(rows, rows.Keys), addr)
    {
      var rest := rows.Keys;
      ghost var visited: set<string> := {};
      while rest != {}
        invariant rest <= rows.Keys && visited == rows.Keys - rest
        invariant forall k | k in visited :: !BadRow(rows[k])
        invariant ip2managed == old(ip2managed) + ConstMap(KeyAddresses(rows, visited), addr)
        decreases |rest|
      {
        var k :| k in rest;
        if BadRow(rows[k]) {
          return true;
        }
        ManageStep(old(ip2managed), rows, visited, k, addr);
        if rows[k].Obj? {
          ip2managed := ip2managed[RowAddress(rows[k]) := addr];
        }
        assert ip2managed == old(ip2managed) + ConstMap(KeyAddresses(rows, visited + {k}), addr);
        assert rows.Keys - (rest - {k}) == visited + {k};
        rest := rest - {k};
        visited := visited + {k};
      }
      return false;
    }

    /** The addresses of a table's map rows; a map row without a string address panics. */
    method AddressesOf(table: Value) returns (ips: set<string>, panicked: bool)
      ensures panicked <==> !WellFormedTable(table)
      ensures !panicked ==> ips == TableAddresses(table)
    {
      ips, panicked := {}, false;
      if table.List? {
        ips, panicked := ItemAddresses(table.items);
      } else if table.Obj? {
        ips, panicked := FieldAddresses(table.fields);
      }
    }

    /** The addresses of the map rows of a []interface{} table, row by row, up to the first bad row. */
    method ItemAddresses(items: seq<Value>) returns (ips: set<string>, panicked: bool)
      ensures panicked <==> exists i | 0 <= i < |items| :: BadRow(items[i])
      ensures !panicked ==> ips == ListAddresses(items, |items|)
    {
      ips := {};
      var i := 0;
      while i < |items|
        invariant 0 <= i <= |items|
        invariant forall j | 0 <= j < i :: !BadRow(items[j])
        invariant ips == ListAddresses(items, i)
      {
        if BadRow(items[i]) {
          return ips, true;
        }
        if items[i].Obj? {
          ips := ips + {RowAddress(items[i])};
          ListAddressesNext(items, i);
        } else {
          ListAddressesNext(items, i);
        }
        i := i + 1;
      }
      return ips, false;
    }

    /** The addresses of the map rows of a map[string]interface{} table, in map order, up to the first bad row. */
    method FieldAddresses(rows: map<string, Value>) returns (ips: set<string>, panicked: bool)
      ensures panicked <==> exists k | k in rows :: BadRow(rows[k])
      ensures !panicked ==> ips == KeyAddresses(rows, rows.Keys)
    {
      ips := {};
      var rest := rows.Keys;
      ghost var visited: set<string> := {};
      while rest != {}
        invariant rest <= rows.Keys && visited == rows.Keys - rest
        invariant forall k | k in visited :: !BadRow(rows[k])
        invariant ips == KeyAddresses(rows, visited)
        decreases |rest|
      {
        var k :| k in rest;
        if BadRow(rows[k]) {
          return ips, true;
        }
        if rows[k].Obj? {
          ips := ips + {RowAddress(rows[k])};
          KeyAddressesAdd(rows, visited, k);
        } else {
          KeyAddressesAdd(rows, visited, k);
        }
        rest := rest - {k};
        visited := visited + {k};
      }
      return ips, false;
    }

    /** The /24 subnet of every address, each once, in map order. */
    method SubnetsOf(ips: set<string>) returns (ranges: seq<string>)
      ensures Seq2Set(ranges) == set ip | ip in ips :: Subnet(ip)
      ensures NoDuplicates(ranges) && |ranges| == |ips|
    {
      ranges := [];
      var rest := ips;
      ghost var visited: set<string> := {};
      while rest != {}
        invariant rest + visited == ips && rest !! visited
        invariant Seq2Set(ranges) == set ip | ip in visited :: Subnet(ip)
        invariant NoDuplicates(ranges) && |ranges| == |visited|
        decreases |rest|
      {
        var ip :| ip in rest;
        forall j | 0 <= j < |ranges| ensures ranges[j] != Subnet(ip) {
          assert ranges[j] in Seq2Set(ranges);
          var other :| other in visited && ranges[j] == Subnet(other);
          SubnetInjective(other, ip);
        }
        assert Seq2Set(ranges + [Subnet(ip)]) == Seq2Set(ranges) + {Subnet(ip)};
        assert (set x | x in visited + {ip} :: Subnet(x)) == (set x | x in visited :: Subnet(x)) + {Subnet(ip)};
        ranges := ranges + [Subnet(ip)];
        rest := rest - {ip};
        visited := visited + {ip};
      }
    }

    /** Probes every address of one range on every pinger, pinger by pinger. */
    method ScanRange(addrs: seq<string>)
      modifies this`probes
      ensures probes == old(probes) + RangeProbes(addrs, pingers)
    {
      var i := 0;
      while i < pingers
        invariant 0 <= i <= pingers
        invariant probes == old(probes) + RangeProbes(addrs, i)
      {
        ghost var before := probes;
        var j := 0;
        while j < |addrs|
          invariant 0 <= j <= |addrs|
          invariant probes == before + PingerProbes(i, addrs[..j])
        {
          assert addrs[..j + 1][..j] == addrs[..j];
          probes := probes + [Probe(i, HostPort(addrs[j]))];
          j := j + 1;
        }
        assert addrs[..|addrs|] == addrs;
        i := i + 1;
      }
    }

    /** detectNewRange: probes and marks every new range of the list, as Detect describes. */
    method DetectNewRange(list: seq<string>, net: Network)
      modifies this`rangeScanned, this`probes
      ensures var d := Detect(list, old(rangeScanned), pingers, net);
              probes == old(probes) + d.probes && rangeScanned == d.scanned
    {
      ghost var whole := Detect(list, rangeScanned, pingers, net);
      var i := 0;
      while i < |list|
        invariant 0 <= i <= |list|
        invariant old(probes) + whole.probes == probes + Detect(list[i..], rangeScanned, pingers, net).probes
        invariant whole.scanned == Detect(list[i..], rangeScanned, pingers, net).scanned
      {
        var ip := list[i];
        if |ip| == 0 || net.invalid(ip) {
          DetectSkip(list, i, rangeScanned, pingers, net);
          i := i + 1;
          continue;
        }
        var r := net.parse(ip);
        if r.None? || IsScanned(r.value) {
          DetectSkip(list, i, rangeScanned, pingers, net);
          i := i + 1;
          continue;
        }
        DetectScan(list, i, rangeScanned, pingers, net);
        ScanRange(net.members(r.value));
        AlreadyScanned(r.value);
        i := i + 1;
      }
    }

    /**
     * detectNewAddress: the /24 subnet of every map row's address is handed
     * to detectNewRange; `ranges` is that list, in the map order chosen.
     */
    method DetectNewAddress(table: Value, net: Network) returns (ranges: seq<string>, panicked: bool)
      modifies this`rangeScanned, this`probes
      ensures panicked <==> !WellFormedTable(table)
      ensures panicked ==> ranges == [] && rangeScanned == old(rangeScanned) && probes == old(probes)
      ensures !panicked ==> Seq2Set(ranges) == set ip | ip in TableAddresses(table) :: Subnet(ip)
      ensures !panicked ==> NoDuplicates(ranges)
      ensures !panicked ==>
                var d := Detect(ranges, old(rangeScanned), pingers, net);
                probes == old(probes) + d.probes && rangeScanned == d.scanned
    {
      if table.Nil? {
        return [], false;
      }
      var ips;
      ips, panicked := AddressesOf(table);
      if panicked {
        return [], true;
      }
      ranges := SubnetsOf(ips);
      DetectNewRange(ranges, net);
    }

    /**
     * One round of serve: events are read until a "ping_failed" command or
     * a timeout (or the end of the stream); every device read is added and
     * kept, in order, as pending.
     */
    method CollectRound(events: seq<Event>, from: nat) returns (pending: seq<Device>, next: nat, panicked: bool)
      requires from <= |events|
      modifies this`devices, this`ip2managed
      ensures from <= next <= |events|
      ensures forall i | from <= i < next - 1 :: !EndsRound(events[i])
      ensures !panicked && next < |events| ==> from < next && EndsRound(events[next - 1])
      // addDevice panics on the device of the last event read, and on no other.
      ensures panicked ==> from < next && events[next - 1].Arrival? && !AddableDevice(events[next - 1].drv)
      ensures forall i | from <= i < next :: events[i].Arrival? && !AddableDevice(events[i].drv) ==>
                panicked && i == next - 1
      ensures pending == Arrivals(events[from..(if panicked then next - 1 else next)])
      ensures forall i | from <= i < next :: events[i].Arrival? && AddableDevice(events[i].drv) ==> events[i].drv in pending
      ensures old(devices).Keys <= devices.Keys
      ensures forall i | from <= i < next :: events[i].Arrival? && AddableDevice(events[i].drv) ==>
                Address(events[i].drv) in devices
    {
      pending := [];
      next := from;
      while next < |events|
        invariant from <= next <= |events|
        invariant forall i | from <= i < next :: !EndsRound(events[i])
        invariant pending == Arrivals(events[from..next])
        invariant forall i | from <= i < next :: events[i].Arrival? ==> AddableDevice(events[i].drv)
        invariant forall i | from <= i < next :: events[i].Arrival? ==> events[i].drv in pending
        invariant old(devices).Keys <= devices.Keys
        invariant forall i | from <= i < next :: events[i].Arrival? ==> Address(events[i].drv) in devices
      {
        var e := events[next];
        ArrivalsNext(events, from, next);
        next := next + 1;
        if EndsRound(e) {
          return pending, next, false;
        }
        if e.Arrival? {
          var p := AddDevice(e.drv);
          if p {
            return pending, next, true;
          }
          pending := pending + [e.drv];
        }
      }
      return pending, next, false;
    }

    /**
     * serve as a sequential loop over the event stream: the local
     * interfaces (readLocal's answer, None when it fails) and the configured
     * ranges are scanned first; then rounds run until one brings no device
     * or the depth is reached, and the devices of a round that does not end
     * the discovery have their interface subnets scanned before the next.
     * `rounds` is how many rounds ran, `consumed` how many events were read
     * and `explored` how many of those had their devices' subnets scanned:
     * the events before the last round, which runs from `explored` to
     * `consumed`.  A map row without a string address, in the local table
     * or in a device read, makes the source's `.(string)` panic; `panicked`
     * reports it, and the discovery stops there.
     */
    method Serve(local: Option<Value>, events: seq<Event>, net: Network)
      returns (rounds: nat, consumed: nat, explored: nat, panicked: bool)
      modifies this`devices, this`ip2managed, this`rangeScanned, this`probes
      ensures rounds <= (if params.depth > 1 then params.depth else 1)
      ensures explored <= consumed <= |events|
      ensures params.isReadLocal && local.None? ==>
                rounds == 0 && consumed == 0 && !panicked && devices == old(devices) &&
                rangeScanned == old(rangeScanned) && probes == old(probes)
      // A panic has its cause in what was read: the local table, or a device of the events consumed.
      ensures panicked ==>
                (params.isReadLocal && local.Some? && !WellFormedTable(local.value)) ||
                exists i | 0 <= i < consumed :: events[i].Arrival? && !WellFormedDevice(events[i].drv)
      ensures !panicked ==> forall i | 0 <= i < consumed :: events[i].Arrival? ==> AddableDevice(events[i].drv)
      ensures params.isReadLocal && local.Some? && WellFormedTable(local.value) ==>
                TableExplored(local.value, net, rangeScanned)
      ensures !(params.isReadLocal && local.None?) && !panicked ==>
                1 <= rounds && RangesScanned(params.ipRange, net, rangeScanned)
      ensures old(rangeScanned) <= rangeScanned && old(devices).Keys <= devices.Keys
      ensures forall i | 0 <= i < consumed :: events[i].Arrival? && AddableDevice(events[i].drv) ==>
                Address(events[i].drv) in devices
      ensures forall i | 0 <= i < explored :: events[i].Arrival? ==>
                TableExplored(Lookup(events[i].drv, "$address"), net, rangeScanned)
      // The last round reads up to the first event that ends a round.
      ensures forall i | explored <= i < consumed - 1 :: !EndsRound(events[i])
      ensures !(params.isReadLocal && local.None?) && !panicked && consumed < |events| ==>
                explored < consumed && EndsRound(events[consumed - 1])
      // A round that brings no device ends the discovery before the depth is reached.
      ensures !(params.isReadLocal && local.None?) && !panicked &&
              rounds < (if params.depth > 1 then params.depth else 1) ==>
                Arrivals(events[explored..consumed]) == []
      // Every round before the last brought at least one device.
      ensures |Arrivals(events[..explored])| >= rounds - 1
    {
      rounds, consumed, explored, panicked := 0, 0, 0, false;
      ghost var localTable: Value := Nil;
      if params.isReadLocal {
        if local.None? {
          return;
        }
        localTable := local.value;
        panicked := DetectAndExplore(local.value, net);
        if panicked {
          return;
        }
      }
      ghost var scanned0 := rangeScanned;
      DetectNewRange(params.ipRange, net);
      DetectScansRanges(params.ipRange, scanned0, pingers, net);
      ghost var before := rangeScanned;
      rounds, consumed, explored, panicked := RunRounds(events, net);
      ExploredGrows(localTable, net, before, rangeScanned);
    }

    /**
     * The rounds of serve, from the first event on: each reads events up to
     * the first that ends a round; the discovery ends with a round that
     * brings no device or reaches the depth, or with a panic.
     */
    method RunRounds(events: seq<Event>, net: Network)
      returns (rounds: nat, consumed: nat, explored: nat, panicked: bool)
      modifies this`devices, this`ip2managed, this`rangeScanned, this`probes
      ensures 1 <= rounds <= (if params.depth > 1 then params.depth else 1)
      ensures explored <= consumed <= |events|
      ensures panicked ==> exists i | 0 <= i < consumed :: events[i].Arrival? && !WellFormedDevice(events[i].drv)
      ensures !panicked ==> forall i | 0 <= i < consumed :: events[i].Arrival? ==> AddableDevice(events[i].drv)
      ensures old(rangeScanned) <= rangeScanned && old(devices).Keys <= devices.Keys
      ensures forall i | 0 <= i < consumed :: events[i].Arrival? && AddableDevice(events[i].drv) ==>
                Address(events[i].drv) in devices
      ensures EventsExplored(events, explored, net, rangeScanned)
      ensures forall i | explored <= i < consumed - 1 :: !EndsRound(events[i])
      ensures !panicked && consumed < |events| ==> explored < consumed && EndsRound(events[consumed - 1])
      ensures !panicked && rounds < (if params.depth > 1 then params.depth else 1) ==>
                Arrivals(events[explored..consumed]) == []
      ensures |Arrivals(events[..explored])| >= rounds - 1
    {
      consumed, explored := 0, 0;
      var d := 1;
      while true
        invariant 1 <= d <= (if params.depth > 1 then params.depth else 1)
        invariant explored == consumed <= |events|
        invariant |Arrivals(events[..consumed])| >= d - 1
        invariant old(rangeScanned) <= rangeScanned && old(devices).Keys <= devices.Keys
        invariant forall i | 0 <= i < consumed :: events[i].Arrival? ==> AddableDevice(events[i].drv)
        invariant forall i | 0 <= i < consumed :: events[i].Arrival? ==> Address(events[i].drv) in devices
        invariant EventsExplored(events, explored, net, rangeScanned)
        decreases params.depth - d
      {
        var pending, next, p := CollectRound(events, consumed);
        if p {
          return d, next, consumed, true;
        }
        if |pending| == 0 || d >= params.depth {
          return d, next, consumed, false;
        }
        ghost var before := rangeScanned;
        p := ExploreAll(pending, net);
        if p {
          ghost var j :| 0 <= j < |pending| && !WellFormedTable(Lookup(pending[j], "$address"));
          MalformedArrival(events, consumed, next, pending, j);
          RoundExplored(events, explored, explored, [], net, before, rangeScanned);
          return d, next, consumed, true;
        }
        RoundExplored(events, explored, next, pending, net, before, rangeScanned);
        ArrivalsGrow(events, consumed, next, d);
        consumed, explored := next, next;
        d := d + 1;
      }
    }

    /** The devices of a round have their "$address" tables scanned, in order, up to the first panic. */
    method ExploreAll(pending: seq<Device>, net: Network) returns (panicked: bool)
      modifies this`rangeScanned, this`probes
      ensures panicked <==> exists j | 0 <= j < |pending| :: !WellFormedTable(Lookup(pending[j], "$address"))
      ensures old(rangeScanned) <= rangeScanned
      ensures !panicked ==>
                forall j | 0 <= j < |pending| :: TableExplored(Lookup(pending[j], "$address"), net, rangeScanned)
    {
      var k := 0;
      while k < |pending|
        invariant 0 <= k <= |pending|
        invariant old(rangeScanned) <= rangeScanned
        invariant forall j | 0 <= j < k :: TableExplored(Lookup(pending[j], "$address"), net, rangeScanned)
      {
        ghost var before := rangeScanned;
        var p := DetectAndExplore(Lookup(pending[k], "$address"), net);
        if p {
          return true;
        }
        forall j | 0 <= j < k ensures TableExplored(Lookup(pending[j], "$address"), net, rangeScanned) {
          ExploredGrows(Lookup(pending[j], "$address"), net, before, rangeScanned);
        }
        k := k + 1;
      }
      return false;
    }

    /**
     * detectNewAddress on a table, with what it leaves scanned: every subnet
     * of the table's rows; a malformed table panics and scans nothing.
     */
    method DetectAndExplore(table: Value, net: Network) returns (panicked: bool)
      modifies this`rangeScanned, this`probes
      ensures panicked <==> !WellFormedTable(table)
      ensures panicked ==> rangeScanned == old(rangeScanned) && probes == old(probes)
      ensures old(rangeScanned) <= rangeScanned
      ensures !panicked ==> TableExplored(table, net, rangeScanned)
    {
      ghost var before := rangeScanned;
      var ranges;
      ranges, panicked := DetectNewAddress(table, net);
      if panicked {
        return;
      }
      DetectScansRanges(ranges, before, pingers, net);
      forall ip | ip in TableAddresses(table) && RangeOf(net, Subnet(ip)).Some?
        ensures RangeOf(net, Subnet(ip)).value in rangeScanned
      {
        assert Subnet(ip) in Seq2Set(ranges);
        var k :| 0 <= k < |ranges| && ranges[k] == Subnet(ip);
      }
    }

    /** Result: a copy of the devices map. */
    method Result() returns (result: map<string, Value>)
      ensures result.Keys == devices.Keys
      ensures forall k | k in result :: result[k] == Obj(devices[k])
    {
      result := map[];
      var rest := devices.Keys;
      while rest != {}
        invariant rest <= devices.Keys
        invariant result.Keys == devices.Keys - rest
        invariant forall k | k in result :: result[k] == Obj(devices[k])
        decreases |rest|
      {
        var k :| k in rest;
        result := result[k := Obj(devices[k])];
        rest := rest - {k};
      }
    }

    /**
     * Read: the next message of the log channel, or TIMEOUT_TOKEN when none
     * arrives in time (`next` is None); END_TOKEN marks the discovery completed.
     */
    method Read(next: Option<string>) returns (res: string)
      modifies this`isCompleted
      ensures next.None? ==> res == TIMEOUT_TOKEN && isCompleted == old(isCompleted)
      ensures next.Some? ==> res == next.value && isCompleted == (old(isCompleted) || next.value == END_TOKEN)
    {
      if next.None? {
        return TIMEOUT_TOKEN;
      }
      if next.value == END_TOKEN {
        isCompleted := true;
      }
      return next.value;
    }
  }

  /**
   * NewDiscoverer.  A listen failure, decided by the pinger, is
   * `listen(community)`.  The timeout and community defaults are written
   * back into params before any failure; the depth default only on success.
   */
  method NewDiscoverer(params: DiscoveryParams?, drvMgr: Drivers.DriverManager, listen: string -> Option<string>)
    returns (d: Discoverer?, err: Option<string>)
    modifies params
    ensures params == null ==> d == null && err == Some("params is nil.")
    ensures params != null ==>
              params.timeout == (if old(params.timeout) <= 0 then 10 else old(params.timeout)) &&
              params.communities == Some(Communities(old(params.communities))) &&
              params.ipRange == old(params.ipRange) && params.isReadLocal == old(params.isReadLocal)
    ensures params != null ==> (d == null <==> err.Some?)
    ensures params != null && FirstListenError(Communities(old(params.communities)), listen).Some? ==>
              err == Some("snmp failed, " + FirstListenError(Communities(old(params.communities)), listen).value)
    ensures params != null && FirstListenError(Communities(old(params.communities)), listen).None? ==>
              (if "snmp" !in drvMgr.drivers then err == Some("snmp failed, driver is not found.")
               else if "metrics" !in drvMgr.drivers then err == Some("metrics failed, driver is not found.")
               else err == None)
    ensures d != null ==>
              fresh(d) && d.params == params && d.pingers == |Communities(old(params.communities))| &&
              d.devices == map[] && d.ip2managed == map[] && d.rangeScanned == {} && d.probes == [] &&
              !d.isCompleted && params.depth == (if old(params.depth) == 0 then 2 else old(params.depth))
    ensures d == null && params != null ==> params.depth == old(params.depth)
  {
    if params == null {
      return null, Some("params is nil.");
    }
    if params.timeout <= 0 {
      params.timeout := 10;
    }
    var communities := DefaultCommunities(params.communities);
    params.communities := Some(communities);
    var e := ListenAll(communities, listen);
    if e.Some? {
      return null, Some("snmp failed, " + e.value);
    }
    if drvMgr.Connect("snmp").None? {
      return null, Some("snmp failed, driver is not found.");
    }
    if drvMgr.Connect("metrics").None? {
      return null, Some("metrics failed, driver is not found.");
    }
    d := new Discoverer(params, |communities|);
    if params.depth == 0 {
      params.depth := 2;
    }
    err := None;
  }

  /** The defaulting of params.Communities: "public" is appended unless some entry is "public". */
  method DefaultCommunities(cs: Option<seq<string>>) returns (r: seq<string>)
    ensures r == Communities(cs)
  {
    if cs.None? {
      return ["public"];
    }
    var isFound := false;
    var i := 0;
    while i < |cs.value|
      invariant 0 <= i <= |cs.value|
      invariant isFound <==> "public" in cs.value[..i]
    {
      assert cs.value[..i + 1] == cs.value[..i] + [cs.value[i]];
      if cs.value[i] == "public" {
        isFound := true;
      }
      i := i + 1;
    }
    assert cs.value[..|cs.value|] == cs.value;
    r := if isFound then cs.value else cs.value + ["public"];
  }

  /** One pinger listens per community, in order; the first failure stops NewDiscoverer. */
  method ListenAll(communities: seq<string>, listen: string -> Option<string>) returns (e: Option<string>)
    ensures e == FirstListenError(communities, listen)
  {
    var i := 0;
    while i < |communities|
      invariant 0 <= i <= |communities|
      invariant FirstListenError(communities, listen) == FirstListenError(communities[i..], listen)
    {
      assert communities[i..][1..] == communities[i + 1..];
      e := listen(communities[i]);
      if e.Some? {
        return;
      }
      i := i + 1;
    }
    return None;
  }

  /** The community list NewDiscoverer settles on: ["public"] by default, and "public" is always in it. */
  function Communities(cs: Option<seq<string>>): (r: seq<string>)
    ensures "public" in r
    ensures cs.Some? ==> |cs.value| <= |r| <= |cs.value| + 1 && r[..|cs.value|] == cs.value
    ensures cs.Some? && "public" in cs.value ==> r == cs.value
  {
    if cs.None? then ["public"]
    else if "public" in cs.value then cs.value
    else cs.value + ["public"]
  }

  /** The first community a pinger fails to listen on, with its error. */
  function FirstListenError(cs: seq<string>, listen: string -> Option<string>): (r: Option<string>)
    ensures r.Some? <==> exists i | 0 <= i < |cs| :: listen(cs[i]).Some?
    decreases |cs|
  {
    if |cs| == 0 then None
    else if listen(cs[0]).Some? then listen(cs[0])
    else FirstListenError(cs[1..], listen)
  }
}
