/**
 * metrics/snmp.go: the SNMP-backed metrics.  snmpBase binds a driver
 * (Init), builds the parameter map of an SNMP request (copyParameter),
 * reads one value (Get/GetResult) or walks a table with a callback
 * protocol (GetTable, OneInTable, GetOneResult, GetAllResult), and
 * systemType derives a device type from MIB-II values (RFC 1213 system
 * and ip groups, RFC 1493 bridge group).
 *
 * The SNMP driver's answers are a parameter, and so are the typed readers
 * TryGetString/TryGetInt32/... of the metrics package, which are not part
 * of this model.
 */
module SnmpMetric {
  import opened Common
  import opened Drivers

  /** result_type. */
  const RES_STRING: int := 0
  const RES_OID: int := 1
  const RES_INT32: int := 2
  const RES_INT64: int := 3
  const RES_UINT32: int := 4
  const RES_UINT64: int := 5

  /**
   * An error of this file: commons.IsRequired(what), any other error by its
   * message, or the runtime's nil-dereference panic of a call through a nil
   * driver (GetTable recovers it into an error, Get does not).
   */
  datatype Failure = Required(what: string) | Failed(message: string) | NilDriver

  /** The text of Go's runtime error for a method call through a nil interface. */
  const NilDereferenceText: string := "runtime error: invalid memory address or nil pointer dereference"

  /** commons.IsRequired renders as "'<what>' is required." (metrics/func_test.go). */
  function FailureText(f: Failure): string
  {
    match f
    case Required(w) => "'" + w + "' is required."
    case Failed(m) => m
    case NilDriver => NilDereferenceText
  }

  datatype Fetched<T> = Fetched(value: T) | NotFetched(failure: Failure)

  /** commons.ValueIsNil; its wording is not part of this model. */
  const ValueIsNilText: string := "value is nil."

  // ---------------------------------------------------------------------
  // Init
  // ---------------------------------------------------------------------

  /** What Init finds under a key of its parameters (an absent key is nil). */
  datatype Setting = DriverSetting(drv: Driver) | ManagerSetting(drivers: map<string, Driver>) | OtherSetting

  datatype Bound = Bound(drv: Option<Driver>, err: Option<Failure>)

  /**
   * Init as written: after connecting "snmp" through the driver manager it
   * tests the manager value (never nil at that point) instead of the driver,
   * so a manager without "snmp" binds no driver and reports no error.
   */
  function InitAsWritten(params: map<string, Setting>): Bound
  {
    if "snmp" in params && params["snmp"].DriverSetting? then Bound(Some(params["snmp"].drv), None)
    else if "drv_manager" !in params then Bound(None, Some(Required("snmp' or 'drv_manager'")))
    else if !params["drv_manager"].ManagerSetting? then Bound(None, Some(Failed("'drv_manager' is not a driver manager.")))
    else
      var m := params["drv_manager"].drivers;
      Bound(if "snmp" in m then Some(m["snmp"]) else None, None)
  }

  lemma InitAsWrittenBindsNothing()
    ensures var r := InitAsWritten(map["drv_manager" := ManagerSetting(map[])]);
            r.err.None? && r.drv.None?
  {
  }

  /** Init with the check on the connected driver, as its error message intends. */
  function InitChecked(params: map<string, Setting>): (r: Bound)
    ensures r.err.None? <==> r.drv.Some?
    ensures "snmp" in params && params["snmp"].DriverSetting? ==> r == Bound(Some(params["snmp"].drv), None)
    ensures r.err.None? && !("snmp" in params && params["snmp"].DriverSetting?) ==>
              "drv_manager" in params && params["drv_manager"].ManagerSetting? &&
              "snmp" in params["drv_manager"].drivers && r.drv == Some(params["drv_manager"].drivers["snmp"])
    ensures r.err.Some? ==>
              (r.err.value in
                 {Required("snmp' or 'drv_manager'"), Failed("'drv_manager' is not a driver manager."),
                  Failed("'snmp' is not exists in the driver manager")})
  {
    var w := InitAsWritten(params);
    if w.err.None? && w.drv.None? then Bound(None, Some(Failed("'snmp' is not exists in the driver manager")))
    else w
  }

  /** The check only changes the case the as-written Init lets through. */
  lemma InitCheckedRefines(params: map<string, Setting>)
    ensures InitAsWritten(params).drv.Some? ==> InitChecked(params) == InitAsWritten(params)
    ensures InitAsWritten(params).err.Some? ==> InitChecked(params) == InitAsWritten(params)
  {
  }

  // ---------------------------------------------------------------------
  // copyParameter
  // ---------------------------------------------------------------------

  /** GetStringWithDefault(key, ""). */
  function Param(params: map<string, string>, key: string): string
  {
    if key in params then params[key] else ""
  }

  predicate IsV3(version: string) { version == "v3" || version == "V3" || version == "3" }

  datatype Copied = Copied(snmpParams: map<string, string>, err: Option<Failure>)

  /** The v3 security entries copyParameter writes. */
  function WithV3(m: map<string, string>, params: map<string, string>, rw: string): map<string, string>
  {
    m["snmp.secmodel" := Param(params, "snmp.sec_model")]
     ["snmp.auth_pass" := Param(params, "snmp." + rw + "_auth_pass")]
     ["snmp.priv_pass" := Param(params, "snmp." + rw + "_priv_pass")]
     ["snmp.max_msg_size" := Param(params, "snmp.max_msg_size")]
     ["snmp.context_name" := Param(params, "snmp.context_name")]
     ["snmp.identifier" := Param(params, "snmp.identifier")]
     ["snmp.engine_id" := Param(params, "snmp.engine_id")]
  }

  /**
   * copyParameter: the version, the address and the port, then either the
   * v3 security entries or the community of `rw`; the writes made before an
   * error stay in the map, as in the source.
   */
  function CopyParameter(params: map<string, string>, sp: map<string, string>, rw: string): (r: Copied)
    ensures var version := Param(params, "snmp.version");
            r.err.None? <==>
              version != "" && Param(params, "@address") != "" &&
              (IsV3(version) || Param(params, "snmp." + rw + "_community") != "")
    ensures Param(params, "snmp.version") == "" ==> r == Copied(sp, Some(Required("parameter of snmp")))
    ensures Param(params, "snmp.version") != "" && Param(params, "@address") == "" ==>
              r.err == Some(Required("@address"))
    ensures Param(params, "snmp.version") != "" && Param(params, "@address") != "" &&
            !IsV3(Param(params, "snmp.version")) && Param(params, "snmp." + rw + "_community") == "" ==>
              r.err == Some(Required("snmp." + rw + "_community"))
    ensures r.err.None? ==>
              var base := sp["snmp.version" := Param(params, "snmp.version")]
                            ["snmp.address" := Param(params, "@address")]
                            ["snmp.port" := Param(params, "snmp.port")];
              r.snmpParams ==
                if IsV3(Param(params, "snmp.version")) then WithV3(base, params, rw)
                else base["snmp.community" := Param(params, "snmp." + rw + "_community")]
  {
    var version := Param(params, "snmp.version");
    if version == "" then Copied(sp, Some(Required("parameter of snmp")))
    else
      var sp1 := sp["snmp.version" := version];
      var address := Param(params, "@address");
      if address == "" then Copied(sp1, Some(Required("@address")))
      else
        var sp2 := sp1["snmp.address" := address]["snmp.port" := Param(params, "snmp.port")];
        if IsV3(version) then Copied(WithV3(sp2, params, rw), None)
        else
          var community := Param(params, "snmp." + rw + "_community");
          if community == "" then Copied(sp2, Some(Required("snmp." + rw + "_community")))
          else Copied(sp2["snmp.community" := community], None)
  }

  /** A v3 request needs no community, and carries the pass phrases of `rw`. */
  lemma V3NeedsNoCommunity(params: map<string, string>, sp: map<string, string>, rw: string)
    requires IsV3(Param(params, "snmp.version")) && Param(params, "@address") != ""
    requires "snmp.community" !in sp
    ensures CopyParameter(params, sp, rw).err.None?
    ensures var m := CopyParameter(params, sp, rw).snmpParams;
            "snmp.community" !in m &&
            m["snmp.auth_pass"] == Param(params, "snmp." + rw + "_auth_pass") &&
            m["snmp.priv_pass"] == Param(params, "snmp." + rw + "_priv_pass") &&
            m["snmp.address"] == Param(params, "@address")
  {
  }

  // ---------------------------------------------------------------------
  // Get and GetResult
  // ---------------------------------------------------------------------

  /** What the bound driver's Get answers for a parameter map. */
  type SnmpBackend = (Driver, map<string, string>) -> Drivers.Result

  /** The typed readers TryGetString/TryGetOid/TryGetInt32/...: by the result type they read as. */
  type Extract = (int, map<string, Value>, string) -> Fetched<Value>

  /** What a call answers: its result, or the message of a panic it does not recover. */
  datatype Answer = Answered(result: Drivers.Result) | Panicked(message: string)

  /** The reader GetResult uses for each result type: RES_UINT64 is read by TryGetInt64. */
  function ReaderOf(rt: int): int
  {
    if rt == RES_UINT64 then RES_INT64 else rt
  }

  class SnmpBase {
    var drv: Option<Driver>

    constructor ()
      ensures drv.None?
    {
      drv := None;
    }

    /** Init binds the driver exactly when it reports no error. */
    method Init(params: map<string, Setting>) returns (err: Option<Failure>)
      modifies this
      ensures err == InitChecked(params).err
      ensures err.None? ==> drv == InitChecked(params).drv
      ensures err.Some? ==> drv == old(drv)
    {
      var b := InitChecked(params);
      err := b.err;
      if err.None? {
        drv := b.drv;
      }
    }

    /**
     * The values map a request answers, or why there is none.  The
     * parameters are copied before the driver is called, so a nil driver is
     * reached only by a request whose parameters are complete.
     */
    function Request(params: map<string, string>, sp: map<string, string>, rw: string,
                     backend: SnmpBackend, notMap: string): (r: Fetched<map<string, Value>>)
      reads this
      ensures CopyParameter(params, sp, rw).err.Some? ==> r == NotFetched(CopyParameter(params, sp, rw).err.value)
      ensures r == NotFetched(NilDriver) <==> CopyParameter(params, sp, rw).err.None? && drv.None?
      ensures r.Fetched? ==>
                drv.Some? &&
                var res := backend(drv.value, CopyParameter(params, sp, rw).snmpParams);
                CopyParameter(params, sp, rw).err.None? && !res.HasError() && res.value == Obj(r.value)
    {
      var c := CopyParameter(params, sp, rw);
      if c.err.Some? then NotFetched(c.err.value)
      else if drv.None? then NotFetched(NilDriver)
      else
        var res := backend(drv.value, c.snmpParams);
        if res.HasError() then NotFetched(Failed(res.ErrorMessage()))
        else if res.value.Nil? then NotFetched(Failed(ValueIsNilText))
        else if !res.value.Obj? then NotFetched(Failed(notMap))
        else Fetched(res.value.fields)
    }

    /** Get: a read of one OID. */
    function Get(params: map<string, string>, oid: string, backend: SnmpBackend): (r: Fetched<map<string, Value>>)
      reads this
    {
      Request(params, map["snmp.oid" := oid, "snmp.action" := "get"], "read", backend,
              "snmp result is not a map[string]interface{}.")
    }

    /**
     * GetResult: the value read as `rt`, or an internal-error result carrying
     * the message of the first failure; an unknown result type is an error.
     * A request that reaches a nil driver panics, since nothing recovers it.
     */
    function GetResult(params: map<string, string>, oid: string, rt: int,
                       backend: SnmpBackend, extract: Extract, now: int): (r: Answer)
      reads this
      ensures r.Panicked? <==> CopyParameter(params, map["snmp.oid" := oid, "snmp.action" := "get"], "read").err.None? && drv.None?
      ensures r.Panicked? ==> r.message == NilDereferenceText
      ensures r.Answered? && r.result.HasError() ==> r.result.ErrorCode() == InternalErrorCode
      ensures r.Answered? && !r.result.HasError() <==>
                Get(params, oid, backend).Fetched? && RES_STRING <= rt <= RES_UINT64 &&
                extract(ReaderOf(rt), Get(params, oid, backend).value, oid).Fetched?
      ensures r.Answered? && !r.result.HasError() ==>
                r.result.value == extract(ReaderOf(rt), Get(params, oid, backend).value, oid).value
      ensures r.Answered? && Get(params, oid, backend).NotFetched? ==>
                r.result.ErrorMessage() == FailureText(Get(params, oid, backend).failure)
      ensures Get(params, oid, backend).Fetched? && !(RES_STRING <= rt <= RES_UINT64) ==>
                r.Answered? && r.result.ErrorMessage() == "unsupported type of snmp result - " + IntToString(rt)
    {
      var values := Get(params, oid, backend);
      if values == NotFetched(NilDriver) then Panicked(NilDereferenceText)
      else if values.NotFetched? then Answered(ReturnError(InternalErrorCode, FailureText(values.failure), now))
      else if !(RES_STRING <= rt <= RES_UINT64) then
        Answered(ReturnError(InternalErrorCode, "unsupported type of snmp result - " + IntToString(rt), now))
      else
        var v := extract(ReaderOf(rt), values.value, oid);
        if v.NotFetched? then Answered(ReturnError(InternalErrorCode, FailureText(v.failure), now))
        else Answered(Return(v.value, now))
    }

    // -------------------------------------------------------------------
    // Tables
    // -------------------------------------------------------------------

    /** The rows a table request answers. */
    function TableValues(params: map<string, string>, oid: string, columns: string, backend: SnmpBackend)
      : Fetched<map<string, Value>>
      reads this
    {
      Request(params, map["snmp.oid" := oid, "snmp.action" := "table", "snmp.columns" := columns], "read", backend,
              "snmp result must is not a map[string]interface{}.")
    }

    /**
     * GetTable: each row, in the map's (arbitrary) order, goes to the
     * callback until one is not a map, the callback interrupts, or it fails.
     * `order` is the keys visited; the walk over it is `Walk`.
     */
    method GetTable(params: map<string, string>, oid: string, columns: string,
                    cb: (string, map<string, Value>) -> Option<CbError>, backend: SnmpBackend)
      returns (err: Option<Failure>, order: seq<string>, stopped: bool)
      ensures TableValues(params, oid, columns, backend).NotFetched? ==>
                err == Some(TableValues(params, oid, columns, backend).failure) && order == []
      ensures TableValues(params, oid, columns, backend).Fetched? ==>
                var values := TableValues(params, oid, columns, backend).value;
                NoDuplicates(order) && Seq2Set(order) <= values.Keys && (forall i | 0 <= i < |order| :: order[i] in values) &&
                Walk(order, values, cb) == Walked(err, stopped, |order|) &&
                (!stopped ==> Seq2Set(order) == values.Keys)
    {
      var fetched := TableValues(params, oid, columns, backend);
      if fetched.NotFetched? {
        return Some(fetched.failure), [], true;
      }
      var values := fetched.value;
      err, order, stopped := WalkRows(values, cb);
    }
  }

  // ---------------------------------------------------------------------
  // The table callback protocol
  // ---------------------------------------------------------------------

  /** A callback's non-nil error: commons.InterruptError, commons.ContinueError, or any other. */
  datatype CbError = InterruptError | ContinueError | CbFailed(message: string)

  /** The sentinels' wording is not part of this model. */
  function CbText(e: CbError): string
  {
    match e
    case InterruptError => "interrupt"
    case ContinueError => "continue"
    case CbFailed(m) => m
  }

  datatype Walked = Walked(err: Option<Failure>, stopped: bool, count: nat)

  /** What handing one row to the callback does: go on (None), or stop with an outcome. */
  function Visit(key: string, row: Value, cb: (string, map<string, Value>) -> Option<CbError>): Option<Option<Failure>>
  {
    if !row.Obj? then
      Some(Some(Failed("row with key is '" + key + "' process failed, it is not a map[string]interface{}.")))
    else
      var e := cb(key, row.fields);
      if e.None? then None
      else if e.value.InterruptError? then Some(None)
      else Some(Some(Failed("row with key is '" + key + "' process failed, " + CbText(e.value))))
  }

  /** The walk over the rows in a given order. */
  function Walk(order: seq<string>, values: map<string, Value>, cb: (string, map<string, Value>) -> Option<CbError>)
    : (r: Walked)
    requires forall i | 0 <= i < |order| :: order[i] in values
    ensures r.count <= |order|
    decreases |order|
  {
    if |order| == 0 then Walked(None, false, 0)
    else
      var v := Visit(order[0], values[order[0]], cb);
      if v.Some? then Walked(v.value, true, 1)
      else
        var rest := Walk(order[1..], values, cb);
        Walked(rest.err, rest.stopped, rest.count + 1)
  }

  lemma {:induction false} WalkSnoc(order: seq<string>, k: string, values: map<string, Value>,
                                    cb: (string, map<string, Value>) -> Option<CbError>)
    requires forall i | 0 <= i < |order| :: order[i] in values
    requires k in values
    requires Walk(order, values, cb) == Walked(None, false, |order|)
    ensures var v := Visit(k, values[k], cb);
            Walk(order + [k], values, cb) ==
              if v.Some? then Walked(v.value, true, |order| + 1) else Walked(None, false, |order| + 1)
    decreases |order|
  {
    if |order| == 0 {
      assert (order + [k])[1..] == [];
    } else {
      assert (order + [k])[1..] == order[1..] + [k];
      WalkSnoc(order[1..], k, values, cb);
    }
  }

  /** What WalkRows keeps while rows remain: the visited keys, each once, all of them accepted. */
  ghost predicate WalkingRows(order: seq<string>, rest: set<string>, values: map<string, Value>,
                              cb: (string, map<string, Value>) -> Option<CbError>)
  {
    rest <= values.Keys && Seq2Set(order) == values.Keys - rest &&
    NoDuplicates(order) && (forall i | 0 <= i < |order| :: order[i] in values) &&
    Walk(order, values, cb) == Walked(None, false, |order|)
  }

  /** Visiting one more remaining key: the walk extends by that visit, and goes on when it does. */
  lemma WalkingRowsStep(order: seq<string>, rest: set<string>, key: string, values: map<string, Value>,
                        cb: (string, map<string, Value>) -> Option<CbError>)
    requires WalkingRows(order, rest, values, cb) && key in rest
    ensures var o := order + [key];
            var v := Visit(key, values[key], cb);
            NoDuplicates(o) && Seq2Set(o) <= values.Keys && (forall i | 0 <= i < |o| :: o[i] in values) &&
            (v.Some? ==> Walk(o, values, cb) == Walked(v.value, true, |o|)) &&
            (v.None? ==> WalkingRows(o, rest - {key}, values, cb))
  {
    WalkSnoc(order, key, values, cb);
    assert Seq2Set(order + [key]) == Seq2Set(order) + {key};
  }

  /** The `for key, r := range values` loop of GetTable. */
  method WalkRows(values: map<string, Value>, cb: (string, map<string, Value>) -> Option<CbError>)
    returns (err: Option<Failure>, order: seq<string>, stopped: bool)
    ensures NoDuplicates(order) && Seq2Set(order) <= values.Keys && forall i | 0 <= i < |order| :: order[i] in values
    ensures Walk(order, values, cb) == Walked(err, stopped, |order|)
    ensures !stopped ==> Seq2Set(order) == values.Keys
  {
    order := [];
    var rest := values.Keys;
    while rest != {}
      invariant WalkingRows(order, rest, values, cb)
      decreases |rest|
    {
      var key :| key in rest;
      WalkingRowsStep(order, rest, key, values, cb);
      var v := Visit(key, values[key], cb);
      order := order + [key];
      rest := rest - {key};
      if v.Some? {
        return v.value, order, true;
      }
    }
    return None, order, false;
  }

  /** A walk visits a prefix in which every row but the last was a map the callback accepted. */
  lemma {:induction false} WalkPrefix(order: seq<string>, values: map<string, Value>,
                                      cb: (string, map<string, Value>) -> Option<CbError>, i: nat)
    requires forall j | 0 <= j < |order| :: order[j] in values
    requires Walk(order, values, cb).count == |order| && i < |order|
    requires i < |order| - 1 || !Walk(order, values, cb).stopped
    ensures values[order[i]].Obj? && cb(order[i], values[order[i]].fields).None?
    decreases |order|
  {
    if i > 0 {
      WalkPrefix(order[1..], values, cb, i - 1);
    }
  }

  /** OneInTable's wrapper: nil interrupts, ContinueError goes on, anything else fails. */
  function FirstMatch(cb: (string, map<string, Value>) -> Option<CbError>): (string, map<string, Value>) -> Option<CbError>
  {
    (k: string, row: map<string, Value>) =>
      var e := cb(k, row);
      if e.None? then Some(InterruptError)
      else if e.value.ContinueError? then None
      else e
  }

  /**
   * Under the OneInTable wrapper the walk stops at the first row the
   * callback accepts; every row before it answered ContinueError.
   */
  lemma {:induction false} FirstMatchStops(order: seq<string>, values: map<string, Value>,
                                           cb: (string, map<string, Value>) -> Option<CbError>)
    requires forall j | 0 <= j < |order| :: order[j] in values
    requires Walk(order, values, FirstMatch(cb)).count == |order|
    ensures forall j | 0 <= j < |order| - 1 ::
              values[order[j]].Obj? && cb(order[j], values[order[j]].fields) == Some(ContinueError)
    ensures |order| > 0 && Walk(order, values, FirstMatch(cb)).stopped &&
            Walk(order, values, FirstMatch(cb)).err.None? ==>
              var last := order[|order| - 1];
              values[last].Obj? && cb(last, values[last].fields) in {None, Some(InterruptError)}
    decreases |order|
  {
    forall j | 0 <= j < |order| - 1
      ensures values[order[j]].Obj? && cb(order[j], values[order[j]].fields) == Some(ContinueError)
    {
      WalkPrefix(order, values, FirstMatch(cb), j);
    }
    if |order| > 1 {
      FirstMatchStops(order[1..], values, cb);
      assert order[1..][|order| - 2] == order[|order| - 1];
    }
  }

  /** What a GetOneResult/GetAllResult callback answers for a row. */
  datatype RowResult = RowResult(result: Option<map<string, Value>>, err: Option<CbError>)

  function Errors(cb: (string, map<string, Value>) -> RowResult): (string, map<string, Value>) -> Option<CbError>
  {
    (k: string, row: map<string, Value>) => cb(k, row).err
  }

  function AsValue(m: Option<map<string, Value>>): Value
  {
    if m.Some? then Obj(m.value) else Nil
  }

  /** The results GetAllResult appends: those of the visited rows the callback answered with no error. */
  function Appended(order: seq<string>, values: map<string, Value>, cb: (string, map<string, Value>) -> RowResult)
    : seq<Value>
    requires forall j | 0 <= j < |order| :: order[j] in values
    decreases |order|
  {
    if |order| == 0 then []
    else
      var row := values[order[0]];
      var head := if row.Obj? && cb(order[0], row.fields).err.None? then [AsValue(cb(order[0], row.fields).result)] else [];
      head + Appended(order[1..], values, cb)
  }

  /** On a walk that ends with no error, GetAllResult keeps every visited row's result but an interrupting last one. */
  lemma {:induction false} AppendedAll(order: seq<string>, values: map<string, Value>,
                                       cb: (string, map<string, Value>) -> RowResult)
    requires forall j | 0 <= j < |order| :: order[j] in values
    requires Walk(order, values, Errors(cb)).count == |order|
    ensures |Appended(order, values, cb)| ==
            if |order| > 0 && Walk(order, values, Errors(cb)).stopped then |order| - 1 else |order|
    ensures forall j | 0 <= j < |order| && (j < |order| - 1 || !Walk(order, values, Errors(cb)).stopped) ::
              values[order[j]].Obj? &&
              Appended(order, values, cb)[j] == AsValue(cb(order[j], values[order[j]].fields).result)
    decreases |order|
  {
    if |order| > 0 {
      var row := values[order[0]];
      if |order| > 1 || !Walk(order, values, Errors(cb)).stopped {
        WalkPrefix(order, values, Errors(cb), 0);
        AppendedAll(order[1..], values, cb);
        forall j | 1 <= j < |order| ensures order[1..][j - 1] == order[j] { }
      } else {
        assert Visit(order[0], row, Errors(cb)).Some?;
        assert order[1..] == [];
      }
    }
  }

  method OneInTable(base: SnmpBase, params: map<string, string>, oid: string, columns: string,
                    cb: (string, map<string, Value>) -> Option<CbError>, backend: SnmpBackend)
    returns (err: Option<Failure>, order: seq<string>)
    ensures base.TableValues(params, oid, columns, backend).NotFetched? ==>
              err == Some(base.TableValues(params, oid, columns, backend).failure)
    ensures base.TableValues(params, oid, columns, backend).Fetched? ==>
              var values := base.TableValues(params, oid, columns, backend).value;
              NoDuplicates(order) && Seq2Set(order) <= values.Keys && (forall i | 0 <= i < |order| :: order[i] in values) &&
              Walk(order, values, FirstMatch(cb)).err == err && Walk(order, values, FirstMatch(cb)).count == |order| &&
              (!Walk(order, values, FirstMatch(cb)).stopped ==> Seq2Set(order) == values.Keys)
  {
    var stopped;
    err, order, stopped := base.GetTable(params, oid, columns, FirstMatch(cb), backend);
  }

  /** GetOneResult: the result of the last row handed to the callback, or an internal error. */
  method GetOneResult(base: SnmpBase, params: map<string, string>, oid: string, columns: string,
                      cb: (string, map<string, Value>) -> RowResult, backend: SnmpBackend, now: int)
    returns (r: Drivers.Result, order: seq<string>)
    ensures base.TableValues(params, oid, columns, backend).NotFetched? ==>
              r == ReturnError(InternalErrorCode, FailureText(base.TableValues(params, oid, columns, backend).failure), now)
    ensures base.TableValues(params, oid, columns, backend).Fetched? ==>
              var values := base.TableValues(params, oid, columns, backend).value;
              NoDuplicates(order) && Seq2Set(order) <= values.Keys && (forall i | 0 <= i < |order| :: order[i] in values) &&
              var w := Walk(order, values, FirstMatch(Errors(cb)));
              w.count == |order| &&
              (w.err.Some? ==> r == ReturnError(InternalErrorCode, FailureText(w.err.value), now)) &&
              (w.err.None? && |order| == 0 ==> r == Return(Nil, now)) &&
              (w.err.None? && |order| > 0 ==>
                 var last := order[|order| - 1];
                 values[last].Obj? && r == Return(AsValue(cb(last, values[last].fields).result), now))
  {
    var err, stopped;
    err, order, stopped := base.GetTable(params, oid, columns, FirstMatch(Errors(cb)), backend);
    if err.Some? {
      return ReturnError(InternalErrorCode, FailureText(err.value), now), order;
    }
    if |order| == 0 {
      return Return(Nil, now), order;
    }
    var values := base.TableValues(params, oid, columns, backend).value;
    var last := order[|order| - 1];
    LastVisitedIsMap(order, values, FirstMatch(Errors(cb)));
    r := Return(AsValue(cb(last, values[last].fields).result), now);
  }

  /** A walk that ends without error visited only maps. */
  lemma {:induction false} LastVisitedIsMap(order: seq<string>, values: map<string, Value>,
                                            cb: (string, map<string, Value>) -> Option<CbError>)
    requires forall j | 0 <= j < |order| :: order[j] in values
    requires Walk(order, values, cb).count == |order| && Walk(order, values, cb).err.None? && |order| > 0
    ensures values[order[|order| - 1]].Obj?
    decreases |order|
  {
    if |order| > 1 {
      LastVisitedIsMap(order[1..], values, cb);
      assert order[1..][|order| - 2] == order[|order| - 1];
    }
  }

  /** GetAllResult: the results the callback gave, in visiting order, or an internal error. */
  method GetAllResult(base: SnmpBase, params: map<string, string>, oid: string, columns: string,
                      cb: (string, map<string, Value>) -> RowResult, backend: SnmpBackend, now: int)
    returns (r: Drivers.Result, order: seq<string>)
    ensures base.TableValues(params, oid, columns, backend).NotFetched? ==>
              r == ReturnError(InternalErrorCode, FailureText(base.TableValues(params, oid, columns, backend).failure), now)
    ensures base.TableValues(params, oid, columns, backend).Fetched? ==>
              var values := base.TableValues(params, oid, columns, backend).value;
              NoDuplicates(order) && Seq2Set(order) <= values.Keys && (forall i | 0 <= i < |order| :: order[i] in values) &&
              var w := Walk(order, values, Errors(cb));
              w.count == |order| &&
              (!w.stopped ==> Seq2Set(order) == values.Keys) &&
              r == if w.err.Some? then ReturnError(InternalErrorCode, FailureText(w.err.value), now)
                   else Return(List(Appended(order, values, cb)), now)
  {
    var err, stopped;
    err, order, stopped := base.GetTable(params, oid, columns, Errors(cb), backend);
    if err.Some? {
      return ReturnError(InternalErrorCode, FailureText(err.value), now), order;
    }
    var values := base.TableValues(params, oid, columns, backend).value;
    r := Return(List(Appended(order, values, cb)), now);
  }

  // ---------------------------------------------------------------------
  // systemType
  // ---------------------------------------------------------------------

  const IP_FORWARDING_OID: string := "1.3.6.1.2.1.4.1.0"
  const BRIDGE_NUM_PORTS_OID: string := "1.3.6.1.2.1.17.1.2.0"

  /**
   * systemType.Call: a device type from the OID table when it knows
   * "!sys.oid"; otherwise 4 for ipForwarding = 1 plus 2 for a bridge with
   * ports, halved; otherwise bits 1..2 of sysServices.  Either SNMP read
   * failing goes straight to sysServices.
   */
  function SystemType(device2id: Option<map<string, int>>, sysOid: string,
                      ipForwarding: Fetched<int>, bridgePorts: Fetched<int>, services: Fetched<bv32>, now: int)
    : (r: Drivers.Result)
  {
    if device2id.Some? && sysOid != "" && sysOid in device2id.value then Return(Int(device2id.value[sysOid]), now)
    else
      var t := if ipForwarding.Fetched? && bridgePorts.Fetched? then
                 (if ipForwarding.value == 1 then 4 else 0) + (if bridgePorts.value > 0 then 2 else 0)
               else 0;
      if t != 0 then Return(Int(t / 2), now)
      else if services.NotFetched? then ReturnError(InternalErrorCode, FailureText(services.failure), now)
      else Return(Int(((services.value & 7) >> 1) as int), now)
  }

  /**
   * Both paths use one encoding: 2 for a router (ipForwarding is
   * forwarding(1), or sysServices has layer 3), 1 for a bridge (it has
   * ports, or sysServices has layer 2), 3 for both.
   */
  lemma SystemTypeEncoding(device2id: Option<map<string, int>>, sysOid: string,
                           ipForwarding: Fetched<int>, bridgePorts: Fetched<int>, services: Fetched<bv32>, now: int)
    requires !(device2id.Some? && sysOid != "" && sysOid in device2id.value)
    ensures var r := SystemType(device2id, sysOid, ipForwarding, bridgePorts, services, now);
            var router := ipForwarding.Fetched? && bridgePorts.Fetched? && ipForwarding.value == 1;
            var bridge := ipForwarding.Fetched? && bridgePorts.Fetched? && bridgePorts.value > 0;
            (router || bridge ==> r == Return(Int((if router then 2 else 0) + (if bridge then 1 else 0)), now)) &&
            (!router && !bridge && services.Fetched? ==>
               r == Return(Int((if services.value & 4 != 0 then 2 else 0) + (if services.value & 2 != 0 then 1 else 0)), now))
  {
    if services.Fetched? {
      var s := services.value;
      assert (s & 7) >> 1 == (if s & 4 != 0 then 2 else 0) + (if s & 2 != 0 then 1 else 0);
    }
  }
}
