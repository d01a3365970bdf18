/**
 * commons/driver.go: the name-to-driver registry (DriverManager), the
 * SimpleResult value with its setters and getters, the list-of-maps
 * coercion of AnyValue, and DefaultDrv.
 */
module Drivers {
  import opened Common

  /**
   * A registered driver.  Its identity is all the registry needs; `startable`
   * says whether it also implements commons.Startable.
   */
  datatype Driver = Driver(id: nat, startable: bool)

  /** A Start or Stop call the registry makes on a Startable driver. */
  datatype Lifecycle = Started(name: string) | Stopped(name: string)

  /** DriverManager: a map from names to drivers, updated in place. */
  class DriverManager {
    var drivers: map<string, Driver>
    /** The Start/Stop calls made on Startable drivers, oldest first. */
    var calls: seq<Lifecycle>

    constructor ()
      ensures drivers == map[] && calls == []
    {
      drivers := map[];
      calls := [];
    }

    /** Connect: the driver registered under `name`, if any. */
    function Connect(name: string): (r: Option<Driver>)
      reads this
      ensures r.Some? <==> name in drivers
      ensures r.Some? ==> drivers[name] == r.value
    {
      if name in drivers then Some(drivers[name]) else None
    }

    /** Register panics when the name is taken; otherwise it adds exactly that entry. */
    method Register(name: string, driver: Driver) returns (panicked: bool)
      modifies this
      ensures panicked <==> name in old(drivers)
      ensures panicked ==> drivers == old(drivers)
      ensures !panicked ==> drivers == old(drivers)[name := driver] && Connect(name) == Some(driver)
      ensures calls == old(calls)
    {
      panicked := name in drivers;
      if !panicked {
        drivers := drivers[name := driver];
      }
    }

    /** Unregister removes only `name`; an unknown name changes nothing. */
    method Unregister(name: string)
      modifies this
      ensures drivers == old(drivers) - {name}
      ensures Connect(name) == None
      ensures forall n :: n != name ==> Connect(n) == old(Connect(n))
      ensures name !in old(drivers) ==> drivers == old(drivers)
      ensures calls == old(calls)
    {
      drivers := drivers - {name};
    }

    /** Stop: calls Stop on a registered Startable driver; otherwise does nothing. */
    method Stop(name: string)
      modifies this`calls
      ensures calls == old(calls) + (if name in drivers && drivers[name].startable then [Stopped(name)] else [])
    {
      if name in drivers && drivers[name].startable {
        calls := calls + [Stopped(name)];
      }
    }

    /**
     * Start: NotFound for an unknown name; a Startable driver is started and
     * its error (`startResult`, decided by the driver) is returned.
     */
    method Start(name: string, startResult: Option<AppError>) returns (err: Option<AppError>)
      modifies this`calls
      ensures name !in drivers ==> err == Some(NotFound(name)) && calls == old(calls)
      ensures name in drivers && !drivers[name].startable ==> err == None && calls == old(calls)
      ensures name in drivers && drivers[name].startable ==>
                err == startResult && calls == old(calls) + [Started(name)]
    {
      if name !in drivers {
        return Some(NotFound(name));
      }
      err := None;
      if drivers[name].startable {
        calls := calls + [Started(name)];
        err := startResult;
      }
    }

    /** Reset: Stop then Start on a Startable driver, returning Start's error. */
    method Reset(name: string, startResult: Option<AppError>) returns (err: Option<AppError>)
      modifies this`calls
      ensures name !in drivers ==> err == Some(NotFound(name)) && calls == old(calls)
      ensures name in drivers && !drivers[name].startable ==> err == None && calls == old(calls)
      ensures name in drivers && drivers[name].startable ==>
                err == startResult && calls == old(calls) + [Stopped(name), Started(name)]
    {
      if name !in drivers {
        return Some(NotFound(name));
      }
      err := None;
      if drivers[name].startable {
        calls := calls + [Stopped(name), Started(name)];
        err := startResult;
      }
    }

    /** Names: every registered name exactly once, in map order. */
    method Names() returns (names: seq<string>)
      ensures Seq2Set(names) == drivers.Keys
      ensures NoDuplicates(names)
      ensures |names| == |drivers|
    {
      names := [];
      var rest := drivers.Keys;
      while rest != {}
        invariant rest <= drivers.Keys
        invariant Seq2Set(names) == drivers.Keys - rest
        invariant NoDuplicates(names)
        invariant |names| + |rest| == |drivers.Keys|
        decreases |rest|
      {
        var k :| k in rest;
        assert Seq2Set(names + [k]) == Seq2Set(names) + {k};
        names := names + [k];
        rest := rest - {k};
      }
      assert |drivers.Keys| == |drivers|;
    }
  }

  /**
   * The fields of a SimpleResult.  The setters are functions returning the
   * updated value; the class SimpleResult below applies them in place.
   */
  datatype Result = Result(
    err: Option<AppError>,
    warnings: Value,
    value: Value,
    effected: int,
    lastInsertId: Value,
    options: Option<map<string, Value>>,
    createdAt: int)
  {
    /** ErrorCode: the error's code, or -1 without an error. */
    function ErrorCode(): int { if err.Some? then err.value.code else -1 }

    /** ErrorMessage: the error's message, or "" without an error. */
    function ErrorMessage(): string { if err.Some? then err.value.message else "" }

    predicate HasError() { err.Some? }

    /** HasOptions: options present and non-empty. */
    predicate HasOptions() { options.Some? && |options.value| != 0 }

    /** SetErrorMessage: "" is a no-op; on an error-free result it creates code 500. */
    function SetErrorMessage(msg: string): (r: Result)
      ensures msg == "" ==> r == this
      ensures msg != "" ==> r.HasError() && r.ErrorMessage() == msg
      ensures msg != "" ==> r.ErrorCode() == (if HasError() then ErrorCode() else 500)
      ensures r == this.(err := r.err)
    {
      if |msg| == 0 then this
      else if err.None? then this.(err := Some(AppError(500, msg)))
      else this.(err := Some(err.value.(message := msg)))
    }

    /** SetErrorCode: 0 is a no-op; otherwise the code is set and the message kept. */
    function SetErrorCode(code: int): (r: Result)
      ensures code == 0 ==> r == this
      ensures code != 0 ==> r.HasError() && r.ErrorCode() == code && r.ErrorMessage() == ErrorMessage()
      ensures r == this.(err := r.err)
    {
      if code == 0 then this
      else if err.None? then this.(err := Some(AppError(code, "")))
      else this.(err := Some(err.value.(code := code)))
    }

    /** SetError: (0, "") is a no-op; otherwise both code and message are set. */
    function SetError(code: int, msg: string): (r: Result)
      ensures code == 0 && msg == "" ==> r == this
      ensures !(code == 0 && msg == "") ==> r.HasError() && r.ErrorCode() == code && r.ErrorMessage() == msg
      ensures r == this.(err := r.err)
    {
      if code == 0 && |msg| == 0 then this
      else this.(err := Some(AppError(code, msg)))
    }

    /** SetOption: creates the options map when absent; only `key` changes. */
    function SetOption(key: string, v: Value): (r: Result)
      ensures r.options.Some? && key in r.options.value && r.options.value[key] == v
      ensures forall k | k != key :: k in r.options.value <==> options.Some? && k in options.value
      ensures forall k | k != key && k in r.options.value :: r.options.value[k] == options.value[k]
      ensures r == this.(options := r.options)
    {
      var m := if options.Some? then options.value else map[];
      this.(options := Some(m[key := v]))
    }
  }

  /**
   * The *SimpleResult that the setters update in place.  Each setter
   * changes `state` as the value-level setter of the same name says.
   */
  class SimpleResult {
    var state: Result

    constructor (r: Result)
      ensures state == r
    {
      state := r;
    }

    method SetValue(v: Value)
      modifies this
      ensures state == old(state).(value := v)
    {
      state := state.(value := v);
    }

    method SetOptions(options: Option<map<string, Value>>)
      modifies this
      ensures state == old(state).(options := options)
    {
      state := state.(options := options);
    }

    method SetOption(key: string, v: Value)
      modifies this
      ensures state == old(state).SetOption(key, v)
    {
      state := state.SetOption(key, v);
    }

    method SetErrorMessage(msg: string)
      modifies this
      ensures state == old(state).SetErrorMessage(msg)
    {
      state := state.SetErrorMessage(msg);
    }

    method SetErrorCode(code: int)
      modifies this
      ensures state == old(state).SetErrorCode(code)
    {
      state := state.SetErrorCode(code);
    }

    method SetError(code: int, msg: string)
      modifies this
      ensures state == old(state).SetError(code, msg)
    {
      state := state.SetError(code, msg);
    }

    method SetWarnings(w: Value)
      modifies this
      ensures state == old(state).(warnings := w)
    {
      state := state.(warnings := w);
    }

    method SetEffected(effected: int)
      modifies this
      ensures state == old(state).(effected := effected)
    {
      state := state.(effected := effected);
    }

    method SetLastInsertId(id: Value)
      modifies this
      ensures state == old(state).(lastInsertId := id)
    {
      state := state.(lastInsertId := id);
    }
  }

  /** Return: the value, no error, effected -1, stamped with the caller's clock `now`. */
  function Return(v: Value, now: int): (r: Result)
    ensures r.value == v && !r.HasError() && r.effected == -1
    ensures r.ErrorCode() == -1 && r.ErrorMessage() == ""
    ensures !r.HasOptions()
  {
    Result(None, Nil, v, -1, Nil, None, now)
  }

  /** ReturnError: a nil value carrying (code, msg) unless both are empty. */
  function ReturnError(code: int, msg: string, now: int): (r: Result)
    ensures r.value == Nil
    ensures r.HasError() <==> !(code == 0 && msg == "")
    ensures r.HasError() ==> r.ErrorCode() == code && r.ErrorMessage() == msg
  {
    Return(Nil, now).SetError(code, msg)
  }

  function ReturnWithError(e: AppError, now: int): (r: Result)
    ensures r.HasError() <==> !(e.code == 0 && e.message == "")
  {
    ReturnError(e.code, e.message, now)
  }

  /** Setters on an error-free result: getters report exactly what was set. */
  lemma {:induction false} SettersOnCleanResult(v: Value, now: int, code: int, msg: string)
    ensures Return(v, now).SetError(0, "") == Return(v, now)
    ensures Return(v, now).SetErrorCode(0) == Return(v, now)
    ensures Return(v, now).SetErrorMessage("") == Return(v, now)
    ensures msg != "" ==> Return(v, now).SetErrorMessage(msg).ErrorCode() == 500
    ensures code != 0 ==> Return(v, now).SetErrorCode(code).ErrorMessage() == ""
    ensures code != 0 && msg != "" ==>
              Return(v, now).SetErrorCode(code).SetErrorMessage(msg) == Return(v, now).SetError(code, msg)
  {
  }

  /** AsObject: a single map value, or IsNotMap. */
  datatype CoercionError = IsNotMap | IsNotArray

  datatype Coerced<T> = Coerced(value: T) | CoercionFailed(error: CoercionError)

  function AsObject(v: Value): (r: Coerced<map<string, Value>>)
    ensures r.Coerced? <==> v.Obj?
    ensures r.Coerced? ==> r.value == v.fields
    ensures r.CoercionFailed? ==> r.error == IsNotMap
  {
    if v.Obj? then Coerced(v.fields) else CoercionFailed(IsNotMap)
  }

  /** Every element of a []interface{} is a map. */
  predicate AllMaps(items: seq<Value>)
  {
    forall i :: 0 <= i < |items| ==> items[i].Obj?
  }

  /**
   * AsObjects: a []map is returned as is; a []interface{} whose every element
   * is a map is converted element by element in order; a non-map element
   * gives IsNotMap and anything that is not a list gives IsNotArray.
   */
  method AsObjects(v: Value) returns (r: Coerced<seq<map<string, Value>>>)
    ensures v.ObjList? ==> r == Coerced(v.objs)
    ensures v.List? && AllMaps(v.items) ==>
              r.Coerced? && |r.value| == |v.items| &&
              forall i :: 0 <= i < |v.items| ==> r.value[i] == v.items[i].fields
    ensures v.List? && !AllMaps(v.items) ==> r == CoercionFailed(IsNotMap)
    ensures !v.List? && !v.ObjList? ==> r == CoercionFailed(IsNotArray)
  {
    if v.ObjList? {
      return Coerced(v.objs);
    }
    if !v.List? {
      return CoercionFailed(IsNotArray);
    }
    var res: seq<map<string, Value>> := [];
    var i := 0;
    while i < |v.items|
      invariant 0 <= i <= |v.items|
      invariant |res| == i
      invariant forall j :: 0 <= j < i ==> v.items[j].Obj? && res[j] == v.items[j].fields
    {
      if !v.items[i].Obj? {
        return CoercionFailed(IsNotMap);
      }
      res := res + [v.items[i].fields];
      i := i + 1;
    }
    return Coerced(res);
  }

  /** DefaultDrv: one canned (value, code, message) per operation. */
  datatype Canned = Canned(value: Value, code: int, message: string)
  datatype DefaultDrv = DefaultDrv(get: Canned, put: Canned, create: Canned, delete: Canned)
  {
    /** Every operation answers Return(value).SetError(code, message). */
    function Call(op: Op, now: int): (r: Result)
      ensures var c := match op
                case GetOp => get case PutOp => put
                case CreateOp => create case DeleteOp => delete;
              r.value == c.value && r.effected == -1 &&
              (r.HasError() <==> !(c.code == 0 && c.message == "")) &&
              (!r.HasError() ==> r.ErrorCode() == -1) &&
              (r.HasError() ==> r.ErrorCode() == c.code && r.ErrorMessage() == c.message)
    {
      var c := match op
        case GetOp => get case PutOp => put
        case CreateOp => create case DeleteOp => delete;
      Return(c.value, now).SetError(c.code, c.message)
    }
  }
}
