/**
 * lua_binding/lua_driver.go: the LuaDriver that runs every driver request
 * as a Lua coroutine.  The driver resumes the coroutine, classifies what it
 * yields (END, CONTINUE, YIELD or FAILED), runs the native callback of the
 * requested action and resumes again.  The interpreter is a `Fiber` whose
 * resume outcomes are given in advance (module LuaApi).
 */
module LuaBinding {
  import opened Common
  import opened LuaApi

  /** LUA_CODE. */
  datatype ExecStatus = ExecEnd | ExecContinue | ExecYield | ExecFailed

  function StatusCode(s: ExecStatus): (c: int)
    ensures 0 <= c <= 3
  {
    match s
    case ExecEnd => 0
    case ExecContinue => 1
    case ExecYield => 2
    case ExecFailed => 3
  }

  /** The Read, Write and Callback hooks a NativeMethod can carry. */
  datatype Reader = NoRead | ReadCallArguments | ReadLogArguments
  datatype Writer =
    | NoWrite
    | WriteCallResult            // pushes Any and Error
    | WriteActionArguments       // pushes StringValue and Params
    | WriteExit                  // pushes "__exit__"
    | WriteNothing               // pushes nothing, returns 0
    | WriteFailing(reason: string) // a Write hook that reports an error
  datatype Callback = NoCallback | DriverCall(op: Op) | LogLine

  datatype NativeMethod = NativeMethod(name: string, read: Reader, write: Writer, callback: Callback)

  const MethodInit: NativeMethod := NativeMethod("method_init_lua", NoRead, NoWrite, NoCallback)
  const MethodExit: NativeMethod := NativeMethod("method_exit_lua", NoRead, WriteExit, NoCallback)
  const MethodMissing: NativeMethod := NativeMethod("method_missing", NoRead, WriteCallResult, NoCallback)
  /** The method newContinuous starts the main fiber with. */
  const MethodAction: NativeMethod := NativeMethod("get", NoRead, WriteActionArguments, NoCallback)

  function DriverMethod(name: string, op: Op): NativeMethod
  {
    NativeMethod(name, ReadCallArguments, WriteCallResult, DriverCall(op))
  }

  const LogMethod: NativeMethod := NativeMethod("log", ReadLogArguments, WriteNothing, LogLine)

  /** The methods NewLuaDriver registers, in order. */
  function DefaultMethods(): seq<Option<NativeMethod>>
  {
    [Some(DriverMethod("get", GetOp)), Some(DriverMethod("put", PutOp)),
     Some(DriverMethod("create", CreateOp)), Some(DriverMethod("delete", DeleteOp)),
     Some(LogMethod)]
  }

  /** What CallbackWith keeps true of the table: keyed by name, named, with a callback. */
  predicate MethodsValid(t: map<string, NativeMethod>)
  {
    forall k | k in t :: t[k].name == k && k != "" && !t[k].callback.NoCallback?
  }

  datatype Registration = Registration(table: map<string, NativeMethod>, err: Option<string>)

  /** The effect of CallbackWith(ms...) on the table `t`. */
  function RegisterAll(t: map<string, NativeMethod>, ms: seq<Option<NativeMethod>>): Registration
    decreases |ms|
  {
    if |ms| == 0 || ms[0].None? then Registration(t, None)
    else
      var m := ms[0].value;
      if m.name == "" then Registration(t, Some("'name' is empty."))
      else if m.callback.NoCallback? then Registration(t, Some("'callback' of '" + m.name + "' is nil."))
      else if m.name in t then Registration(t, Some("'" + m.name + "' is already exists."))
      else RegisterAll(t[m.name := m], ms[1..])
  }

  /** An entry CallbackWith accepts into table `t`. */
  predicate Acceptable(t: map<string, NativeMethod>, m: NativeMethod)
  {
    m.name != "" && !m.callback.NoCallback? && m.name !in t
  }

  /** CallbackWith never removes or replaces an entry, and keeps the table valid. */
  lemma {:induction false} RegisterAllGrows(t: map<string, NativeMethod>, ms: seq<Option<NativeMethod>>)
    requires MethodsValid(t)
    ensures var r := RegisterAll(t, ms);
            MethodsValid(r.table) && t.Keys <= r.table.Keys &&
            (forall k | k in t :: r.table[k] == t[k])
    decreases |ms|
  {
    if |ms| == 0 || ms[0].None? {
    } else {
      var m := ms[0].value;
      if Acceptable(t, m) {
        RegisterAllGrows(t[m.name := m], ms[1..]);
      }
    }
  }

  /**
   * The first rejected entry decides the error, and every entry before it
   * stays registered: an entry is registered exactly when it precedes the
   * first nil or rejected entry.
   */
  lemma {:induction false} RegisterAllPrefix(t: map<string, NativeMethod>, ms: seq<Option<NativeMethod>>, k: nat)
    requires k <= |ms|
    requires forall i | 0 <= i < k :: ms[i].Some?
    requires forall i, j | 0 <= i < j < k :: ms[i].value.name != ms[j].value.name
    requires forall i | 0 <= i < k :: Acceptable(t, ms[i].value)
    ensures var r := RegisterAll(t, ms);
            forall i | 0 <= i < k :: ms[i].value.name in r.table && r.table[ms[i].value.name] == ms[i].value
    ensures k == |ms| ==> RegisterAll(t, ms).err == None
    ensures k < |ms| && ms[k].None? ==> RegisterAll(t, ms).err == None
    ensures k < |ms| && ms[k].Some? && ms[k].value.name == "" ==>
              RegisterAll(t, ms).err == Some("'name' is empty.")
    ensures k < |ms| && ms[k].Some? && ms[k].value.name != "" && ms[k].value.callback.NoCallback? ==>
              RegisterAll(t, ms).err == Some("'callback' of '" + ms[k].value.name + "' is nil.")
    decreases k
  {
    if k == 0 {
    } else {
      var m := ms[0].value;
      var t' := t[m.name := m];
      forall i | 0 <= i < k - 1 ensures Acceptable(t', ms[1..][i].value) {
        assert ms[1..][i] == ms[i + 1];
        assert ms[0].value.name != ms[i + 1].value.name;
      }
      RegisterAllPrefix(t', ms[1..], k - 1);
      var r := RegisterAll(t', ms[1..]);
      assert RegisterAll(t, ms) == r;
      RegisterAllGrows(map[], []);
      forall i | 0 <= i < k ensures ms[i].value.name in r.table && r.table[ms[i].value.name] == ms[i].value {
        if i > 0 {
          assert ms[1..][i - 1] == ms[i];
        } else {
          RegisterAllKeeps(t', ms[1..], m.name);
        }
      }
    }
  }

  /** A key already in the table keeps its entry through CallbackWith. */
  lemma {:induction false} RegisterAllKeeps(t: map<string, NativeMethod>, ms: seq<Option<NativeMethod>>, key: string)
    requires key in t
    ensures key in RegisterAll(t, ms).table && RegisterAll(t, ms).table[key] == t[key]
    decreases |ms|
  {
    if |ms| == 0 || ms[0].None? {
    } else {
      var m := ms[0].value;
      if Acceptable(t, m) {
        RegisterAllKeeps(t[m.name := m], ms[1..], key);
      }
    }
  }

  /** A repeated name is refused with "already exists" and the earlier entry kept. */
  lemma {:induction false} RegisterDuplicate(t: map<string, NativeMethod>, m: NativeMethod, ms: seq<Option<NativeMethod>>)
    requires m.name != "" && !m.callback.NoCallback? && m.name in t
    ensures RegisterAll(t, [Some(m)] + ms) == Registration(t, Some("'" + m.name + "' is already exists."))
  {
  }

  /** The table NewLuaDriver builds: exactly get, put, create, delete and log. */
  function DefaultTable(): map<string, NativeMethod>
  {
    map["get" := DriverMethod("get", GetOp), "put" := DriverMethod("put", PutOp),
        "create" := DriverMethod("create", CreateOp), "delete" := DriverMethod("delete", DeleteOp),
        "log" := LogMethod]
  }

  lemma {:induction false} DefaultRegistration()
    ensures RegisterAll(map[], DefaultMethods()) == Registration(DefaultTable(), None)
    ensures MethodsValid(DefaultTable())
    ensures DefaultTable().Keys == {"get", "put", "create", "delete", "log"}
  {
    var ms := DefaultMethods();
    var t1 := map["get" := DriverMethod("get", GetOp)];
    var t2 := t1["put" := DriverMethod("put", PutOp)];
    var t3 := t2["create" := DriverMethod("create", CreateOp)];
    var t4 := t3["delete" := DriverMethod("delete", DeleteOp)];
    var t5 := t4["log" := LogMethod];
    assert RegisterAll(map[], ms) == RegisterAll(t1, ms[1..]);
    assert RegisterAll(t1, ms[1..]) == RegisterAll(t2, ms[2..]);
    assert RegisterAll(t2, ms[2..]) == RegisterAll(t3, ms[3..]);
    assert RegisterAll(t3, ms[3..]) == RegisterAll(t4, ms[4..]);
    assert RegisterAll(t4, ms[4..]) == RegisterAll(t5, ms[5..]);
    assert t5 == DefaultTable();
  }

  /** The fields of a Continuous other than its fiber and its unshift hook. */
  datatype Frame = Frame(
    status: ExecStatus,
    meth: Option<NativeMethod>,
    err: Option<LuaError>,
    intValue: int,
    stringValue: string,
    params: Option<map<string, string>>,
    any: Value)

  /** Continuous.clear: everything but the status is reset. */
  function Cleared(status: ExecStatus): Frame
  {
    Frame(status, None, None, 0, "", None, Nil)
  }

  /** What a method's Write pushes, or the error it reports. */
  datatype Written = Args(values: seq<LuaValue>) | WriteError(reason: string)

  function WriteOf(m: Option<NativeMethod>, f: Frame): Written
  {
    if m.None? then Args([])
    else match m.value.write
      case NoWrite => Args([])
      case WriteCallResult => Args([FromAny(f.any), FromError(f.err)])
      case WriteActionArguments => Args([LStr(f.stringValue), FromParams(f.params)])
      case WriteExit => Args([LStr("__exit__")])
      case WriteNothing => Args([])
      case WriteFailing(reason) => WriteError(reason)
  }

  const EmptyYieldMessage: string := "script execute failed - return arguments is empty."
  const NonStringYieldMessage: string := "script execute failed - return first argument is not string."

  /** How eval reads one resume. */
  datatype Class =
    | Ended
    | EmptyYield
    | NonStringYield
    | Dispatch(action: string, m: NativeMethod)
    | Missing(action: string)
    | Crashed(code: int)

  function Classify(methods: map<string, NativeMethod>, r: Resume): Class
  {
    if r.code == LUA_OK then Ended
    else if r.code == LUA_YIELD then
      if |r.stack| == 0 then EmptyYield
      else if !IsString(r.stack[0]) then NonStringYield
      else
        var a := ToStr(r.stack[0]);
        if a in methods then Dispatch(a, methods[a]) else Missing(a)
    else Crashed(r.code)
  }

  /** The frame after an unknown action: method_missing with the error to send back. */
  function MissingFrame(status: ExecStatus, action: string): Frame
  {
    Frame(status, Some(MethodMissing), Some(Msg(UnsupportMessage(action))), 0, "", None, Nil)
  }

  /** What method_missing pushes back: (nil, "unsupport action '<a>'"). */
  function MissingReply(action: string): seq<LuaValue>
  {
    [LNil, LStr(UnsupportMessage(action))]
  }

  /** The Read hook applied to a cleared frame holding `m`. */
  function ReadInto(m: NativeMethod, stack: seq<LuaValue>, f: Frame): Frame
  {
    match m.read
    case NoRead => f
    case ReadCallArguments =>
      f.(stringValue := ToStr(At(stack, 2)), err := None, params := ToParams(At(stack, 3)))
    case ReadLogArguments =>
      f.(intValue := ToInteger(At(stack, 2)), stringValue := ToStr(At(stack, 3)))
  }

  /** The frame eval returns after a resume that ends it. */
  function Settle(methods: map<string, NativeMethod>, r: Resume, unshift: bool): Frame
  {
    match Classify(methods, r)
    case Ended =>
      if unshift then Cleared(ExecEnd).(any := ToAny(At(r.stack, 2)), err := ToError(At(r.stack, 3)))
      else Cleared(ExecEnd)
    case EmptyYield => Cleared(ExecYield).(intValue := LUA_YIELD, err := Some(Msg(EmptyYieldMessage)))
    case NonStringYield => Cleared(ExecYield).(intValue := LUA_YIELD, err := Some(Msg(NonStringYieldMessage)))
    case Dispatch(_, m) => ReadInto(m, r.stack, Cleared(ExecContinue).(meth := Some(m)))
    case Missing(_) => Cleared(ExecContinue)
    case Crashed(c) => Cleared(ExecFailed).(intValue := c, err := Some(ScriptError("script execute failed", c)))
  }

  /**
   * One resume's classification: 0 ends, a malformed yield is a YIELD that
   * carries an error (never FAILED), a registered action continues, and
   * every other code fails with that code.
   */
  lemma {:induction false} ClassifyOutcomes(methods: map<string, NativeMethod>, r: Resume, unshift: bool)
    requires MethodsValid(methods)
    ensures var c := Classify(methods, r); var f := Settle(methods, r, unshift);
      (r.code == LUA_OK <==> f.status == ExecEnd && !c.Missing?) &&
      (r.code == LUA_YIELD && (|r.stack| == 0 || !IsString(r.stack[0])) <==> f.status == ExecYield) &&
      (f.status == ExecYield ==> f.err.Some? && f.intValue == LUA_YIELD) &&
      (r.code == LUA_YIELD && |r.stack| > 0 && IsString(r.stack[0]) && ToStr(r.stack[0]) in methods ==>
         f.status == ExecContinue && f.meth == Some(methods[ToStr(r.stack[0])]) &&
         !f.meth.value.callback.NoCallback?) &&
      (r.code != LUA_OK && r.code != LUA_YIELD <==> f.status == ExecFailed) &&
      (f.status == ExecFailed ==> f.intValue == r.code) &&
      (c.Missing? <==> r.code == LUA_YIELD && |r.stack| > 0 && IsString(r.stack[0]) && ToStr(r.stack[0]) !in methods)
  {
    var c := Classify(methods, r);
    if c.Dispatch? {
      assert methods[c.action].name == c.action;
    }
  }

  /** The last element of a non-empty sequence. */
  function Last<T>(s: seq<T>): T
    requires |s| > 0
  {
    s[|s| - 1]
  }

  /**
   * The resumes of one eval, from index h0 of the fiber's history: the first
   * passes `first`, every one but the last asked for an unknown action, and
   * each later one passes back method_missing's reply to the one before.
   */
  ghost predicate MissingTrace(methods: map<string, NativeMethod>, h: seq<Resumed>, h0: nat, first: seq<LuaValue>)
  {
    |h| > h0 && h[h0].args == first &&
    (forall i | h0 <= i < |h| - 1 :: Classify(methods, h[i].outcome).Missing?) &&
    (forall i | h0 < i < |h| :: h[i].args == MissingReply(Classify(methods, h[i - 1].outcome).action))
  }

  /** A trace whose last resume asked for an unknown action grows by the resume answering it. */
  lemma {:induction false} MissingTraceStep(methods: map<string, NativeMethod>, h: seq<Resumed>, h0: nat,
                                            first: seq<LuaValue>, next: Resumed)
    requires MissingTrace(methods, h, h0, first)
    requires Classify(methods, Last(h).outcome).Missing?
    requires next.args == MissingReply(Classify(methods, Last(h).outcome).action)
    ensures MissingTrace(methods, h + [next], h0, first)
  {
    var h' := h + [next];
    forall i | h0 <= i < |h'| - 1 ensures Classify(methods, h'[i].outcome).Missing? {
      assert h'[i] == h[i];
    }
    forall i | h0 < i < |h'| ensures h'[i].args == MissingReply(Classify(methods, h'[i - 1].outcome).action) {
      assert h'[i - 1] == h[i - 1];
      if i < |h| { assert h'[i] == h[i]; }
    }
  }

  /** The effect of a method's Callback on the frame. */
  function CallbackEffect(f: Frame, registered: set<string>,
                          reply: Backend): Frame
    requires f.meth.Some?
  {
    match f.meth.value.callback
    case NoCallback => f
    case LogLine => f
    case DriverCall(op) =>
      if f.stringValue !in registered then
        f.(err := Some(Msg("driver '" + f.stringValue + "' is not exists.")))
      else
        var rep := reply(f.stringValue, op, f.params);
        f.(any := rep.value, err := ErrorOf(rep.err))
  }

  /** Continuous: the record one request carries through its resumes. */
  class Continuous {
    var ls: Fiber?
    var status: ExecStatus
    var meth: Option<NativeMethod>
    /** readActionResult as the unshift hook, or none. */
    var unshift: bool
    var err: Option<LuaError>
    var intValue: int
    var stringValue: string
    var params: Option<map<string, string>>
    var any: Value

    constructor (ls: Fiber?, f: Frame, unshift: bool)
      ensures this.ls == ls && Fields() == f && this.unshift == unshift
    {
      this.ls := ls;
      this.unshift := unshift;
      status := f.status;
      meth := f.meth;
      err := f.err;
      intValue := f.intValue;
      stringValue := f.stringValue;
      params := f.params;
      any := f.any;
    }

    function Fields(): Frame
      reads this
    {
      Frame(status, meth, err, intValue, stringValue, params, any)
    }

    /** clear. */
    method Clear()
      modifies this
      ensures Fields() == Cleared(old(status))
      ensures ls == old(ls) && unshift == old(unshift)
    {
      meth := None;
      err := None;
      intValue := 0;
      stringValue := "";
      params := None;
      any := Nil;
    }

    /**
     * An END frame read by readActionResult holds the value and the error
     * its fiber's last resume returned (stack slots 2 and 3).
     */
    ghost predicate EndAnswers()
      reads this, ls
    {
      status == ExecEnd && unshift ==>
        ls != null && ls.status == LUA_OK && any == ToAny(At(ls.stack, 2)) && err == ToError(At(ls.stack, 3))
    }

    method SetFields(f: Frame)
      modifies this
      ensures Fields() == f
      ensures ls == old(ls) && unshift == old(unshift)
    {
      status := f.status;
      meth := f.meth;
      err := f.err;
      intValue := f.intValue;
      stringValue := f.stringValue;
      params := f.params;
      any := f.any;
    }
  }

  class LuaDriver {
    /** The main fiber, once the driver has started. */
    var LS: Fiber?
    var waitG: int
    /** How many waitG.Add(1) and waitG.Done() calls were made. */
    var adds: nat
    var dones: nat
    var methods: map<string, NativeMethod>
    /** Lines written by the "log" callback. */
    var logged: seq<string>

    /** Between requests: a valid method table and no pending fiber. */
    predicate Valid()
      reads this
    {
      MethodsValid(methods) && waitG == 0 && adds == dones
    }

    /** NewLuaDriver: registers get, put, create, delete and log. */
    constructor ()
      ensures Valid() && LS == null && methods == DefaultTable() && logged == []
    {
      LS := null;
      waitG := 0;
      adds := 0;
      dones := 0;
      logged := [];
      methods := map[];
      new;
      DefaultRegistration();
      var e := CallbackWith(DefaultMethods());
    }

    /** CallbackWith: registers entries until the first nil or rejected one. */
    method CallbackWith(ms: seq<Option<NativeMethod>>) returns (err: Option<string>)
      modifies this`methods
      ensures methods == RegisterAll(old(methods), ms).table
      ensures err == RegisterAll(old(methods), ms).err
    {
      var i := 0;
      while i < |ms|
        invariant 0 <= i <= |ms|
        invariant RegisterAll(methods, ms[i..]) == RegisterAll(old(methods), ms)
      {
        assert ms[i..][1..] == ms[i + 1..];
        if ms[i].None? {
          return None;
        }
        var m := ms[i].value;
        if m.name == "" {
          return Some("'name' is empty.");
        }
        if m.callback.NoCallback? {
          return Some("'callback' of '" + m.name + "' is nil.");
        }
        if m.name in methods {
          return Some("'" + m.name + "' is already exists.");
        }
        methods := methods[m.name := m];
        i := i + 1;
      }
      return None;
    }

    /**
     * One turn of eval's loop after the arguments are written: resume with
     * `args`, clear ctx and classify the outcome.  `done` is false exactly
     * for an unknown action, which leaves method_missing in ctx.
     */
    method ResumeOnce(ctx: Continuous, args: seq<LuaValue>) returns (done: bool)
      requires ctx.ls != null && MethodsValid(methods)
      modifies ctx, ctx.ls
      ensures ctx.ls == old(ctx.ls) && ctx.unshift == old(ctx.unshift)
      ensures ctx.ls.history == old(ctx.ls.history) + [Resumed(args, old(ctx.ls.Next()))]
      ensures ctx.ls.status == old(ctx.ls.Next()).code
      ensures ctx.ls.Remaining() <= old(ctx.ls.Remaining())
      ensures done <==> !Classify(methods, old(ctx.ls.Next())).Missing?
      ensures done ==> ctx.Fields() == Settle(methods, old(ctx.ls.Next()), ctx.unshift)
      ensures !done ==> ctx.Fields() == MissingFrame(old(ctx.status), Classify(methods, old(ctx.ls.Next())).action)
      ensures !done || ctx.status == ExecContinue ==> ctx.ls.Remaining() < old(ctx.ls.Remaining())
      ensures ctx.status == ExecYield ==> ctx.ls.status == LUA_YIELD
      ensures done ==> ctx.EndAnswers()
    {
      var fiber := ctx.ls;
      ghost var r := fiber.Next();
      var code := fiber.Resume(args);
      ctx.Clear();
      assert r == Resume(code, fiber.stack);
      if code == LUA_OK {
        ctx.status := ExecEnd;
        if ctx.unshift {
          ctx.any := ToAny(At(fiber.stack, 2));
          ctx.err := ToError(At(fiber.stack, 3));
        }
        return true;
      } else if code == LUA_YIELD {
        if |fiber.stack| == 0 {
          ctx.status := ExecYield;
          ctx.intValue := code;
          ctx.err := Some(Msg(EmptyYieldMessage));
          return true;
        }
        if !IsString(fiber.stack[0]) {
          ctx.status := ExecYield;
          ctx.intValue := code;
          ctx.err := Some(Msg(NonStringYieldMessage));
          return true;
        }
        var action := ToStr(fiber.stack[0]);
        var m: NativeMethod;
        if action in methods {
          m := methods[action];
          ctx.meth := Some(m);
        } else {
          ctx.err := Some(Msg(UnsupportMessage(action)));
          ctx.any := Nil;
          m := MethodMissing;
          ctx.meth := Some(m);
        }
        match m.read {
          case NoRead =>
          case ReadCallArguments =>
            ctx.stringValue := ToStr(At(fiber.stack, 2));
            ctx.err := None;
            ctx.params := ToParams(At(fiber.stack, 3));
          case ReadLogArguments =>
            ctx.intValue := ToInteger(At(fiber.stack, 2));
            ctx.stringValue := ToStr(At(fiber.stack, 3));
        }
        if !m.callback.NoCallback? {
          ctx.status := ExecContinue;
          return true;
        }
        return false;
      } else {
        ctx.status := ExecFailed;
        ctx.intValue := code;
        ctx.err := Some(ScriptError("script execute failed", code));
        return true;
      }
    }

    /**
     * eval: resumes ctx's fiber with the arguments its method writes, and
     * keeps resuming while the script asks for unknown actions (each such
     * resume passes back method_missing's reply); returns at the first
     * resume that ends, fails, yields malformed values or names a
     * registered action.
     */
    method Eval(ctx: Continuous)
      requires ctx.ls != null && ctx.meth.Some? && MethodsValid(methods)
      modifies ctx, ctx.ls
      ensures ctx.ls == old(ctx.ls) && ctx.unshift == old(ctx.unshift)
      ensures |ctx.ls.history| >= |old(ctx.ls.history)|
      ensures ctx.ls.history[..|old(ctx.ls.history)|] == old(ctx.ls.history)
      ensures ctx.ls.Remaining() <= old(ctx.ls.Remaining())
      ensures ctx.status == ExecYield ==> ctx.ls.status == LUA_YIELD
      ensures ctx.EndAnswers()
      // A Write that fails: no resume at all.
      ensures WriteOf(old(ctx.meth), old(ctx.Fields())).WriteError? ==>
                ctx.ls.history == old(ctx.ls.history) &&
                ctx.Fields() == old(ctx.Fields()).(status := ExecFailed, intValue := LUA_ERRERR,
                  err := Some(Msg("push arguments failed - " + WriteOf(old(ctx.meth), old(ctx.Fields())).reason)))
      // Otherwise: one or more resumes, all but the last for unknown actions.
      ensures WriteOf(old(ctx.meth), old(ctx.Fields())).Args? ==>
                MissingTrace(methods, ctx.ls.history, |old(ctx.ls.history)|,
                             WriteOf(old(ctx.meth), old(ctx.Fields())).values) &&
                !Classify(methods, Last(ctx.ls.history).outcome).Missing? &&
                ctx.Fields() == Settle(methods, Last(ctx.ls.history).outcome, ctx.unshift) &&
                (ctx.status == ExecContinue ==> ctx.ls.Remaining() < old(ctx.ls.Remaining()))
    {
      var fiber := ctx.ls;
      ghost var h0 := |fiber.history|;
      ghost var f0 := ctx.Fields();
      ghost var w0 := WriteOf(ctx.meth, ctx.Fields());
      ghost var rem0 := fiber.Remaining();
      var w := WriteOf(ctx.meth, ctx.Fields());
      if w.WriteError? {
        ctx.status := ExecFailed;
        ctx.intValue := LUA_ERRERR;
        ctx.err := Some(Msg("push arguments failed - " + w.reason));
        return;
      }
      var done := ResumeOnce(ctx, w.values);
      assert fiber.history[..h0] == old(fiber.history);
      if !done {
        ghost var h1 := fiber.history;
        ServeMissing(ctx, h0, w0.values, f0.status);
        assert fiber.history[..h0] == h1[..h0];
      }
    }

    /**
     * The rest of eval's loop, entered after a resume that named an unknown
     * action: resume with method_missing's reply until a resume that does not.
     */
    method ServeMissing(ctx: Continuous, ghost h0: nat, ghost first: seq<LuaValue>, ghost status0: ExecStatus)
      requires ctx.ls != null && ctx.meth.Some? && MethodsValid(methods)
      requires MissingTrace(methods, ctx.ls.history, h0, first)
      requires Classify(methods, Last(ctx.ls.history).outcome).Missing?
      requires ctx.Fields() == MissingFrame(status0, Classify(methods, Last(ctx.ls.history).outcome).action)
      requires ctx.status == ExecYield ==> ctx.ls.status == LUA_YIELD
      modifies ctx, ctx.ls
      ensures ctx.ls == old(ctx.ls) && ctx.unshift == old(ctx.unshift)
      ensures |ctx.ls.history| > |old(ctx.ls.history)|
      ensures ctx.ls.history[..|old(ctx.ls.history)|] == old(ctx.ls.history)
      ensures ctx.ls.Remaining() <= old(ctx.ls.Remaining())
      ensures MissingTrace(methods, ctx.ls.history, h0, first)
      ensures !Classify(methods, Last(ctx.ls.history).outcome).Missing?
      ensures ctx.Fields() == Settle(methods, Last(ctx.ls.history).outcome, ctx.unshift)
      ensures ctx.status == ExecYield ==> ctx.ls.status == LUA_YIELD
      ensures ctx.EndAnswers()
    {
      var fiber := ctx.ls;
      ghost var hs := fiber.history;
      var done := false;
      while !done
        invariant ctx.ls == fiber && ctx.unshift == old(ctx.unshift)
        invariant |fiber.history| >= |hs| && fiber.history[..|hs|] == hs
        invariant done ==> |fiber.history| > |hs|
        invariant MissingTrace(methods, fiber.history, h0, first)
        invariant done ==> !Classify(methods, Last(fiber.history).outcome).Missing?
        invariant done ==> ctx.Fields() == Settle(methods, Last(fiber.history).outcome, ctx.unshift)
        invariant !done ==> Classify(methods, Last(fiber.history).outcome).Missing?
        invariant !done ==> ctx.Fields() == MissingFrame(status0, Classify(methods, Last(fiber.history).outcome).action)
        invariant fiber.Remaining() <= old(fiber.Remaining())
        invariant ctx.status == ExecYield ==> fiber.status == LUA_YIELD
        invariant done ==> ctx.EndAnswers()
        decreases fiber.Remaining() + (if done then 0 else 1)
      {
        ghost var a := Classify(methods, Last(fiber.history).outcome).action;
        ghost var hPrev := fiber.history;
        var args := WriteOf(ctx.meth, ctx.Fields()).values;
        assert args == MissingReply(a);
        done := ResumeOnce(ctx, args);
        assert fiber.history[..|hPrev|] == hPrev;
        MissingTraceStep(methods, hPrev, h0, first, fiber.history[|hPrev|]);
      }
    }

    /** Runs the Callback of ctx's method: a driver call through the registry, or a log line. */
    method RunCallback(ctx: Continuous, registered: set<string>,
                       reply: Backend)
      requires ctx.meth.Some?
      modifies ctx, this`logged
      ensures ctx.Fields() == CallbackEffect(old(ctx.Fields()), registered, reply)
      ensures ctx.ls == old(ctx.ls) && ctx.unshift == old(ctx.unshift)
      ensures logged == old(logged) + (if old(ctx.meth).value.callback.LogLine? then [old(ctx.stringValue)] else [])
    {
      match ctx.meth.value.callback {
        case NoCallback =>
        case LogLine =>
          logged := logged + [ctx.stringValue];
        case DriverCall(op) =>
          if ctx.stringValue !in registered {
            ctx.err := Some(Msg("driver '" + ctx.stringValue + "' is not exists."));
            return;
          }
          var rep := reply(ctx.stringValue, op, ctx.params);
          ctx.any := rep.value;
          ctx.err := ErrorOf(rep.err);
      }
    }

    /**
     * Runs callbacks and resumes while ctx is CONTINUE, the loop shared by
     * atStart, atStop and invoke.
     */
    method DriveWhileContinue(ctx: Continuous, registered: set<string>,
                              reply: Backend)
      requires ctx.ls != null && MethodsValid(methods)
      requires ctx.status == ExecContinue ==> ctx.meth.Some?
      requires ctx.status == ExecYield ==> ctx.ls.status == LUA_YIELD
      modifies ctx, ctx.ls, this`logged
      ensures ctx.ls == old(ctx.ls) && ctx.unshift == old(ctx.unshift) && methods == old(methods)
      ensures ctx.status != ExecContinue
      ensures ctx.status == ExecYield ==> ctx.ls.status == LUA_YIELD
      ensures !old(ctx.status).ExecContinue? ==> ctx.Fields() == old(ctx.Fields())
      ensures old(ctx.status).ExecContinue? ==> ctx.EndAnswers()
    {
      var fiber := ctx.ls;
      while ctx.status == ExecContinue
        invariant ctx.ls == fiber && ctx.unshift == old(ctx.unshift) && methods == old(methods)
        invariant old(ctx.status).ExecContinue? ==> ctx.EndAnswers()
        invariant ctx.status == ExecContinue ==> ctx.meth.Some?
        invariant ctx.status == ExecYield ==> ctx.ls.status == LUA_YIELD
        invariant !old(ctx.status).ExecContinue? ==> ctx.Fields() == old(ctx.Fields())
        decreases fiber.Remaining() + (if ctx.status == ExecContinue then 1 else 0)
      {
        RunCallback(ctx, registered, reply);
        Eval(ctx);
      }
    }

    /**
     * newContinuous: asks the main fiber for a child fiber for (action,
     * params), then runs the child until its first stop.  waitG is raised
     * exactly when the child is left CONTINUE.
     */
    method NewContinuous(action: string, params: Option<map<string, string>>)
      returns (ctx: Continuous, ghost mainStatus: Option<ExecStatus>)
      requires MethodsValid(methods)
      modifies this`waitG, this`adds, LS
      ensures fresh(ctx) && LS == old(LS) && methods == old(methods)
      ensures waitG == old(waitG) + (if ctx.status == ExecContinue then 1 else 0)
      ensures adds == old(adds) + (if ctx.status == ExecContinue then 1 else 0)
      ensures LS == null ==>
                mainStatus == None && ctx.ls == null && ctx.status == ExecFailed &&
                ctx.err == Some(Msg("lua status is nil."))
      ensures mainStatus == Some(ExecEnd) ==>
                ctx.status == ExecFailed && ctx.err == Some(Msg("'core.lua' is directly exited."))
      ensures mainStatus.Some? && mainStatus.value != ExecEnd && mainStatus.value != ExecYield ==>
                ctx.status == ExecFailed
      ensures ctx.status == ExecContinue ==>
                mainStatus == Some(ExecYield) && ctx.ls != null && fresh(ctx.ls) &&
                ctx.meth.Some? && ctx.unshift
      ensures ctx.status == ExecEnd ==> ctx.unshift && ctx.ls != null && fresh(ctx.ls)
      ensures ctx.EndAnswers()
    {
      if LS == null {
        ctx := new Continuous(null, Cleared(ExecFailed).(err := Some(Msg("lua status is nil."))), false);
        return ctx, None;
      }
      ctx, mainStatus := SwitchToMain(action, params);
      if ctx.status == ExecYield {
        SpawnChild(ctx);
      }
    }

    /**
     * The first half of newContinuous: pushes (action, params) to the main
     * fiber and resumes it.  Anything but a yield is FAILED with the reason.
     */
    method SwitchToMain(action: string, params: Option<map<string, string>>)
      returns (ctx: Continuous, ghost mainStatus: Option<ExecStatus>)
      requires LS != null && MethodsValid(methods)
      modifies LS
      ensures fresh(ctx) && ctx.ls == LS && ctx.unshift && mainStatus.Some?
      ensures mainStatus == Some(ExecEnd) ==>
                ctx.status == ExecFailed && ctx.err == Some(Msg("'core.lua' is directly exited."))
      ensures mainStatus.value != ExecEnd && mainStatus.value != ExecYield ==> ctx.status == ExecFailed
      ensures mainStatus == Some(ExecYield) <==> ctx.status == ExecYield
      ensures ctx.status == ExecYield ==> LS.status == LUA_YIELD
      ensures ctx.status != ExecEnd
    {
      ctx := new Continuous(LS,
        Cleared(ExecEnd).(stringValue := action, params := params, meth := Some(MethodAction)), true);
      Eval(ctx);
      mainStatus := Some(ctx.status);
      if ctx.status != ExecYield {
        if ctx.status == ExecEnd {
          ctx.status := ExecFailed;
          ctx.err := Some(Msg("'core.lua' is directly exited."));
        } else {
          ctx.status := ExecFailed;
          if ctx.err.None? {
            ctx.err := Some(Msg("switch to main fiber failed."));
          } else {
            ctx.err := Some(Msg("switch to main fiber failed, " + ErrorText(ctx.err.value)));
          }
        }
      }
    }

    /**
     * The second half of newContinuous: the main fiber has yielded; the top
     * of its stack must be a thread, which becomes ctx's fiber and is run
     * until its first stop.
     */
    method SpawnChild(ctx: Continuous)
      requires LS != null && MethodsValid(methods) && ctx.unshift && ctx.status == ExecYield
      modifies this`waitG, this`adds, ctx
      ensures ctx.unshift
      ensures waitG == old(waitG) + (if ctx.status == ExecContinue then 1 else 0)
      ensures adds == old(adds) + (if ctx.status == ExecContinue then 1 else 0)
      ensures !At(LS.stack, -1).LThread? ==>
                ctx.status == ExecFailed &&
                ctx.err == Some(Msg("main fiber return value by yeild is not 'lua_State' type"))
      ensures ctx.status == ExecContinue ==> ctx.ls != null && fresh(ctx.ls) && ctx.meth.Some?
      ensures ctx.status == ExecEnd ==> ctx.ls != null && fresh(ctx.ls)
      ensures ctx.EndAnswers()
    {
      var top := At(LS.stack, -1);
      if !top.LThread? {
        ctx.status := ExecFailed;
        ctx.err := Some(Msg("main fiber return value by yeild is not 'lua_State' type"));
        return;
      }
      var child := new Fiber(top.script);
      ctx.ls := child;
      ctx.meth := Some(MethodAction.(write := NoWrite));
      Eval(ctx);
      if ctx.status == ExecContinue {
        waitG := waitG + 1;
        adds := adds + 1;
      }
    }

    /**
     * invoke: one request end to end.  Returns (Any, Error) when the child
     * ends, (nil, Error) otherwise; the child's waitG.Add is matched by the
     * deferred Done.  `child` is the fiber the request ran on last.
     */
    method Invoke(action: string, params: Option<map<string, string>>, registered: set<string>,
                  reply: Backend)
      returns (any: Value, err: Option<LuaError>, ghost final: ExecStatus, ghost child: Fiber?)
      requires Valid()
      modifies this, LS
      ensures Valid() && LS == old(LS) && methods == old(methods)
      ensures adds - old(adds) == dones - old(dones) <= 1
      ensures final != ExecContinue
      ensures final != ExecEnd ==> any == Nil
      ensures final == ExecEnd ==>
                child != null && fresh(child) && child.status == LUA_OK &&
                any == ToAny(At(child.stack, 2)) && err == ToError(At(child.stack, 3))
      ensures LS == null ==> final == ExecFailed && err == Some(Msg("lua status is nil.")) && adds == old(adds)
    {
      ghost var main;
      var ctx;
      ctx, main := NewContinuous(action, params);
      if ctx.status == ExecContinue {
        DriveWhileContinue(ctx, registered, reply);
        waitG := waitG - 1;
        dones := dones + 1;
      }
      final := ctx.status;
      child := ctx.ls;
      if ctx.status == ExecEnd {
        return ctx.any, ctx.err, final, child;
      }
      return Nil, ctx.err, final, child;
    }

    /**
     * invokeAndReturnBool: nil is false, a bool is returned, anything else
     * panics.  `value`, `final` and `child` are what invoke answered.
     */
    method InvokeAndReturnBool(action: string, params: Option<map<string, string>>, registered: set<string>,
                               reply: Backend)
      returns (b: bool, err: Option<LuaError>, panicked: bool,
               ghost value: Value, ghost final: ExecStatus, ghost child: Fiber?)
      requires Valid()
      modifies this, LS
      ensures Valid() && LS == old(LS) && methods == old(methods)
      ensures adds - old(adds) == dones - old(dones) <= 1
      ensures panicked <==> value != Nil && !value.Bool?
      ensures !panicked ==> b == (value.Bool? && value.b)
      ensures panicked ==> !b
      ensures final != ExecEnd ==> value == Nil && !panicked && !b
      ensures final == ExecEnd ==>
                child != null && fresh(child) && child.status == LUA_OK &&
                value == ToAny(At(child.stack, 2)) && err == ToError(At(child.stack, 3))
      ensures LS == null ==> err == Some(Msg("lua status is nil.")) && !b && !panicked
    {
      var ret;
      ret, err, final, child := Invoke(action, params, registered, reply);
      value := ret;
      if ret == Nil {
        b, panicked := false, false;
      } else if !ret.Bool? {
        b, panicked := false, true;
      } else {
        b, panicked := ret.b, false;
      }
    }

    /**
     * atStart: loads the init chunk and runs it until the main fiber yields;
     * any other outcome panics.
     */
    method AtStart(loadCode: int, mainScript: seq<Resume>, registered: set<string>,
                   reply: Backend)
      returns (panicked: bool)
      requires Valid()
      modifies this
      ensures Valid() && methods == old(methods)
      ensures loadCode != LUA_OK ==> panicked
      ensures panicked ==> LS == old(LS)
      ensures !panicked ==> LS != null && fresh(LS) && LS.status == LUA_YIELD
    {
      if loadCode == LUA_ERRFILE {
        return true;
      } else if loadCode != LUA_OK {
        return true;
      }
      var fiber := new Fiber(mainScript);
      var ctx := new Continuous(fiber, Cleared(ExecEnd).(meth := Some(MethodInit)), false);
      Eval(ctx);
      DriveWhileContinue(ctx, registered, reply);
      if ctx.status != ExecYield {
        return true;
      }
      LS := fiber;
      return false;
    }

    /**
     * atStop: asks the main fiber to exit and requires it to end; with no
     * interpreter it does nothing.
     */
    method AtStop(registered: set<string>,
                  reply: Backend)
      returns (panicked: bool)
      requires Valid()
      modifies this, LS
      ensures Valid() && methods == old(methods)
      ensures old(LS) == null ==> !panicked && LS == null && logged == old(logged)
      ensures old(LS) != null && old(LS.status) != LUA_YIELD ==> panicked
      ensures !panicked ==> LS == null
    {
      if LS == null {
        return false;
      }
      if LS.status != LUA_YIELD {
        return true;
      }
      var ctx := new Continuous(LS, Cleared(ExecEnd).(meth := Some(MethodExit)), false);
      Eval(ctx);
      DriveWhileContinue(ctx, registered, reply);
      if ctx.status != ExecEnd {
        return true;
      }
      // waitG.Wait(): Valid() says no fiber is pending.
      LS := null;
      return false;
    }
  }
}
