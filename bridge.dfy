/**
 * bridge/lua_driver.go: the older coroutine bridge.  The main fiber is
 * handed (action, params) and yields a child coroutine; the child yields
 * requests (action, driver or level, params or error) that the bridge
 * answers with the registered drivers' replies until it ends.  The
 * interpreter is a `Fiber` whose resume outcomes are given in advance.
 */
module Bridge {
  import opened Common
  import opened LuaApi

  /** LUA_CODE: END 0, CONTINUE 1, FAILED 2. */
  datatype Code = End | Continue | Failed

  function CodeValue(c: Code): (v: int)
    ensures 0 <= v <= 2
  {
    match c
    case End => 0
    case Continue => 1
    case Failed => 2
  }

  /**
   * executeTask: the driver registered under `schema` answers the operation
   * named by `action`; an unknown schema or action is an error.
   */
  function ExecuteTask(registered: set<string>, backend: Backend, schema: string, action: string,
                       params: Option<map<string, string>>): (r: DriverReply)
    ensures schema !in registered ==> r == DriverReply(Nil, Some("driver '" + schema + "' is not exists."))
    ensures schema in registered && OpOfAction(action).Some? ==>
              r == backend(schema, OpOfAction(action).value, params)
    ensures schema in registered && OpOfAction(action).None? ==>
              r == DriverReply(Nil, Some(UnsupportMessage(action)))
  {
    if schema !in registered then DriverReply(Nil, Some("driver '" + schema + "' is not exists."))
    else match OpOfAction(action)
      case Some(op) => backend(schema, op, params)
      case None => DriverReply(Nil, Some(UnsupportMessage(action)))
  }

  /** A resume eval answers itself: a yield whose first value is a string. */
  predicate Handled(r: Resume)
  {
    r.code == LUA_YIELD && |r.stack| > 0 && IsString(r.stack[0])
  }

  /** The request a handled yield makes: "log", a driver operation, or anything else. */
  function Request(registered: set<string>, backend: Backend, stack: seq<LuaValue>): DriverReply
  {
    var action := ToStr(At(stack, 1));
    if action == "log" then DriverReply(Nil, None)
    else if OpOfAction(action).Some? then
      ExecuteTask(registered, backend, ToStr(At(stack, 2)), action, ToParams(At(stack, 3)))
    else DriverReply(Nil, Some(UnsupportMessage(action)))
  }

  /** The two values eval pushes back after a handled yield: result and error. */
  function Served(registered: set<string>, backend: Backend, stack: seq<LuaValue>): (args: seq<LuaValue>)
    ensures |args| == 2
  {
    var rep := Request(registered, backend, stack);
    [FromAny(rep.value), FromError(ErrorOf(rep.err))]
  }

  /**
   * A "log" request never reaches a driver: the reply is (nil, nil) whatever
   * drivers are registered and whatever they would answer.
   */
  lemma {:induction false} LogNeverReachesDriver(registered: set<string>, backend: Backend,
                                                 registered': set<string>, backend': Backend, stack: seq<LuaValue>)
    requires |stack| > 0 && stack[0] == LStr("log")
    ensures Served(registered, backend, stack) == Served(registered', backend', stack) == [LNil, LNil]
  {
    assert At(stack, 1) == LStr("log");
  }

  /** A driver operation on a registered driver is answered by that driver. */
  lemma {:induction false} OperationReachesDriver(registered: set<string>, backend: Backend,
                                                  stack: seq<LuaValue>, op: Op)
    requires |stack| >= 3 && stack[0].LStr? && OpOfAction(stack[0].s) == Some(op)
    requires ToStr(stack[1]) in registered
    ensures Served(registered, backend, stack) ==
              [FromAny(backend(ToStr(stack[1]), op, ToParams(stack[2])).value),
               FromError(ErrorOf(backend(ToStr(stack[1]), op, ToParams(stack[2])).err))]
  {
    assert At(stack, 1) == stack[0] && At(stack, 2) == stack[1] && At(stack, 3) == stack[2];
    assert stack[0].s != "log";
  }

  /**
   * The resumes of one eval, from index h0 of the fiber's history: the first
   * passes `first`, every one but the last is a handled yield, and each
   * later one passes the two values that answer the one before.
   */
  ghost predicate ServedTrace(registered: set<string>, backend: Backend, h: seq<Resumed>, h0: nat,
                              first: seq<LuaValue>)
  {
    |h| > h0 && h[h0].args == first &&
    (forall i | h0 <= i < |h| - 1 :: Handled(h[i].outcome)) &&
    (forall i | h0 < i < |h| :: h[i].args == Served(registered, backend, h[i - 1].outcome.stack))
  }

  /** One more resume extends the trace by the reply to the last handled yield. */
  lemma {:induction false} ServedTraceStep(registered: set<string>, backend: Backend, h: seq<Resumed>, h0: nat,
                                           first: seq<LuaValue>, next: Resumed)
    requires ServedTrace(registered, backend, h, h0, first)
    requires Handled(h[|h| - 1].outcome)
    requires next.args == Served(registered, backend, h[|h| - 1].outcome.stack)
    ensures ServedTrace(registered, backend, h + [next], h0, first)
  {
    var h' := h + [next];
    forall i | h0 <= i < |h'| - 1 ensures Handled(h'[i].outcome) {
      assert h'[i] == h[i];
    }
    forall i | h0 < i < |h'| ensures h'[i].args == Served(registered, backend, h'[i - 1].outcome.stack) {
      assert h'[i - 1] == h[i - 1];
      if i < |h| { assert h'[i] == h[i]; }
    }
  }

  /** The fields of a Continuous other than its coroutine. */
  datatype Frame = Frame(
    status: Code,
    drv: string,
    action: string,
    params: Option<map<string, string>>,
    any: Value,
    err: Option<LuaError>,
    intValue: int)

  /** executeContinuous applied to a frame: what one resume of the child sets. */
  function AfterResume(f: Frame, code: int, stack: seq<LuaValue>): Frame
  {
    if code == LUA_YIELD then
      var a := ToStr(At(stack, -3));
      if a == "log" then
        f.(status := Continue, action := a, intValue := ToInteger(At(stack, -2)), err := ToError(At(stack, -1)))
      else
        f.(status := Continue, action := a, drv := ToStr(At(stack, -2)), params := ToParams(At(stack, -1)))
    else if code == LUA_OK then
      f.(status := End, any := ToAny(At(stack, -2)), err := ToError(At(stack, -1)))
    else
      f.(status := Failed, err := Some(ScriptError("script execute failed - ", code)))
  }

  /**
   * How executeContinuous reads a resume: a yield continues with the request
   * it carries (a log level and message, or a driver and its params; the
   * other fields are kept), 0 ends with the result and the error, and every
   * other code fails.
   */
  lemma {:induction false} ContinuousOutcomes(f: Frame, code: int, stack: seq<LuaValue>)
    ensures var g := AfterResume(f, code, stack);
      (g.status == Continue <==> code == LUA_YIELD) &&
      (g.status == End <==> code == LUA_OK) &&
      (g.status == Failed <==> code != LUA_OK && code != LUA_YIELD) &&
      (g.status == Continue ==> g.action == ToStr(At(stack, -3)) && g.any == f.any) &&
      (g.status == Continue && g.action == "log" ==>
         g.drv == f.drv && g.params == f.params && g.intValue == ToInteger(At(stack, -2)) &&
         g.err == ToError(At(stack, -1))) &&
      (g.status == Continue && g.action != "log" ==>
         g.drv == ToStr(At(stack, -2)) && g.params == ToParams(At(stack, -1)) &&
         g.err == f.err && g.intValue == f.intValue) &&
      (g.status == End ==> g.any == ToAny(At(stack, -2)) && g.err == ToError(At(stack, -1))) &&
      (g.status == Failed ==> g.err == Some(ScriptError("script execute failed - ", code)))
  {
  }

  /** Continuous: one request's child coroutine and what it last asked for. */
  class Continuous {
    var ls: Fiber?
    var status: Code
    var drv: string
    var action: string
    var params: Option<map<string, string>>
    var any: Value
    var err: Option<LuaError>
    var intValue: int

    constructor (ls: Fiber?, status: Code, err: Option<LuaError>)
      ensures this.ls == ls && Fields() == Frame(status, "", "", None, Nil, err, 0)
    {
      this.ls := ls;
      this.status := status;
      drv := "";
      action := "";
      params := None;
      any := Nil;
      this.err := err;
      intValue := 0;
    }

    function Fields(): Frame
      reads this
    {
      Frame(status, drv, action, params, any, err, intValue)
    }

    /**
     * What a settled frame answers: END holds the value and the error its
     * coroutine's last resume left at stack slots -2 and -1; FAILED always
     * holds an error, which for a coroutine that ran is the failure of its
     * last resume code.
     */
    ghost predicate Answers()
      reads this, ls
    {
      (status == Failed ==> err.Some?) &&
      (ls != null && status == End ==>
        ls.status == LUA_OK && any == ToAny(At(ls.stack, -2)) && err == ToError(At(ls.stack, -1))) &&
      (ls != null && status == Failed ==> err == Some(ScriptError("script execute failed - ", ls.status)))
    }

    /** executeContinuous. */
    method ExecuteContinuous(code: int)
      requires ls != null
      modifies this
      ensures ls == old(ls)
      ensures Fields() == AfterResume(old(Fields()), code, ls.stack)
      ensures code == ls.status ==> Answers()
    {
      if code == LUA_YIELD {
        status := Continue;
        action := ToStr(At(ls.stack, -3));
        if action == "log" {
          intValue := ToInteger(At(ls.stack, -2));
          err := ToError(At(ls.stack, -1));
        } else {
          drv := ToStr(At(ls.stack, -2));
          params := ToParams(At(ls.stack, -1));
        }
      } else if code == LUA_OK {
        status := End;
        any := ToAny(At(ls.stack, -2));
        err := ToError(At(ls.stack, -1));
      } else {
        status := Failed;
        err := Some(ScriptError("script execute failed - ", code));
      }
    }
  }

  class LuaDriver {
    /** The main fiber, once the driver has started. */
    var LS: Fiber?
    var waitG: int
    /** How many waitG.Add(1) and waitG.Done() calls were made. */
    var adds: nat
    var dones: nat

    /** Between requests no child coroutine is pending. */
    predicate Valid()
      reads this
    {
      waitG == 0 && adds == dones
    }

    constructor ()
      ensures Valid() && LS == null && adds == 0
    {
      LS := null;
      waitG := 0;
      adds := 0;
      dones := 0;
    }

    /**
     * eval: resumes `fiber` with `args`, and answers every yield that names
     * an action by resuming it with (result, error); returns the code of the
     * first resume that does not yield a string action.
     */
    method Eval(fiber: Fiber, args: seq<LuaValue>, registered: set<string>, backend: Backend)
      returns (ret: int)
      modifies fiber
      ensures |fiber.history| > |old(fiber.history)| && fiber.history[..|old(fiber.history)|] == old(fiber.history)
      ensures ServedTrace(registered, backend, fiber.history, |old(fiber.history)|, args)
      ensures !Handled(fiber.history[|fiber.history| - 1].outcome)
      ensures ret == fiber.history[|fiber.history| - 1].outcome.code == fiber.status
      ensures ret == LUA_YIELD ==> |fiber.stack| == 0 || !IsString(fiber.stack[0])
      ensures fiber.Remaining() <= old(fiber.Remaining())
    {
      ghost var h0 := |fiber.history|;
      ghost var hist0 := fiber.history;
      ret := fiber.Resume(args);
      assert fiber.history[h0..|fiber.history| - 1] == [];
      assert fiber.history[..h0] == hist0;
      while ret == LUA_YIELD && |fiber.stack| > 0 && IsString(fiber.stack[0])
        invariant |fiber.history| > h0 && fiber.history[..h0] == hist0
        invariant ServedTrace(registered, backend, fiber.history, h0, args)
        invariant ret == fiber.status && fiber.history[|fiber.history| - 1].outcome == Resume(ret, fiber.stack)
        invariant fiber.Remaining() <= old(fiber.Remaining())
        decreases fiber.Remaining() + (if ret == LUA_YIELD && |fiber.stack| > 0 && IsString(fiber.stack[0]) then 1 else 0)
      {
        ghost var hPrev := fiber.history;
        ret := ServeOnce(fiber, registered, backend);
        ghost var next := fiber.history[|hPrev|];
        assert fiber.history == hPrev + [next];
        ServedTraceStep(registered, backend, hPrev, h0, args, next);
        assert fiber.history[..h0] == hist0;
      }
    }

    /** One turn of eval's loop: log or answer the yielded request, and resume with the reply. */
    method ServeOnce(fiber: Fiber, registered: set<string>, backend: Backend) returns (ret: int)
      requires |fiber.stack| > 0 && IsString(fiber.stack[0])
      modifies fiber
      ensures fiber.history == old(fiber.history) + [Resumed(Served(registered, backend, old(fiber.stack)), old(fiber.Next()))]
      ensures ret == fiber.status == old(fiber.Next()).code && fiber.stack == old(fiber.Next()).stack
      ensures fiber.Remaining() <= old(fiber.Remaining())
      ensures ret == LUA_YIELD ==> fiber.Remaining() < old(fiber.Remaining())
    {
      // A "log" request is written to the logger, which is not modelled.
      var reply := Served(registered, backend, fiber.stack);
      ret := fiber.Resume(reply);
    }

    /**
     * againContinue: resumes ct's coroutine with (Any, Error) and reads the
     * outcome with executeContinuous.
     */
    method AgainContinue(ct: Continuous)
      requires ct.ls != null
      modifies ct, ct.ls
      ensures ct.ls == old(ct.ls)
      ensures ct.ls.history == old(ct.ls.history) + [Resumed([FromAny(old(ct.any)), FromError(old(ct.err))], old(ct.ls.Next()))]
      ensures ct.Fields() == AfterResume(old(ct.Fields()), old(ct.ls.Next()).code, old(ct.ls.Next()).stack)
      ensures ct.status == Continue ==> ct.ls.Remaining() < old(ct.ls.Remaining())
      ensures ct.ls.Remaining() <= old(ct.ls.Remaining())
      ensures ct.Answers()
    {
      var code := ct.ls.Resume([FromAny(ct.any), FromError(ct.err)]);
      ct.ExecuteContinuous(code);
    }

    /**
     * newContinuous: hands (action, params) to the main fiber, which must
     * yield a thread; that child is resumed once.  waitG is raised exactly
     * when the child is left CONTINUE.  Before atStart and after atStop
     * there is no interpreter: the first push goes through a nil lua_State
     * and the process crashes, which the model answers with no Continuous.
     */
    method NewContinuous(action: string, params: Option<map<string, string>>,
                         registered: set<string>, backend: Backend)
      returns (ct: Continuous?, ghost mainCode: int)
      modifies this`waitG, this`adds, LS
      ensures LS == old(LS)
      ensures ct == null <==> LS == null
      ensures ct == null ==> waitG == old(waitG) && adds == old(adds)
      ensures ct != null ==> fresh(ct) && ct.Answers()
      ensures ct != null ==> waitG == old(waitG) + (if ct.status == Continue then 1 else 0)
      ensures ct != null ==> adds == old(adds) + (if ct.status == Continue then 1 else 0)
      ensures ct != null && mainCode == LUA_OK ==>
                ct.status == Failed && ct.err == Some(Msg("'lua_init.lua' is directly exited."))
      ensures ct != null && mainCode != LUA_OK && mainCode != LUA_YIELD ==>
                ct.status == Failed && ct.err == Some(ScriptError("switch to main fiber failed", mainCode))
      ensures ct != null && mainCode == LUA_YIELD && !At(LS.stack, -1).LThread? ==>
                ct.status == Failed && ct.err == Some(Msg("main fiber return value by yeild is not 'lua_State' type"))
      ensures ct != null && ct.status != Failed ==>
                mainCode == LUA_YIELD && ct.ls != null && fresh(ct.ls) && |ct.ls.history| == 1 &&
                ct.ls.history[0].args == [] &&
                ct.Fields() == AfterResume(Frame(Failed, "", "", None, Nil, None, 0),
                                           ct.ls.history[0].outcome.code, ct.ls.stack)
    {
      if LS == null {
        return null, LUA_OK;
      }
      var ret := Eval(LS, [LStr(action), FromParams(params)], registered, backend);
      mainCode := ret;
      if ret != LUA_YIELD {
        if ret == LUA_OK {
          ct := new Continuous(null, Failed, Some(Msg("'lua_init.lua' is directly exited.")));
        } else {
          ct := new Continuous(null, Failed, Some(ScriptError("switch to main fiber failed", ret)));
        }
        return;
      }
      var top := At(LS.stack, -1);
      if !top.LThread? {
        ct := new Continuous(null, Failed, Some(Msg("main fiber return value by yeild is not 'lua_State' type")));
        return;
      }
      var child := new Fiber(top.script);
      ct := new Continuous(child, Failed, None);
      var code := child.Resume([]);
      ct.ExecuteContinuous(code);
      if ct.status == Continue {
        waitG := waitG + 1;
        adds := adds + 1;
      }
    }

    /**
     * invoke: one request end to end.  While the child is CONTINUE, its
     * request is handled (a log line, or executeTask) and the child resumed;
     * END returns (Any, Error), anything else (nil, Error).  The deferred
     * Done matches the child's Add, also when a log request without a
     * message makes the logger call panic.  With no interpreter the call
     * crashes in newContinuous, which `panicked` reports too: in neither
     * case does invoke return.  `child` is the coroutine that ran last.
     */
    method Invoke(action: string, params: Option<map<string, string>>, registered: set<string>, backend: Backend)
      returns (any: Value, err: Option<LuaError>, panicked: bool, ghost final: Code, ghost child: Fiber?)
      requires Valid()
      modifies this, LS
      ensures Valid() && LS == old(LS)
      ensures adds - old(adds) == dones - old(dones) <= 1
      ensures final != Continue
      ensures LS == null ==> panicked && adds == old(adds)
      ensures !panicked && final != End ==> any == Nil
      ensures panicked ==> any == Nil && err == None && final == Failed
      ensures final == End ==>
                !panicked && child != null && fresh(child) && child.status == LUA_OK &&
                any == ToAny(At(child.stack, -2)) && err == ToError(At(child.stack, -1))
      ensures !panicked && final == Failed ==> err.Some?
      ensures !panicked && final == Failed && child != null ==>
                err == Some(ScriptError("script execute failed - ", child.status))
    {
      ghost var main;
      var ct;
      ct, main := NewContinuous(action, params, registered, backend);
      if ct == null {
        return Nil, None, true, Failed, null;
      }
      child := ct.ls;
      if ct.status == Continue {
        var p := ServeChild(ct, registered, backend);
        // The deferred Done runs on both paths.
        waitG := waitG - 1;
        dones := dones + 1;
        if p {
          return Nil, None, true, Failed, child;
        }
      }
      final := ct.status;
      if ct.status == End {
        return ct.any, ct.err, false, final, child;
      }
      return Nil, ct.err, false, final, child;
    }

    /**
     * invoke's loop: while the child is CONTINUE, its request is handled (a
     * log line, or executeTask) and the child resumed with the reply.  A
     * log request without a message makes the logger call panic.
     */
    method ServeChild(ct: Continuous, registered: set<string>, backend: Backend) returns (panicked: bool)
      requires ct.ls != null && ct.status == Continue
      modifies ct, ct.ls
      ensures ct.ls == old(ct.ls)
      ensures !panicked ==> ct.status != Continue && ct.Answers()
    {
      var fiber := ct.ls;
      while true
        invariant ct.ls == fiber
        invariant ct.status == Continue
        decreases fiber.Remaining()
      {
        if ct.action == "log" {
          if ct.err.None? {
            return true;
          }
          // The message goes to the logger, which is not modelled.
          ct.any := Nil;
          ct.err := None;
        } else {
          var rep := ExecuteTask(registered, backend, ct.drv, ct.action, ct.params);
          ct.any := rep.value;
          ct.err := ErrorOf(rep.err);
        }
        AgainContinue(ct);
        if ct.status != Continue {
          return false;
        }
      }
    }

    /**
     * invokeAndReturnBool: nil is false, a bool is returned, anything else
     * panics.  `value`, `invokePanicked`, `final` and `child` are what
     * invoke answered.
     */
    method InvokeAndReturnBool(action: string, params: Option<map<string, string>>, registered: set<string>,
                               backend: Backend)
      returns (b: bool, err: Option<LuaError>, panicked: bool,
               ghost value: Value, ghost invokePanicked: bool, ghost final: Code, ghost child: Fiber?)
      requires Valid()
      modifies this, LS
      ensures Valid() && LS == old(LS)
      ensures adds - old(adds) == dones - old(dones) <= 1
      ensures LS == null ==> panicked
      ensures panicked <==> invokePanicked || (value != Nil && !value.Bool?)
      ensures !panicked ==> b == (value.Bool? && value.b)
      ensures panicked ==> !b
      ensures final != End ==> value == Nil
      ensures final == End ==>
                !invokePanicked && child != null && fresh(child) && child.status == LUA_OK &&
                value == ToAny(At(child.stack, -2)) && err == ToError(At(child.stack, -1))
    {
      var ret, p;
      ret, err, p, final, child := Invoke(action, params, registered, backend);
      value, invokePanicked := ret, p;
      if p {
        b, panicked := false, true;
      } else if ret == Nil {
        b, panicked := false, false;
      } else if !ret.Bool? {
        b, panicked := false, true;
      } else {
        b, panicked := ret.b, false;
      }
    }

    /**
     * atStart: loads the init chunk (its load status is `loadCode`) and runs
     * it until the main fiber yields; any other outcome panics.
     */
    method AtStart(loadCode: int, mainScript: seq<Resume>, registered: set<string>, backend: Backend)
      returns (panicked: bool)
      modifies this
      ensures Valid() == old(Valid()) && adds == old(adds) && dones == old(dones)
      ensures loadCode != LUA_OK ==> panicked
      ensures panicked ==> LS == old(LS)
      ensures !panicked ==> LS != null && fresh(LS) && LS.status == LUA_YIELD
    {
      if loadCode == LUA_ERRFILE {
        return true;
      } else if loadCode != LUA_OK {
        return true;
      }
      var fiber := new Fiber(mainScript);
      var ret := Eval(fiber, [], registered, backend);
      if ret != LUA_YIELD {
        return true;
      }
      LS := fiber;
      return false;
    }

    /**
     * atStop: with no interpreter it does nothing; otherwise the main fiber
     * must be suspended, is sent "__exit__" and must end.
     */
    method AtStop(registered: set<string>, backend: Backend) returns (panicked: bool)
      requires Valid()
      modifies this, LS
      ensures Valid()
      ensures old(LS) == null ==> !panicked && LS == null && adds == old(adds)
      ensures old(LS) != null && old(LS.status) != LUA_YIELD ==> panicked
      ensures !panicked ==> LS == null
    {
      if LS == null {
        return false;
      }
      if LS.status != LUA_YIELD {
        return true;
      }
      var ret := Eval(LS, [LStr("__exit__")], registered, backend);
      if ret != LUA_OK {
        return true;
      }
      // waitG.Wait(): Valid() says no child is pending.
      LS := null;
      return false;
    }
  }
}
