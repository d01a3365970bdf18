/**
 * The slice of the Lua 5.2 C API that both coroutine bridges use
 * (lua_binding/lua_driver.go and bridge/lua_driver.go): a coroutine is a
 * `Fiber` whose resumes are answered by a script of outcomes fixed in
 * advance, and the stack helpers (toString, toParams, toAny, pushAny, ...)
 * are conversions between Lua values and Go values.
 */
module LuaApi {
  import opened Common

  /** Status codes of lua_resume and lua_status in Lua 5.2's lua.h. */
  const LUA_OK: int := 0
  const LUA_YIELD: int := 1
  const LUA_ERRRUN: int := 2
  const LUA_ERRSYNTAX: int := 3
  const LUA_ERRMEM: int := 4
  const LUA_ERRGCMM: int := 5
  const LUA_ERRERR: int := 6
  const LUA_ERRFILE: int := 7

  /** A value on a Lua stack.  LUser carries a Go value pushed as userdata. */
  datatype LuaValue =
    | LNil
    | LBool(b: bool)
    | LNum(n: int)
    | LStr(s: string)
    | LTable(t: map<string, string>)
    | LThread(script: seq<Resume>)
    | LUser(v: Value)

  /** What one lua_resume returns: its status code and the values it leaves on the stack. */
  datatype Resume = Resume(code: int, stack: seq<LuaValue>)

  /** One resume as the fiber saw it: the arguments passed and the outcome. */
  datatype Resumed = Resumed(args: seq<LuaValue>, outcome: Resume)

  /** Errors of the bridges: a plain message, or getError's message built from a prefix and a status. */
  datatype LuaError = Msg(text: string) | ScriptError(prefix: string, code: int)

  function ErrorText(e: LuaError): string
  {
    match e
    case Msg(t) => t
    case ScriptError(p, _) => p
  }

  /** lua_isstring: strings and numbers. */
  predicate IsString(v: LuaValue) { v.LStr? || v.LNum? }

  /** toString: the string, a number's decimal text, or "" for anything else. */
  function ToStr(v: LuaValue): string
  {
    match v
    case LStr(s) => s
    case LNum(n) => IntToString(n)
    case _ => ""
  }

  /** toInteger: a number, or 0. */
  function ToInteger(v: LuaValue): int
  {
    if v.LNum? then v.n else 0
  }

  /**
   * The value at a stack index: 1..top from the bottom, -1..-top from the
   * top; an index outside the stack reads as nil (LUA_TNONE).
   */
  function At(stack: seq<LuaValue>, idx: int): (v: LuaValue)
    ensures 1 <= idx <= |stack| ==> v == stack[idx - 1]
    ensures -|stack| <= idx <= -1 ==> v == stack[|stack| + idx]
  {
    if 1 <= idx <= |stack| then stack[idx - 1]
    else if -|stack| <= idx <= -1 then stack[|stack| + idx]
    else LNil
  }

  /** toParams: a table of strings, or nil. */
  function ToParams(v: LuaValue): Option<map<string, string>>
  {
    if v.LTable? then Some(v.t) else None
  }

  /** pushParams. */
  function FromParams(p: Option<map<string, string>>): LuaValue
  {
    if p.Some? then LTable(p.value) else LNil
  }

  /** toError: nil is no error, anything else an error with its text. */
  function ToError(v: LuaValue): Option<LuaError>
  {
    if v.LNil? then None else Some(Msg(ToStr(v)))
  }

  /** pushError: nil, or the error's text. */
  function FromError(e: Option<LuaError>): LuaValue
  {
    if e.Some? then LStr(ErrorText(e.value)) else LNil
  }

  /** pushAny: scalars become Lua scalars, anything else travels as userdata. */
  function FromAny(v: Value): LuaValue
  {
    match v
    case Nil => LNil
    case Bool(b) => LBool(b)
    case Int(i) => LNum(i)
    case Str(s) => LStr(s)
    case _ => LUser(v)
  }

  /** toAny: the inverse of pushAny; a table becomes a map of strings, a thread nil. */
  function ToAny(v: LuaValue): Value
  {
    match v
    case LNil => Nil
    case LBool(b) => Bool(b)
    case LNum(n) => Int(n)
    case LStr(s) => Str(s)
    case LTable(t) => Obj(map k | k in t :: Str(t[k]))
    case LThread(_) => Nil
    case LUser(u) => u
  }

  /** What a Go value pushed for the script reads back as: the helpers are mutual inverses. */
  lemma {:induction false} PushReadRoundTrip(v: Value, p: Option<map<string, string>>, e: Option<string>, s: string)
    ensures ToAny(FromAny(v)) == v
    ensures ToParams(FromParams(p)) == p
    ensures ToError(FromError(ErrorOf(e))) == ErrorOf(e)
    ensures ToStr(LStr(s)) == s && IsString(LStr(s))
  {
    match v {
      case Nil =>
      case Bool(_) =>
      case Int(_) =>
      case Str(_) =>
      case StrPtr(_) =>
      case Time(_) =>
      case List(_) =>
      case Obj(_) =>
      case ObjList(_) =>
      case Other(_) =>
    }
  }

  /** What a driver operation answers: its value and its error message, if any. */
  datatype DriverReply = DriverReply(value: Value, err: Option<string>)

  /**
   * The registered drivers' answers: backend(schema, op, params) is what the
   * driver registered under `schema` returns for `op`.  Drivers are outside
   * this model, so their answers are a parameter.
   */
  type Backend = (string, Op, Option<map<string, string>>) -> DriverReply

  /** A driver's error message as the bridges carry it. */
  function ErrorOf(e: Option<string>): Option<LuaError>
  {
    if e.Some? then Some(Msg(e.value)) else None
  }

  /** The error both bridges report for an action they do not know. */
  function UnsupportMessage(action: string): string
  {
    "unsupport action '" + action + "'"
  }

  /** What resuming a dead coroutine returns. */
  const DeadResume: Resume := Resume(LUA_ERRRUN, [LStr("cannot resume dead coroutine")])

  /**
   * A Lua coroutine (lua_State thread).  `script` holds the outcomes of its
   * coming resumes; once a resume has not yielded, or the script is used up,
   * the coroutine is dead and every further resume fails with LUA_ERRRUN.
   */
  class Fiber {
    var script: seq<Resume>
    var dead: bool
    /** lua_status: the code of the last resume (LUA_OK before the first). */
    var status: int
    /** The values the last resume left on the stack. */
    var stack: seq<LuaValue>
    var history: seq<Resumed>

    constructor (script: seq<Resume>)
      ensures this.script == script && !dead && status == LUA_OK && stack == [] && history == []
    {
      this.script := script;
      dead := false;
      status := LUA_OK;
      stack := [];
      history := [];
    }

    /** The outcome the next resume will have. */
    function Next(): Resume
      reads this
    {
      if dead || script == [] then DeadResume else script[0]
    }

    /** A live coroutine consumed one outcome; a dead one consumes nothing. */
    function Remaining(): nat
      reads this
    {
      if dead then 0 else |script|
    }

    /** lua_resume with `args` pushed as its arguments. */
    method Resume(args: seq<LuaValue>) returns (code: int)
      modifies this
      ensures old(Next()).code == code && stack == old(Next()).stack && status == code
      ensures history == old(history) + [Resumed(args, old(Next()))]
      ensures dead == (old(dead) || old(script) == [] || code != LUA_YIELD)
      ensures script == (if old(dead) || old(script) == [] then old(script) else old(script)[1..])
      ensures code == LUA_YIELD ==> Remaining() < old(Remaining())
      ensures Remaining() <= old(Remaining())
    {
      var r := Next();
      if !dead && script != [] {
        script := script[1..];
      }
      dead := dead || r.code != LUA_YIELD;
      code := r.code;
      stack := r.stack;
      status := code;
      history := history + [Resumed(args, r)];
    }
  }
}
