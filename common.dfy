/**
 * Values shared by every component of the model: Go's `interface{}` as a
 * dynamic value, the application error record, and small string helpers.
 */
module Common {

  datatype Option<T> = None | Some(value: T)

  /** A dynamically typed Go value (`interface{}`), as far as the core inspects it. */
  datatype Value =
    | Nil
    | Bool(b: bool)
    | Int(i: int)                              // any Go integer type
    | Str(s: string)
    | StrPtr(p: string)                        // a non-nil *string
    | Time(t: int)                             // time.Time as an ordered instant
    | List(items: seq<Value>)                  // []interface{}
    | Obj(fields: map<string, Value>)          // map[string]interface{}
    | ObjList(objs: seq<map<string, Value>>)   // []map[string]interface{}
    | Other(tag: int)                          // any other Go type

  /** Go's map index: values[key], nil when the key is absent. */
  function Lookup(m: map<string, Value>, key: string): (v: Value)
    ensures key in m ==> v == m[key]
    ensures key !in m ==> v == Nil
  {
    if key in m then m[key] else Nil
  }

  /**
   * commons.RuntimeError: a code and a message.  The codes below stand for
   * the commons error-code table, which is not part of this model; the model
   * relies only on their being distinct (and on 500, which driver.go spells out).
   */
  datatype AppError = AppError(code: int, message: string)

  const BadRequestCode: int := 400
  const NotFoundCode: int := 404
  const InternalErrorCode: int := 500
  const NotImplementedCode: int := 501
  const IsRequiredCode: int := 460
  const IdNotExistsCode: int := 461
  const BodyNotExistsCode: int := 462
  const RecordNotFoundCode: int := 463
  const RecordAlreadyExistsCode: int := 464
  const TimeoutCode: int := 465
  const BadNetCode: int := 466

  /** The commons helpers build their messages from an argument; the model keeps the argument. */
  function NotFound(name: string): AppError { AppError(NotFoundCode, name) }
  function IsRequired(name: string): AppError { AppError(IsRequiredCode, name) }
  function BadRequest(msg: string): AppError { AppError(BadRequestCode, msg) }
  function InternalError(msg: string): AppError { AppError(InternalErrorCode, msg) }
  function RecordNotFound(id: string): AppError { AppError(RecordNotFoundCode, id) }
  function RecordAlreadyExists(id: string): AppError { AppError(RecordAlreadyExistsCode, id) }

  /** The canned commons errors; their wording is not part of this model. */
  const IdNotExists: AppError := AppError(IdNotExistsCode, "IdNotExists")
  const BodyNotExists: AppError := AppError(BodyNotExistsCode, "BodyNotExists")

  /** A missing Go map[string]string entry reads as "". */
  function ParamOf(params: map<string, string>, key: string): (r: string)
    ensures key !in params ==> r == ""
    ensures key in params ==> r == params[key]
  {
    if key in params then params[key] else ""
  }

  /** The driver operations of commons.Driver. */
  datatype Op = GetOp | PutOp | CreateOp | DeleteOp

  /** An action name of the Lua protocol, mapped to the driver operation of the same name. */
  function OpOfAction(action: string): (r: Option<Op>)
    ensures r == Some(GetOp) <==> action == "get"
    ensures r == Some(PutOp) <==> action == "put"
    ensures r == Some(CreateOp) <==> action == "create"
    ensures r == Some(DeleteOp) <==> action == "delete"
  {
    if action == "get" then Some(GetOp)
    else if action == "put" then Some(PutOp)
    else if action == "create" then Some(CreateOp)
    else if action == "delete" then Some(DeleteOp)
    else None
  }

  /** `strings.Join`. */
  function Join(parts: seq<string>, sep: string): string
  {
    if |parts| == 0 then ""
    else if |parts| == 1 then parts[0]
    else parts[0] + sep + Join(parts[1..], sep)
  }

  /** Decimal rendering of an integer, as fmt prints it. */
  function IntToString(n: int): (r: string)
    decreases if n < 0 then 1 - n else n
  {
    if n < 0 then "-" + IntToString(-n)
    else if n < 10 then [Digit(n)]
    else IntToString(n / 10) + [Digit(n % 10)]
  }

  function Digit(d: int): char
    requires 0 <= d < 10
  {
    "0123456789"[d]
  }

  predicate NoDuplicates<T(==)>(s: seq<T>)
  {
    forall i, j :: 0 <= i < j < |s| ==> s[i] != s[j]
  }

  function Seq2Set<T>(s: seq<T>): set<T>
  {
    set x | x in s
  }

  /** Dropping the head of a duplicate-free sequence. */
  lemma HeadSplit<T>(s: seq<T>)
    requires |s| > 0 && NoDuplicates(s)
    ensures NoDuplicates(s[1..]) && s[0] !in s[1..]
    ensures Seq2Set(s) == {s[0]} + Seq2Set(s[1..])
  {
    assert s == [s[0]] + s[1..];
  }

  /** A Go byte. */
  type Byte = b: int | 0 <= b < 0x100

  /** strings.HasPrefix. */
  predicate HasPrefix(s: string, prefix: string)
  {
    |prefix| <= |s| && s[..|prefix|] == prefix
  }
}
