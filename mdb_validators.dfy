/**
 * mdb/validator.go: the property validators.  Every validator answers a
 * verdict and an error, (true, nil) or (false, error).  Type conversion
 * (as.AsInt64), regular expressions and the `%v` rendering of a value are
 * parameters; floating point (DecimalValidator) is not part of this model.
 */
module Validators {
  import opened Common

  /** The (bool, error) pair a validator answers. */
  datatype Checked = Checked(ok: bool, err: Option<string>)

  /** (true, nil) or (false, non-nil). */
  predicate Consistent(c: Checked) { c.ok <==> c.err.None? }

  const Pass: Checked := Checked(true, None)

  function Reject(message: string): (r: Checked)
    ensures Consistent(r) && !r.ok
  {
    Checked(false, Some(message))
  }

  /** What the validators need from outside: as.AsInt64, regexp matching, and `%v`. */
  datatype Env = Env(
    asInt64: Value -> Option<int>,
    matches: (string, string) -> bool,
    show: Value -> string)

  /** PatternValidator: a string, matching the pattern when there is one. */
  function PatternCheck(pattern: Option<string>, obj: Value, env: Env): (r: Checked)
    ensures Consistent(r)
    ensures r.ok <==> obj.Str? && (pattern.None? || env.matches(pattern.value, obj.s))
  {
    if !obj.Str? then Reject("syntex error")
    else if pattern.Some? && !env.matches(pattern.value, obj.s) then
      Reject("'" + obj.s + "' is not match '" + pattern.value + "'")
    else Pass
  }

  /** StringLengthValidator: a negative bound is disabled; enabled bounds are inclusive. */
  function StringLengthCheck(minLength: int, maxLength: int, obj: Value): (r: Checked)
    ensures Consistent(r)
    ensures r.ok <==> obj.Str? && (minLength < 0 || minLength <= |obj.s|) && (maxLength < 0 || |obj.s| <= maxLength)
  {
    if !obj.Str? then Reject("syntex error")
    else if 0 <= minLength && minLength > |obj.s| then
      Reject("length of '" + obj.s + "' is less " + IntToString(minLength))
    else if 0 <= maxLength && maxLength < |obj.s| then
      Reject("length of '" + obj.s + "' is greate " + IntToString(maxLength))
    else Pass
  }

  /** IntegerValidator: inclusive bounds, each enabled by its flag. */
  function IntegerCheck(hasMin: bool, hasMax: bool, minValue: int, maxValue: int, obj: Value, env: Env): (r: Checked)
    ensures Consistent(r)
    ensures r.ok <==>
              env.asInt64(obj).Some? &&
              (!hasMin || minValue <= env.asInt64(obj).value) && (!hasMax || env.asInt64(obj).value <= maxValue)
  {
    var i := env.asInt64(obj);
    if i.None? then Reject("it is not a integer")
    else if hasMin && minValue > i.value then
      Reject("'" + IntToString(i.value) + "' is less minValue '" + IntToString(minValue) + "'")
    else if hasMax && maxValue < i.value then
      Reject("'" + IntToString(i.value) + "' is greate maxValue '" + IntToString(maxValue) + "'")
    else Pass
  }

  /** DateValidator: a time, within inclusive bounds each enabled by its flag. */
  function DateCheck(hasMin: bool, hasMax: bool, minValue: int, maxValue: int, obj: Value, env: Env): (r: Checked)
    ensures Consistent(r)
    ensures r.ok <==> obj.Time? && (!hasMin || minValue <= obj.t) && (!hasMax || obj.t <= maxValue)
  {
    if !obj.Time? then Reject("syntex error")
    else if hasMin && minValue > obj.t then
      Reject("'" + env.show(obj) + "' is less minValue '" + env.show(Time(minValue)) + "'")
    else if hasMax && maxValue < obj.t then
      Reject("'" + env.show(obj) + "' is greate maxValue '" + env.show(Time(maxValue)) + "'")
    else Pass
  }

  // ---------------------------------------------------------------------
  // Enumerations
  // ---------------------------------------------------------------------

  /**
   * EnumerationValidator as written: `for v := range self.Values` ranges
   * over the indices, so the value is compared with 0 .. len(Values)-1.
   */
  function IndexEnumerationCheck(values: seq<Value>, obj: Value, env: Env): (r: Checked)
    ensures Consistent(r)
    ensures r.ok <==> exists i | 0 <= i < |values| :: obj == Int(i)
  {
    if obj.Int? && 0 <= obj.i < |values| then Pass
    else Reject("enum is not contains " + env.show(obj))
  }

  /** The loop of EnumerationValidator as written. */
  method IndexEnumerationValidate(values: seq<Value>, obj: Value, env: Env) returns (r: Checked)
    ensures r == IndexEnumerationCheck(values, obj, env)
  {
    var found := false;
    var v := 0;
    while v < |values|
      invariant 0 <= v <= |values|
      invariant found <==> exists i | 0 <= i < v :: obj == Int(i)
    {
      if Int(v) == obj {
        found := true;
        break;
      }
      v := v + 1;
    }
    if !found {
      return Reject("enum is not contains " + env.show(obj));
    }
    return Pass;
  }

  /** The index comparison rejects every listed value that is not a small integer, and accepts indices. */
  lemma IndexEnumerationComparesIndices(env: Env)
    ensures !IndexEnumerationCheck([Str("up"), Str("down")], Str("up"), env).ok
    ensures IndexEnumerationCheck([Str("up"), Str("down")], Int(1), env).ok
  {
    assert Int(1) == Int(1);
  }

  /** The evidently intended EnumerationValidator: the value is one of Values. */
  function EnumerationCheck(values: seq<Value>, obj: Value, env: Env): (r: Checked)
    ensures Consistent(r)
    ensures r.ok <==> obj in values
  {
    if obj in values then Pass else Reject("enum is not contains " + env.show(obj))
  }

  /** The loop `for _, v := range self.Values`. */
  method EnumerationValidate(values: seq<Value>, obj: Value, env: Env) returns (r: Checked)
    ensures r == EnumerationCheck(values, obj, env)
  {
    var found := false;
    var i := 0;
    while i < |values|
      invariant 0 <= i <= |values|
      invariant found <==> obj in values[..i]
    {
      if values[i] == obj {
        found := true;
        break;
      }
      i := i + 1;
    }
    if found {
      assert obj in values[..i + 1];
      assert values[..i + 1] <= values;
    } else {
      assert values[..i] == values;
    }
    if !found {
      return Reject("enum is not contains " + env.show(obj));
    }
    return Pass;
  }

  /** The string a StringEnumerationValidator accepts from a value: a string or a non-nil *string. */
  function AsString(obj: Value): Option<string>
  {
    match obj
    case Str(s) => Some(s)
    case StrPtr(p) => Some(p)
    case _ => None
  }

  /** StringEnumerationValidator: a string or *string contained in Values; any other type fails. */
  function StringEnumerationCheck(values: seq<string>, obj: Value, env: Env): (r: Checked)
    ensures Consistent(r)
    ensures r.ok <==> AsString(obj).Some? && AsString(obj).value in values
    ensures AsString(obj).None? ==> r == Reject("syntex error, it is not a string")
  {
    var s := AsString(obj);
    if s.None? then Reject("syntex error, it is not a string")
    else if s.value in values then Pass
    else Reject("enum is not contains " + env.show(obj))
  }

  method StringEnumerationValidate(values: seq<string>, obj: Value, env: Env) returns (r: Checked)
    ensures r == StringEnumerationCheck(values, obj, env)
  {
    var s := AsString(obj);
    if s.None? {
      return Reject("syntex error, it is not a string");
    }
    var found := false;
    var i := 0;
    while i < |values|
      invariant 0 <= i <= |values|
      invariant found <==> s.value in values[..i]
    {
      if values[i] == s.value {
        found := true;
        break;
      }
      i := i + 1;
    }
    if found {
      assert s.value in values[..i + 1];
      assert values[..i + 1] <= values;
    } else {
      assert values[..i] == values;
    }
    if !found {
      return Reject("enum is not contains " + env.show(obj));
    }
    return Pass;
  }

  // ---------------------------------------------------------------------
  // Any validator
  // ---------------------------------------------------------------------

  datatype Validator =
    | PatternValidator(pattern: Option<string>)
    | StringLengthValidator(minLength: int, maxLength: int)
    | IntegerValidator(hasMin: bool, hasMax: bool, minValue: int, maxValue: int)
    | DateValidator(dHasMin: bool, dHasMax: bool, dMinValue: int, dMaxValue: int)
    | EnumerationValidator(values: seq<Value>)
    | StringEnumerationValidator(strings: seq<string>)

  /** Validator.Validate; EnumerationValidator as the evidently intended value search. */
  function Validate(v: Validator, obj: Value, env: Env): (r: Checked)
    ensures Consistent(r)
  {
    match v
    case PatternValidator(p) => PatternCheck(p, obj, env)
    case StringLengthValidator(lo, hi) => StringLengthCheck(lo, hi, obj)
    case IntegerValidator(hl, hh, lo, hi) => IntegerCheck(hl, hh, lo, hi, obj, env)
    case DateValidator(hl, hh, lo, hi) => DateCheck(hl, hh, lo, hi, obj, env)
    case EnumerationValidator(vs) => EnumerationCheck(vs, obj, env)
    case StringEnumerationValidator(vs) => StringEnumerationCheck(vs, obj, env)
  }
}
