/**
 * mdb/class_definitions.go: property definitions with their validators,
 * class definitions with a Super chain, and loading class definitions from
 * their XML form.  The XML declarations and the type definitions are not
 * part of this model: the XML records carry the fields the loader reads,
 * and a type definition is an oracle of conversions and validator builders.
 */
module Classes {
  import opened Common
  import opened Validators

  // ---------------------------------------------------------------------
  // Types and XML records
  // ---------------------------------------------------------------------

  /** A validator a type definition builds, or the error building it. */
  datatype Built = Built(validator: Validator) | BuildFailed(message: string)

  /** A value a type definition converts from text, or the error converting it. */
  datatype Parsed = Parsed(value: Value) | ParseFailed(message: string)

  /** TypeDefinition: ConvertFrom and the Create*Validator builders. */
  datatype TypeDefinition = TypeDefinition(
    convertFrom: string -> Parsed,
    createEnumeration: seq<string> -> Built,
    createPattern: string -> Built,
    createRange: (string, string) -> Built,
    createLength: (string, string) -> Built)

  /** The restrictions of an XML property; "" is an absent text element. */
  datatype XmlRestrictions = XmlRestrictions(
    typeName: string,
    defaultValue: string,
    enumerations: Option<seq<string>>,
    pattern: string,
    minValue: string,
    maxValue: string,
    length: string,
    minLength: string,
    maxLength: string)

  datatype XmlProperty = XmlProperty(name: string, restrictions: XmlRestrictions)

  datatype XmlClass = XmlClass(name: string, base: string, properties: seq<XmlProperty>)

  /** What reading and unmarshalling the XML file gives. */
  datatype XmlSource =
    | ReadFailed(readError: string)
    | UnmarshalFailed(unmarshalError: string)
    | Definitions(definitions: seq<XmlClass>)

  datatype PropertyDefinition = PropertyDefinition(
    name: string,
    typeName: string,
    restriction: seq<Validator>,
    defaultValue: Option<Value>)

  /** MutiErrorsError, or an error carrying only a message. */
  datatype LoadError = PlainError(message: string) | MultiErrors(msg: string, errs: seq<string>)

  // ---------------------------------------------------------------------
  // PropertyDefinition.Validate
  // ---------------------------------------------------------------------

  /** The errors of the validators that reject obj, in validator order. */
  function Failures(restriction: seq<Validator>, obj: Value, env: Env): seq<string>
  {
    if restriction == [] then []
    else
      var last := Validate(restriction[|restriction| - 1], obj, env);
      Failures(restriction[..|restriction| - 1], obj, env) + (if last.ok then [] else [last.err.value])
  }

  /** There is no failure exactly when every validator accepts obj. */
  lemma {:induction false} FailuresNoneIffAllPass(restriction: seq<Validator>, obj: Value, env: Env)
    ensures Failures(restriction, obj, env) == [] <==>
              forall i | 0 <= i < |restriction| :: Validate(restriction[i], obj, env).ok
  {
    if restriction != [] {
      var front := restriction[..|restriction| - 1];
      FailuresNoneIffAllPass(front, obj, env);
      assert forall i | 0 <= i < |front| :: front[i] == restriction[i];
    }
  }

  /** One error per rejecting validator: never more errors than validators. */
  lemma {:induction false} FailuresBounded(restriction: seq<Validator>, obj: Value, env: Env)
    ensures |Failures(restriction, obj, env)| <= |restriction|
  {
    if restriction != [] {
      FailuresBounded(restriction[..|restriction| - 1], obj, env);
    }
  }

  function PropertyErrorMessage(name: string): string
  {
    "property '" + name + "' is error"
  }

  /** PropertyDefinition.Validate: true and nil, or false and every failing validator's error. */
  method ValidateProperty(p: PropertyDefinition, obj: Value, env: Env) returns (ok: bool, err: Option<LoadError>)
    ensures ok <==> Failures(p.restriction, obj, env) == []
    ensures ok ==> err == None
    ensures !ok ==> err == Some(MultiErrors(PropertyErrorMessage(p.name), Failures(p.restriction, obj, env)))
  {
    var result := true;
    var errs: seq<string> := [];
    var i := 0;
    while i < |p.restriction|
      invariant 0 <= i <= |p.restriction|
      invariant errs == Failures(p.restriction[..i], obj, env)
      invariant result <==> errs == []
    {
      assert p.restriction[..i + 1][..i] == p.restriction[..i];
      var c := Validate(p.restriction[i], obj, env);
      if !c.ok {
        result := false;
        errs := errs + [c.err.value];
      }
      i := i + 1;
    }
    assert p.restriction[..i] == p.restriction;
    if result {
      return true, None;
    }
    return false, Some(MultiErrors(PropertyErrorMessage(p.name), errs));
  }

  // ---------------------------------------------------------------------
  // ClassDefinition and CollectionName
  // ---------------------------------------------------------------------

  datatype ClassDef = ClassDef(name: string, super: Option<ClassDef>, properties: map<string, PropertyDefinition>)

  /** The Super chain from a class up to its root. */
  function Ancestors(c: ClassDef): (r: seq<ClassDef>)
    ensures |r| > 0 && r[0] == c && r[|r| - 1].super.None?
    ensures forall i | 0 <= i < |r| - 1 :: r[i].super == Some(r[i + 1])
    decreases c
  {
    if c.super.None? then [c] else [c] + Ancestors(c.super.value)
  }

  /** CollectionName: the name of the root of the Super chain. */
  function CollectionName(c: ClassDef): (r: string)
    ensures r == Ancestors(c)[|Ancestors(c)| - 1].name
    decreases c
  {
    if c.super.None? then c.name else CollectionName(c.super.value)
  }

  // ---------------------------------------------------------------------
  // LoadProperty
  // ---------------------------------------------------------------------

  /** One restriction of a property: whether it is present, and what its builder gives. */
  datatype Attempt = Attempt(present: bool, built: Built)

  /**
   * The validator builders a property's restrictions call, in order:
   * enumeration (a non-empty list), pattern, range (either bound), length
   * (both bounds Length), then min/max length (either bound).
   */
  function Attempts(r: XmlRestrictions, t: TypeDefinition): (a: seq<Attempt>)
    ensures |a| == 5
  {
    [Attempt(r.enumerations.Some? && |r.enumerations.value| != 0,
             t.createEnumeration(if r.enumerations.Some? then r.enumerations.value else [])),
     Attempt(r.pattern != "", t.createPattern(r.pattern)),
     Attempt(r.minValue != "" || r.maxValue != "", t.createRange(r.minValue, r.maxValue)),
     Attempt(r.length != "", t.createLength(r.length, r.length)),
     Attempt(r.minLength != "" || r.maxLength != "", t.createLength(r.minLength, r.maxLength))]
  }

  /** The validator a present restriction's builder gives. */
  function Kept(a: Attempt): seq<Validator>
  {
    if a.present && a.built.Built? then [a.built.validator] else []
  }

  /** The error a present restriction's builder gives. */
  function Rejected(a: Attempt): seq<string>
  {
    if a.present && a.built.BuildFailed? then [a.built.message] else []
  }

  /** Reference: the validators of the present restrictions whose builders succeed, in order. */
  function Successes(attempts: seq<Attempt>): seq<Validator>
  {
    if attempts == [] then [] else Kept(attempts[0]) + Successes(attempts[1..])
  }

  /** Reference: the errors of the present restrictions whose builders fail, in order. */
  function BuildErrors(attempts: seq<Attempt>): seq<string>
  {
    if attempts == [] then [] else Rejected(attempts[0]) + BuildErrors(attempts[1..])
  }

  /** How many restrictions are present. */
  function PresentCount(attempts: seq<Attempt>): nat
  {
    if attempts == [] then 0 else (if attempts[0].present then 1 else 0) + PresentCount(attempts[1..])
  }

  /** Every present restriction gives either a validator or an error; an absent one gives neither. */
  lemma {:induction false} AttemptsAccounted(attempts: seq<Attempt>)
    ensures |Successes(attempts)| + |BuildErrors(attempts)| == PresentCount(attempts)
  {
    if attempts != [] {
      AttemptsAccounted(attempts[1..]);
    }
  }

  /** When no present builder fails, no error is recorded and every present restriction has its validator. */
  lemma {:induction false} AllBuiltNoErrors(attempts: seq<Attempt>)
    requires forall i | 0 <= i < |attempts| :: attempts[i].present ==> attempts[i].built.Built?
    ensures BuildErrors(attempts) == []
    ensures |Successes(attempts)| == PresentCount(attempts)
  {
    if attempts != [] {
      assert forall i | 0 <= i < |attempts[1..]| :: attempts[1..][i] == attempts[i + 1];
      AllBuiltNoErrors(attempts[1..]);
    }
  }

  /** The validators and errors gathered so far. */
  datatype Restricted = Restricted(restriction: seq<Validator>, errs: seq<string>)

  /** One restriction: when present, its validator is appended or its builder's error recorded. */
  function AddAttempt(acc: Restricted, a: Attempt): Restricted
  {
    if !a.present then acc
    else if a.built.BuildFailed? then Restricted(acc.restriction, acc.errs + [a.built.message])
    else Restricted(acc.restriction + [a.built.validator], acc.errs)
  }

  /** The restrictions tried one after the other. */
  function Tried(attempts: seq<Attempt>, acc: Restricted): Restricted
  {
    if attempts == [] then acc else Tried(attempts[1..], AddAttempt(acc, attempts[0]))
  }

  /** Trying the restrictions one by one appends exactly the reference validators and errors. */
  lemma {:induction false} TriedIsReference(attempts: seq<Attempt>, acc: Restricted)
    ensures Tried(attempts, acc) ==
              Restricted(acc.restriction + Successes(attempts), acc.errs + BuildErrors(attempts))
  {
    if attempts == [] {
      assert acc.restriction + [] == acc.restriction;
      assert acc.errs + [] == acc.errs;
    } else {
      var a := attempts[0];
      var acc' := AddAttempt(acc, a);
      assert acc' == Restricted(acc.restriction + Kept(a), acc.errs + Rejected(a)) by {
        if !a.present || a.built.BuildFailed? {
          assert acc.restriction + [] == acc.restriction;
        }
        if !a.present || a.built.Built? {
          assert acc.errs + [] == acc.errs;
        }
      }
      TriedIsReference(attempts[1..], acc');
      SeqAssoc(acc.restriction, Kept(a), Successes(attempts[1..]));
      SeqAssoc(acc.errs, Rejected(a), BuildErrors(attempts[1..]));
    }
  }

  lemma SeqAssoc<T>(xs: seq<T>, ys: seq<T>, zs: seq<T>)
    ensures xs + ys + zs == xs + (ys + zs)
  {
  }

  lemma TriedStep(attempts: seq<Attempt>, k: nat, acc: Restricted)
    requires k < |attempts|
    ensures Tried(attempts[k..], acc) == Tried(attempts[k + 1..], AddAttempt(acc, attempts[k]))
  {
    assert attempts[k..][1..] == attempts[k + 1..];
  }

  /** The default value and its conversion error, if any. */
  function DefaultOf(r: XmlRestrictions, t: TypeDefinition): (Option<Value>, seq<string>)
  {
    if r.defaultValue == "" then (None, [])
    else
      match t.convertFrom(r.defaultValue)
      case Parsed(v) => (Some(v), [])
      case ParseFailed(e) => (None, [e])
  }

  datatype LoadedProperty = LoadedProperty(property: PropertyDefinition, errs: seq<string>)

  /** LoadProperty's outcome: the built validators, after errs the default's error and then the builders'. */
  function PropertyOf(pr: XmlProperty, typeOf: string -> TypeDefinition, errs: seq<string>): LoadedProperty
  {
    var t := typeOf(pr.restrictions.typeName);
    var d := DefaultOf(pr.restrictions, t);
    var built := Tried(Attempts(pr.restrictions, t), Restricted([], errs + d.1));
    LoadedProperty(PropertyDefinition(pr.name, pr.restrictions.typeName, built.restriction, d.0), built.errs)
  }

  /** LoadProperty only appends to the errors it is given. */
  lemma PropertyOfErrs(pr: XmlProperty, typeOf: string -> TypeDefinition, errs: seq<string>)
    ensures var p := PropertyOf(pr, typeOf, errs); |errs| <= |p.errs| && p.errs[..|errs|] == errs
  {
    var t := typeOf(pr.restrictions.typeName);
    var d := DefaultOf(pr.restrictions, t);
    TriedIsReference(Attempts(pr.restrictions, t), Restricted([], errs + d.1));
    var p := PropertyOf(pr, typeOf, errs);
    assert p.errs == errs + (d.1 + BuildErrors(Attempts(pr.restrictions, t)));
  }

  /** One restriction of LoadProperty. */
  method AddBuilt(a: Attempt, restriction: seq<Validator>, errs: seq<string>)
    returns (restriction': seq<Validator>, errs': seq<string>)
    ensures Restricted(restriction', errs') == AddAttempt(Restricted(restriction, errs), a)
  {
    if !a.present {
      return restriction, errs;
    }
    if a.built.BuildFailed? {
      return restriction, errs + [a.built.message];
    }
    return restriction + [a.built.validator], errs;
  }

  /** The builders of LoadProperty, tried one by one after the default. */
  method BuildRestriction(r: XmlRestrictions, t: TypeDefinition, errs: seq<string>)
    returns (restriction: seq<Validator>, errs': seq<string>)
    ensures Restricted(restriction, errs') == Tried(Attempts(r, t), Restricted([], errs))
  {
    ghost var attempts := Attempts(r, t);
    assert attempts[0..] == attempts;
    var a0 := Attempt(r.enumerations.Some? && |r.enumerations.value| != 0,
                      t.createEnumeration(if r.enumerations.Some? then r.enumerations.value else []));
    TriedStep(attempts, 0, Restricted([], errs));
    restriction, errs' := AddBuilt(a0, [], errs);
    var a1 := Attempt(r.pattern != "", t.createPattern(r.pattern));
    TriedStep(attempts, 1, Restricted(restriction, errs'));
    restriction, errs' := AddBuilt(a1, restriction, errs');
    var a2 := Attempt(r.minValue != "" || r.maxValue != "", t.createRange(r.minValue, r.maxValue));
    TriedStep(attempts, 2, Restricted(restriction, errs'));
    restriction, errs' := AddBuilt(a2, restriction, errs');
    var a3 := Attempt(r.length != "", t.createLength(r.length, r.length));
    TriedStep(attempts, 3, Restricted(restriction, errs'));
    restriction, errs' := AddBuilt(a3, restriction, errs');
    var a4 := Attempt(r.minLength != "" || r.maxLength != "", t.createLength(r.minLength, r.maxLength));
    TriedStep(attempts, 4, Restricted(restriction, errs'));
    restriction, errs' := AddBuilt(a4, restriction, errs');
    assert attempts[5..] == [];
  }

  /** LoadProperty: converts the default, then tries the builders one by one. */
  method LoadProperty(pr: XmlProperty, typeOf: string -> TypeDefinition, errs: seq<string>)
    returns (cpr: PropertyDefinition, errs': seq<string>)
    ensures LoadedProperty(cpr, errs') == PropertyOf(pr, typeOf, errs)
  {
    var r := pr.restrictions;
    var t := typeOf(r.typeName);
    var defaultValue: Option<Value> := None;
    errs' := errs;
    if r.defaultValue != "" {
      var c := t.convertFrom(r.defaultValue);
      if c.ParseFailed? {
        errs' := errs' + [c.message];
      } else {
        defaultValue := Some(c.value);
      }
    }
    assert defaultValue == DefaultOf(r, t).0 && errs' == errs + DefaultOf(r, t).1;
    var restriction;
    restriction, errs' := BuildRestriction(r, t, errs');
    cpr := PropertyDefinition(pr.name, r.typeName, restriction, defaultValue);
  }

  // ---------------------------------------------------------------------
  // LoadFromXml
  // ---------------------------------------------------------------------

  datatype LoadedProperties = LoadedProperties(properties: map<string, PropertyDefinition>, errs: seq<string>)

  /** The property loop from index i on: each property stored under its name, a later one replacing an earlier. */
  function PropertiesFrom(prs: seq<XmlProperty>, i: nat, typeOf: string -> TypeDefinition,
                          acc: map<string, PropertyDefinition>, errs: seq<string>): (r: LoadedProperties)
    requires i <= |prs|
    ensures r.properties.Keys == acc.Keys + (set j | i <= j < |prs| :: prs[j].name)
    decreases |prs| - i
  {
    if i == |prs| then LoadedProperties(acc, errs)
    else
      var p := PropertyOf(prs[i], typeOf, errs);
      PropertiesFrom(prs, i + 1, typeOf, acc[p.property.name := p.property], p.errs)
  }

  function DuplicateMessage(name: string): string
  {
    "class '" + name + "' is aleady exists."
  }

  function MissingBaseMessage(base: string, name: string): string
  {
    "Base '" + base + "' of class '" + name + "' is not found."
  }

  datatype Loaded = Loaded(classes: map<string, ClassDef>, errs: seq<string>)

  /** The evidently intended Super of a new class: the loaded base class, if it names one. */
  function SuperOf(classes: map<string, ClassDef>, d: XmlClass): Option<ClassDef>
  {
    if d.base != "" && d.base in classes then Some(classes[d.base]) else None
  }

  /** One definition: a repeated name or an unknown base is reported and skipped. */
  function DefineClass(classes: map<string, ClassDef>, errs: seq<string>, d: XmlClass,
                       typeOf: string -> TypeDefinition): Loaded
  {
    if d.name in classes then Loaded(classes, errs + [DuplicateMessage(d.name)])
    else if d.base != "" && d.base !in classes then Loaded(classes, errs + [MissingBaseMessage(d.base, d.name)])
    else
      var ps := PropertiesFrom(d.properties, 0, typeOf, map[], errs);
      Loaded(classes[d.name := ClassDef(d.name, SuperOf(classes, d), ps.properties)], ps.errs)
  }

  /**
   * The same step as written: the `super` found for the base is a new
   * variable of the inner block, so the class is stored with a nil Super.
   */
  function DefineClassAsWritten(classes: map<string, ClassDef>, errs: seq<string>, d: XmlClass,
                                typeOf: string -> TypeDefinition): Loaded
  {
    if d.name in classes then Loaded(classes, errs + [DuplicateMessage(d.name)])
    else if d.base != "" && d.base !in classes then Loaded(classes, errs + [MissingBaseMessage(d.base, d.name)])
    else
      var ps := PropertiesFrom(d.properties, 0, typeOf, map[], errs);
      Loaded(classes[d.name := ClassDef(d.name, None, ps.properties)], ps.errs)
  }

  /** As written, a class loaded with a known base is its own collection, not its base's. */
  lemma DefineClassAsWrittenLosesBase(typeOf: string -> TypeDefinition)
    ensures var device := ClassDef("device", None, map[]);
            var loaded := DefineClassAsWritten(map["device" := device], [], XmlClass("router", "device", []), typeOf);
            "router" in loaded.classes && loaded.errs == [] &&
            CollectionName(loaded.classes["router"]) == "router" != CollectionName(device)
  {
    var device := ClassDef("device", None, map[]);
    var d := XmlClass("router", "device", []);
    assert "router" !in map["device" := device];
    var ps := PropertiesFrom(d.properties, 0, typeOf, map[], []);
    assert ps == LoadedProperties(map[], []);
  }

  /** Corrected, a class loaded with a known base shares its base's collection. */
  lemma DefineClassSharesBaseCollection(classes: map<string, ClassDef>, errs: seq<string>, d: XmlClass,
                                        typeOf: string -> TypeDefinition)
    requires d.name !in classes && d.base != "" && d.base in classes
    ensures d.name in DefineClass(classes, errs, d, typeOf).classes
    ensures CollectionName(DefineClass(classes, errs, d, typeOf).classes[d.name]) == CollectionName(classes[d.base])
  {
  }

  /** The definitions loop from index i on. */
  function LoadFrom(classes: map<string, ClassDef>, errs: seq<string>, defs: seq<XmlClass>, i: nat,
                    typeOf: string -> TypeDefinition): Loaded
    requires i <= |defs|
    decreases |defs| - i
  {
    if i == |defs| then Loaded(classes, errs)
    else
      var l := DefineClass(classes, errs, defs[i], typeOf);
      LoadFrom(l.classes, l.errs, defs, i + 1, typeOf)
  }

  /** Every class is stored under its own name, and its Super is the class stored under the Super's name. */
  ghost predicate Linked(classes: map<string, ClassDef>)
  {
    forall n | n in classes ::
      classes[n].name == n &&
      (classes[n].super.Some? ==>
         classes[n].super.value.name in classes && classes[classes[n].super.value.name] == classes[n].super.value)
  }

  /** A loaded class is never replaced: the first definition of a name is kept. */
  lemma {:induction false} LoadFromKeepsFirst(classes: map<string, ClassDef>, errs: seq<string>, defs: seq<XmlClass>,
                                              i: nat, typeOf: string -> TypeDefinition)
    requires i <= |defs|
    ensures var r := LoadFrom(classes, errs, defs, i, typeOf);
            classes.Keys <= r.classes.Keys && forall n | n in classes :: r.classes[n] == classes[n]
    ensures LoadFrom(classes, errs, defs, i, typeOf).classes.Keys <= classes.Keys + (set j | i <= j < |defs| :: defs[j].name)
    decreases |defs| - i
  {
    if i < |defs| {
      var l := DefineClass(classes, errs, defs[i], typeOf);
      LoadFromKeepsFirst(l.classes, l.errs, defs, i + 1, typeOf);
    }
  }

  /** Errors only accumulate, and a definition whose name is already loaded is reported. */
  lemma {:induction false} LoadFromReportsDuplicates(classes: map<string, ClassDef>, errs: seq<string>,
                                                     defs: seq<XmlClass>, i: nat, typeOf: string -> TypeDefinition)
    requires i <= |defs|
    ensures var r := LoadFrom(classes, errs, defs, i, typeOf);
            |errs| <= |r.errs| && r.errs[..|errs|] == errs &&
            forall j | i <= j < |defs| && defs[j].name in classes :: DuplicateMessage(defs[j].name) in r.errs
    decreases |defs| - i
  {
    if i < |defs| {
      var l := DefineClass(classes, errs, defs[i], typeOf);
      DefineClassGrows(classes, errs, defs[i], typeOf);
      LoadFromReportsDuplicates(l.classes, l.errs, defs, i + 1, typeOf);
      var r := LoadFrom(l.classes, l.errs, defs, i + 1, typeOf);
      assert r.errs[..|errs|] == r.errs[..|l.errs|][..|errs|];
      if defs[i].name in classes {
        assert r.errs[|errs|] == l.errs[|errs|];
      }
    }
  }

  /** One definition keeps the loaded names and only appends to the errors; a repeated name appends its report. */
  lemma DefineClassGrows(classes: map<string, ClassDef>, errs: seq<string>, d: XmlClass,
                         typeOf: string -> TypeDefinition)
    ensures var l := DefineClass(classes, errs, d, typeOf);
            classes.Keys <= l.classes.Keys && |errs| <= |l.errs| && l.errs[..|errs|] == errs &&
            (d.name in classes ==> |errs| < |l.errs| && l.errs[|errs|] == DuplicateMessage(d.name))
  {
    if d.name !in classes && !(d.base != "" && d.base !in classes) {
      PropertiesFromErrs(d.properties, 0, typeOf, map[], errs);
    }
  }

  /** The property loop only appends to the errors. */
  lemma {:induction false} PropertiesFromErrs(prs: seq<XmlProperty>, i: nat, typeOf: string -> TypeDefinition,
                                              acc: map<string, PropertyDefinition>, errs: seq<string>)
    requires i <= |prs|
    ensures var r := PropertiesFrom(prs, i, typeOf, acc, errs);
            |errs| <= |r.errs| && r.errs[..|errs|] == errs
    decreases |prs| - i
  {
    if i < |prs| {
      var p := PropertyOf(prs[i], typeOf, errs);
      PropertyOfErrs(prs[i], typeOf, errs);
      PropertiesFromErrs(prs, i + 1, typeOf, acc[p.property.name := p.property], p.errs);
      var r := PropertiesFrom(prs, i, typeOf, acc, errs);
      assert r.errs[..|errs|] == r.errs[..|p.errs|][..|errs|];
    }
  }

  /** Loading keeps every Super chain inside the loaded classes. */
  lemma {:induction false} LoadFromLinked(classes: map<string, ClassDef>, errs: seq<string>, defs: seq<XmlClass>,
                                          i: nat, typeOf: string -> TypeDefinition)
    requires i <= |defs|
    requires Linked(classes)
    ensures Linked(LoadFrom(classes, errs, defs, i, typeOf).classes)
    decreases |defs| - i
  {
    if i < |defs| {
      var d := defs[i];
      var l := DefineClass(classes, errs, d, typeOf);
      if d.name !in classes && !(d.base != "" && d.base !in classes) {
        var c := l.classes[d.name];
        forall n | n in l.classes
          ensures l.classes[n].name == n
          ensures l.classes[n].super.Some? ==>
                    l.classes[n].super.value.name in l.classes &&
                    l.classes[l.classes[n].super.value.name] == l.classes[n].super.value
        {
          if n != d.name {
            assert l.classes[n] == classes[n];
          }
        }
      }
      LoadFromLinked(l.classes, l.errs, defs, i + 1, typeOf);
    }
  }

  /** In linked classes, a derived class shares its Super's collection. */
  lemma LinkedCollectionName(classes: map<string, ClassDef>, n: string)
    requires Linked(classes) && n in classes && classes[n].super.Some?
    ensures CollectionName(classes[n]) == CollectionName(classes[classes[n].super.value.name])
  {
  }

  function LoadFailedMessage(nm: string): string
  {
    "load file '" + nm + "' failed."
  }

  /** What LoadFromXml answers and the classes it leaves. */
  function LoadResult(classes: map<string, ClassDef>, nm: string, source: XmlSource,
                      typeOf: string -> TypeDefinition): (Option<LoadError>, map<string, ClassDef>)
  {
    match source
    case ReadFailed(e) => (Some(PlainError("read file '" + nm + "' failed, " + e)), classes)
    case UnmarshalFailed(e) => (Some(PlainError("unmarshal xml '" + nm + "' failed, " + e)), classes)
    case Definitions(defs) =>
      if |defs| == 0 then
        (Some(PlainError("unmarshal xml '" + nm + "' error, class definition is empty")), classes)
      else
        var l := LoadFrom(classes, [], defs, 0, typeOf);
        (if l.errs == [] then None else Some(MultiErrors(LoadFailedMessage(nm), l.errs)), l.classes)
  }

  /** A load that fails before the definitions changes nothing; otherwise nil exactly when no error accumulated. */
  lemma LoadResultOutcome(classes: map<string, ClassDef>, nm: string, source: XmlSource,
                          typeOf: string -> TypeDefinition)
    ensures !source.Definitions? || |source.definitions| == 0 ==>
              LoadResult(classes, nm, source, typeOf).0.Some? && LoadResult(classes, nm, source, typeOf).1 == classes
    ensures source.Definitions? && |source.definitions| > 0 ==>
              (LoadResult(classes, nm, source, typeOf).0.None? <==>
               LoadFrom(classes, [], source.definitions, 0, typeOf).errs == [])
  {
  }

  /** The loader: a map of class definitions by name. */
  class ClassDefinitions {
    var clsDefinitions: map<string, ClassDef>

    constructor ()
      ensures clsDefinitions == map[]
    {
      clsDefinitions := map[];
    }

    /** Find: the class loaded under nm, or nil. */
    function Find(nm: string): (r: Option<ClassDef>)
      reads this
      ensures r.Some? <==> nm in clsDefinitions
      ensures r.Some? ==> r.value == clsDefinitions[nm]
    {
      if nm in clsDefinitions then Some(clsDefinitions[nm]) else None
    }

    /** LoadFromXml: the file's outcome is a parameter. */
    method LoadFromXml(nm: string, source: XmlSource, typeOf: string -> TypeDefinition) returns (err: Option<LoadError>)
      modifies this
      ensures (err, clsDefinitions) == LoadResult(old(clsDefinitions), nm, source, typeOf)
    {
      if source.ReadFailed? {
        return Some(PlainError("read file '" + nm + "' failed, " + source.readError));
      }
      if source.UnmarshalFailed? {
        return Some(PlainError("unmarshal xml '" + nm + "' failed, " + source.unmarshalError));
      }
      var defs := source.definitions;
      if |defs| == 0 {
        return Some(PlainError("unmarshal xml '" + nm + "' error, class definition is empty"));
      }
      var errs: seq<string> := [];
      var i := 0;
      while i < |defs|
        invariant 0 <= i <= |defs|
        invariant LoadFrom(clsDefinitions, errs, defs, i, typeOf) == LoadFrom(old(clsDefinitions), [], defs, 0, typeOf)
      {
        var d := defs[i];
        if d.name in clsDefinitions {
          errs := errs + [DuplicateMessage(d.name)];
        } else if d.base != "" && d.base !in clsDefinitions {
          errs := errs + [MissingBaseMessage(d.base, d.name)];
        } else {
          var super := SuperOf(clsDefinitions, d);
          var properties;
          properties, errs := LoadProperties(d.properties, typeOf, errs);
          clsDefinitions := clsDefinitions[d.name := ClassDef(d.name, super, properties)];
        }
        i := i + 1;
      }
      if |errs| == 0 {
        return None;
      }
      return Some(MultiErrors(LoadFailedMessage(nm), errs));
    }
  }

  /** The property loop of LoadFromXml. */
  method LoadProperties(prs: seq<XmlProperty>, typeOf: string -> TypeDefinition, errs: seq<string>)
    returns (properties: map<string, PropertyDefinition>, errs': seq<string>)
    ensures LoadedProperties(properties, errs') == PropertiesFrom(prs, 0, typeOf, map[], errs)
  {
    properties := map[];
    errs' := errs;
    var i := 0;
    while i < |prs|
      invariant 0 <= i <= |prs|
      invariant PropertiesFrom(prs, i, typeOf, properties, errs') == PropertiesFrom(prs, 0, typeOf, map[], errs)
    {
      var cpr;
      cpr, errs' := LoadProperty(prs[i], typeOf, errs');
      properties := properties[cpr.name := cpr];
      i := i + 1;
    }
  }
}
