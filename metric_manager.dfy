/**
 * metrics/metric_driver.go: the MetricManager driver, which loads metric
 * definitions from a JSON body into the metric dispatcher.  JSON decoding
 * and NewMetricSpec are inputs.  The dispatcher's own code is not part of
 * this model: it is a table of specs keyed by the spec's id.
 */
module MetricManagers {
  import opened Common

  /** A decoded MetricDefinition; its fields are not interpreted here. */
  datatype MetricDefinition = MetricDefinition(fields: map<string, Value>)

  /** A metric spec built from a definition, registered under its id. */
  datatype MetricSpec = MetricSpec(id: string, definition: MetricDefinition)

  datatype DecodedOne = OneDefinition(definition: MetricDefinition) | OneFailed(message: string)
  datatype DecodedMany = Definitions(definitions: seq<MetricDefinition>) | ManyFailed(message: string)
  datatype BuiltSpec = Spec(spec: MetricSpec) | SpecFailed(message: string)

  /** json.Unmarshal into one definition or into a list of them, and NewMetricSpec. */
  datatype MetricEnv = MetricEnv(
    decodeOne: string -> DecodedOne,
    decodeMany: string -> DecodedMany,
    newSpec: MetricDefinition -> BuiltSpec)

  /** The dispatcher's spec table. */
  class Dispatcher {
    var specs: map<string, MetricSpec>

    constructor ()
      ensures specs == map[]
    {
      specs := map[];
    }

    method RegisterSpec(rs: MetricSpec)
      modifies this
      ensures specs == old(specs)[rs.id := rs]
    {
      specs := specs[rs.id := rs];
    }

    method UnregisterSpec(id: string)
      modifies this
      ensures specs == old(specs) - {id}
    {
      specs := specs - {id};
    }

    method Clear()
      modifies this
      ensures specs == map[]
    {
      specs := map[];
    }
  }

  /** An answer: the value (false, nil, "ok" or true) and the error message. */
  datatype Answer = Answer(value: Value, err: Option<string>)

  const BodyRequired: string := "'body' is required."
  const BodyEmpty: string := "'body' is empty."

  function UnmarshalFailure(e: string, body: string): string
  {
    "Unmarshal body to route_definitions failed -- " + e + "\n" + body
  }

  /** The body check Put and Create share: a missing body, then an empty one. */
  function BodyCheck(params: map<string, string>): (r: Option<string>)
    ensures r.None? <==> "body" in params && params["body"] != ""
    ensures "body" !in params ==> r == Some(BodyRequired)
    ensures "body" in params && params["body"] == "" ==> r == Some(BodyEmpty)
  {
    if "body" !in params then Some(BodyRequired)
    else if params["body"] == "" then Some(BodyEmpty)
    else None
  }

  /** The messages of the definitions NewMetricSpec rejects, in order. */
  function SpecFailures(ds: seq<MetricDefinition>, env: MetricEnv): (r: seq<string>)
    ensures |r| <= |ds|
    ensures r == [] <==> forall k | 0 <= k < |ds| :: env.newSpec(ds[k]).Spec?
    decreases |ds|
  {
    if ds == [] then []
    else
      var front := SpecFailures(ds[..|ds| - 1], env);
      var b := env.newSpec(ds[|ds| - 1]);
      assert forall k | 0 <= k < |ds| - 1 :: ds[..|ds| - 1][k] == ds[k];
      if b.SpecFailed? then front + [b.message] else front
  }

  /** The spec table after registering the definitions that built, in order. */
  function RegisterEach(specs: map<string, MetricSpec>, ds: seq<MetricDefinition>, env: MetricEnv): (r: map<string, MetricSpec>)
    ensures specs.Keys <= r.Keys
    decreases |ds|
  {
    if ds == [] then specs
    else
      var before := RegisterEach(specs, ds[..|ds| - 1], env);
      var b := env.newSpec(ds[|ds| - 1]);
      if b.Spec? then before[b.spec.id := b.spec] else before
  }

  /** Every spec a definition built is in the table, under its id, unless a later one took the id. */
  lemma {:induction false} RegisterEachHolds(specs: map<string, MetricSpec>, ds: seq<MetricDefinition>, env: MetricEnv, k: int)
    requires 0 <= k < |ds| && env.newSpec(ds[k]).Spec?
    ensures env.newSpec(ds[k]).spec.id in RegisterEach(specs, ds, env)
    decreases |ds|
  {
    if k < |ds| - 1 {
      var front := ds[..|ds| - 1];
      assert front[k] == ds[k];
      RegisterEachHolds(specs, front, env, k);
    }
  }

  class MetricManager {
    var js: string
    const dispatcher: Dispatcher
    const env: MetricEnv

    constructor (dispatcher: Dispatcher, env: MetricEnv)
      ensures js == "" && this.dispatcher == dispatcher && this.env == env
    {
      js := "";
      this.dispatcher := dispatcher;
      this.env := env;
    }

    /** clear: no definitions text and an empty dispatcher. */
    method Clear()
      modifies this, dispatcher
      ensures js == "" && dispatcher.specs == map[]
    {
      js := "";
      dispatcher.Clear();
    }

    /** Get: the definitions text for no id or id "definitions"; any other id is not implemented. */
    function Get(params: map<string, string>): (r: Answer)
      reads this
      ensures r.err.None? <==> "id" !in params || params["id"] == "definitions"
      ensures r.err.None? ==> r.value == Str(js)
      ensures r.err.Some? ==> r == Answer(Nil, Some("not implemented"))
    {
      var t := if "id" in params then params["id"] else "definitions";
      if t == "definitions" then Answer(Str(js), None) else Answer(Nil, Some("not implemented"))
    }

    /** Put: one definition; its spec is registered when it decodes and builds. */
    method Put(params: map<string, string>) returns (r: Answer)
      modifies dispatcher
      ensures BodyCheck(params).Some? ==> r == Answer(Bool(false), BodyCheck(params)) && dispatcher.specs == old(dispatcher.specs)
      ensures BodyCheck(params).None? ==>
                var d := env.decodeOne(params["body"]);
                (d.OneFailed? ==> r == Answer(Bool(false), Some(UnmarshalFailure(d.message, params["body"]))) &&
                                  dispatcher.specs == old(dispatcher.specs)) &&
                (d.OneDefinition? && env.newSpec(d.definition).SpecFailed? ==>
                   r == Answer(Nil, Some("parse route definitions failed.\n" + env.newSpec(d.definition).message)) &&
                   dispatcher.specs == old(dispatcher.specs)) &&
                (d.OneDefinition? && env.newSpec(d.definition).Spec? ==>
                   var rs := env.newSpec(d.definition).spec;
                   r == Answer(Str("ok"), None) && dispatcher.specs == old(dispatcher.specs)[rs.id := rs])
    {
      var check := BodyCheck(params);
      if check.Some? {
        return Answer(Bool(false), check);
      }
      var j := params["body"];
      var d := env.decodeOne(j);
      if d.OneFailed? {
        return Answer(Bool(false), Some(UnmarshalFailure(d.message, j)));
      }
      var b := env.newSpec(d.definition);
      if b.SpecFailed? {
        return Answer(Nil, Some("parse route definitions failed.\n" + b.message));
      }
      dispatcher.RegisterSpec(b.spec);
      return Answer(Str("ok"), None);
    }

    /**
     * Create: a list of definitions.  Each one that builds is registered;
     * if any fails, everything is cleared and the failures are reported
     * together.  true only when every definition built.
     */
    method Create(params: map<string, string>) returns (ok: bool, err: Option<string>)
      modifies this, dispatcher
      ensures ok <==> err.None?
      ensures BodyCheck(params).Some? ==>
                !ok && err == BodyCheck(params) && js == old(js) && dispatcher.specs == old(dispatcher.specs)
      ensures BodyCheck(params).None? && env.decodeMany(params["body"]).ManyFailed? ==>
                !ok && err == Some(UnmarshalFailure(env.decodeMany(params["body"]).message, params["body"])) &&
                js == old(js) && dispatcher.specs == old(dispatcher.specs)
      ensures BodyCheck(params).None? && env.decodeMany(params["body"]).Definitions? ==>
                var ds := env.decodeMany(params["body"]).definitions;
                var failures := SpecFailures(ds, env);
                (failures == [] ==> ok && js == old(js) && dispatcher.specs == RegisterEach(old(dispatcher.specs), ds, env)) &&
                (failures != [] ==> !ok && err == Some("parse route definitions failed.\n" + Join(failures, "\n")) &&
                                    js == "" && dispatcher.specs == map[])
    {
      var check := BodyCheck(params);
      if check.Some? {
        return false, check;
      }
      var j := params["body"];
      var decoded := env.decodeMany(j);
      if decoded.ManyFailed? {
        return false, Some(UnmarshalFailure(decoded.message, j));
      }
      var ds := decoded.definitions;
      var ss: seq<string> := [];
      var i := 0;
      while i < |ds|
        invariant 0 <= i <= |ds|
        invariant ss == SpecFailures(ds[..i], env)
        invariant dispatcher.specs == RegisterEach(old(dispatcher.specs), ds[..i], env)
        invariant js == old(js)
      {
        assert ds[..i + 1][..i] == ds[..i];
        var b := env.newSpec(ds[i]);
        if b.SpecFailed? {
          ss := ss + [b.message];
        } else {
          dispatcher.RegisterSpec(b.spec);
        }
        i := i + 1;
      }
      assert ds[..i] == ds;
      if 0 != |ss| {
        Clear();
        return false, Some("parse route definitions failed.\n" + Join(ss, "\n"));
      }
      return true, None;
    }

    /** Delete: an id is required; its spec is unregistered. */
    method Delete(params: map<string, string>) returns (ok: bool, err: Option<string>)
      modifies dispatcher
      ensures "id" !in params ==> !ok && err == Some("id is required") && dispatcher.specs == old(dispatcher.specs)
      ensures "id" in params ==> ok && err.None? && dispatcher.specs == old(dispatcher.specs) - {params["id"]}
    {
      if "id" !in params {
        return false, Some("id is required");
      }
      dispatcher.UnregisterSpec(params["id"]);
      return true, None;
    }
  }
}
