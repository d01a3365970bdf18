/**
 * poller/alert_action.go: an alert action counts how many consecutive check
 * results had the same status and sends one event once that count reaches
 * max_repeated.  The checker is an oracle from the value and the action's
 * result map to a status; the notification channel's reply to a send is a
 * parameter of each run.
 */
module AlertAction {
  import opened Common

  const MAX_REPEATED: int := 9999990
  /** The count at which Run resets `repeated` to keep it from overflowing. */
  const REPEATED_GUARD: int := 9999996
  const RESET_ERROR: string := "please reset channel."

  /** A checker's answer: a status, or an error. */
  datatype CheckOutcome = Status(current: int) | CheckFailed(message: string)

  type Checker = (Value, map<string, Value>) -> CheckOutcome

  /** What the channel answers a sent event: nil, reset_error, or another error. */
  datatype SendAnswer = Delivered | ResetChannel | SendFailed(message: string)

  function SendErrorText(a: SendAnswer): string
    requires !a.Delivered?
  {
    if a.ResetChannel? then RESET_ERROR else a.message
  }

  // ---------------------------------------------------------------------
  // The counters and one run of them
  // ---------------------------------------------------------------------

  datatype Counters = Counters(lastStatus: int, repeated: int, alreadySend: bool)

  /** The counters after a check result: one more of the same status, or a new status seen once. */
  function Advance(c: Counters, current: int, maxRepeated: int): (r: Counters)
    ensures current != c.lastStatus ==> r == Counters(current, 1, false)
    ensures current == c.lastStatus ==> r.lastStatus == c.lastStatus && r.alreadySend == c.alreadySend
    ensures current == c.lastStatus && 0 <= c.repeated && c.repeated + 1 < REPEATED_GUARD ==>
              r.repeated == c.repeated + 1
    ensures current == c.lastStatus && c.repeated + 1 >= REPEATED_GUARD ==> r.repeated == maxRepeated + 10
  {
    if current == c.lastStatus then
      var repeated := c.repeated + 1;
      Counters(c.lastStatus, if repeated >= REPEATED_GUARD || repeated < 0 then maxRepeated + 10 else repeated,
               c.alreadySend)
    else Counters(current, 1, false)
  }

  /** Whether a run with these counters sends an event. */
  predicate Fires(c: Counters, maxRepeated: int)
  {
    c.repeated >= maxRepeated && !c.alreadySend
  }

  /** The counters stay in range: never negative, below the guard except right after a reset. */
  predicate InRange(c: Counters, maxRepeated: int)
  {
    0 <= c.repeated && (c.repeated < REPEATED_GUARD || c.repeated == maxRepeated + 10)
  }

  lemma AdvanceInRange(c: Counters, current: int, maxRepeated: int)
    requires 1 <= maxRepeated && InRange(c, maxRepeated)
    ensures InRange(Advance(c, current, maxRepeated), maxRepeated)
  {
  }

  /** Once the count reached max_repeated, further equal statuses keep it there, even across the overflow reset. */
  lemma AdvanceKeepsThreshold(c: Counters, maxRepeated: int)
    requires 0 <= maxRepeated <= c.repeated
    ensures Advance(c, c.lastStatus, maxRepeated).repeated >= maxRepeated
  {
  }

  /** k runs in a row of one status, no event sent. */
  function Repeat(c: Counters, status: int, k: nat, maxRepeated: int): Counters
  {
    if k == 0 then c else Advance(Repeat(c, status, k - 1, maxRepeated), status, maxRepeated)
  }

  /** After a change to a new status, the k-th run in a row of it sees repeated == k (below the guard). */
  lemma {:induction false} RepeatCounts(c: Counters, status: int, k: nat, maxRepeated: int)
    requires c.lastStatus != status && 1 <= k < REPEATED_GUARD
    ensures Repeat(c, status, k, maxRepeated) == Counters(status, k, false)
  {
    if k > 1 {
      RepeatCounts(c, status, k - 1, maxRepeated);
    }
  }

  /** So, with no send before, the first event of a new status is sent on exactly its max_repeated-th run. */
  lemma FirstFireAtThreshold(c: Counters, status: int, k: nat, maxRepeated: int)
    requires c.lastStatus != status && 1 <= k < REPEATED_GUARD && 1 <= maxRepeated
    ensures Fires(Repeat(c, status, k, maxRepeated), maxRepeated) <==> k >= maxRepeated
  {
    RepeatCounts(c, status, k, maxRepeated);
  }

  /**
   * How many events a sequence of check results sends when every send is
   * delivered: a delivered event sets already_send.
   */
  function Sends(c: Counters, statuses: seq<int>, maxRepeated: int): nat
    decreases |statuses|
  {
    if statuses == [] then 0
    else
      var c' := Advance(c, statuses[0], maxRepeated);
      if Fires(c', maxRepeated) then 1 + Sends(c'.(alreadySend := true), statuses[1..], maxRepeated)
      else Sends(c', statuses[1..], maxRepeated)
  }

  /** After a delivered event, further results of the same status send nothing. */
  lemma {:induction false} NoResendAfterDelivery(c: Counters, statuses: seq<int>, maxRepeated: int)
    requires c.alreadySend
    requires forall i | 0 <= i < |statuses| :: statuses[i] == c.lastStatus
    ensures Sends(c, statuses, maxRepeated) == 0
    decreases |statuses|
  {
    if statuses != [] {
      NoResendAfterDelivery(Advance(c, statuses[0], maxRepeated), statuses[1..], maxRepeated);
    }
  }

  /** A run of results of one status sends at most one event. */
  lemma {:induction false} AtMostOneSendPerStatus(c: Counters, status: int, statuses: seq<int>, maxRepeated: int)
    requires forall i | 0 <= i < |statuses| :: statuses[i] == status
    ensures Sends(c, statuses, maxRepeated) <= 1
    decreases |statuses|
  {
    if statuses != [] {
      var c' := Advance(c, statuses[0], maxRepeated);
      if Fires(c', maxRepeated) {
        NoResendAfterDelivery(c'.(alreadySend := true), statuses[1..], maxRepeated);
      } else {
        AtMostOneSendPerStatus(c', status, statuses[1..], maxRepeated);
      }
    }
  }

  /** A send that is not delivered leaves already_send false, so the next result of that status sends again. */
  lemma RetryAfterFailedSend(c: Counters, maxRepeated: int)
    requires 0 <= maxRepeated && Fires(c, maxRepeated)
    ensures Fires(Advance(c, c.lastStatus, maxRepeated), maxRepeated)
  {
  }

  // ---------------------------------------------------------------------
  // The event
  // ---------------------------------------------------------------------

  /** The event: result overlaid by options, triggered_at and current_value when absent, and the status. */
  function Event(result: map<string, Value>, options: Option<map<string, Value>>, t: int, value: Value,
                 current: int): (r: map<string, Value>)
    ensures r.Keys == result.Keys + (if options.Some? then options.value.Keys else {}) +
                      {"triggered_at", "current_value", "status"}
    ensures r["status"] == Int(current)
    ensures forall k | k in result && k !in {"triggered_at", "current_value", "status"} &&
                       (options.None? || k !in options.value) :: r[k] == result[k]
    ensures options.Some? ==>
              forall k | k in options.value && k !in {"triggered_at", "current_value", "status"} ::
                r[k] == options.value[k]
    ensures "triggered_at" !in result && (options.None? || "triggered_at" !in options.value) ==>
              r["triggered_at"] == Time(t)
    ensures "current_value" !in result && (options.None? || "current_value" !in options.value) ==>
              r["current_value"] == value
    ensures options.Some? && "triggered_at" in options.value ==> r["triggered_at"] == options.value["triggered_at"]
    ensures (options.None? || "triggered_at" !in options.value) && "triggered_at" in result ==> r["triggered_at"] == result["triggered_at"]
    ensures options.Some? && "current_value" in options.value ==> r["current_value"] == options.value["current_value"]
    ensures (options.None? || "current_value" !in options.value) && "current_value" in result ==> r["current_value"] == result["current_value"]
  {
    var evt := if options.Some? then result + options.value else result;
    var evt := if "triggered_at" in evt then evt else evt["triggered_at" := Time(t)];
    var evt := if "current_value" in evt then evt else evt["current_value" := value];
    evt["status" := Int(current)]
  }

  /** `for k, v := range src { evt[k] = v }`. */
  method Overlay(evt: map<string, Value>, src: map<string, Value>) returns (r: map<string, Value>)
    ensures r == evt + src
  {
    r := evt;
    var rest := src.Keys;
    while rest != {}
      invariant rest <= src.Keys
      invariant r.Keys == evt.Keys + (src.Keys - rest)
      invariant forall k | k in r :: r[k] == if k in src.Keys - rest then src[k] else evt[k]
      decreases rest
    {
      var k :| k in rest;
      r := r[k := src[k]];
      rest := rest - {k};
    }
    assert r == evt + src;
  }

  /** The event as Run builds it: copy result, copy options, then the three defaults and the status. */
  method BuildEvent(result: map<string, Value>, options: Option<map<string, Value>>, t: int, value: Value,
                    current: int) returns (evt: map<string, Value>)
    ensures evt == Event(result, options, t, value, current)
  {
    evt := Overlay(map[], result);
    assert evt == result;
    if options.Some? {
      evt := Overlay(evt, options.value);
    }
    if "triggered_at" !in evt {
      evt := evt["triggered_at" := Time(t)];
    }
    if "current_value" !in evt {
      evt := evt["current_value" := value];
    }
    evt := evt["status" := Int(current)];
  }

  /** The object sent through the channel; `send` fills in its attributes. */
  class DataObject {
    var attributes: map<string, Value>

    constructor ()
      ensures attributes == map[]
    {
      attributes := map[];
    }
  }

  class Alert {
    const name: string
    const maxRepeated: int
    const options: Option<map<string, Value>>
    const result: map<string, Value>
    const checker: Checker
    var cachedData: DataObject
    var lastStatus: int
    var repeated: int
    var alreadySend: bool

    function CountersOf(): Counters
      reads this
    {
      Counters(lastStatus, repeated, alreadySend)
    }

    ghost predicate Valid()
      reads this
    {
      1 <= maxRepeated < MAX_REPEATED && InRange(CountersOf(), maxRepeated)
    }

    /** The action newAlertAction builds: result is {"name": name}, nothing seen and nothing sent yet. */
    constructor (name: string, options: Option<map<string, Value>>, maxRepeated: int, checker: Checker)
      requires 1 <= maxRepeated < MAX_REPEATED
      ensures Valid()
      ensures this.name == name && this.options == options && this.maxRepeated == maxRepeated
      ensures this.checker == checker && result == map["name" := Str(name)]
      ensures CountersOf() == Counters(0, 0, false)
      ensures fresh(cachedData) && cachedData.attributes == map[]
    {
      this.name := name;
      this.options := options;
      this.maxRepeated := maxRepeated;
      this.checker := checker;
      result := map["name" := Str(name)];
      cachedData := new DataObject();
      lastStatus := 0;
      repeated := 0;
      alreadySend := false;
    }

    /** Run: check the value, count the status, and send the event once the count is reached. */
    method Run(t: int, value: Value, answer: SendAnswer) returns (err: Option<string>)
      requires Valid()
      modifies this, cachedData
      ensures Valid()
      ensures checker(value, result).CheckFailed? ==>
                err == Some(checker(value, result).message) &&
                CountersOf() == old(CountersOf()) && cachedData == old(cachedData) &&
                unchanged(old(cachedData))
      ensures checker(value, result).Status? ==>
                var current := checker(value, result).current;
                var c := Advance(old(CountersOf()), current, maxRepeated);
                if !Fires(c, maxRepeated) then
                  err == None && CountersOf() == c && cachedData == old(cachedData) && unchanged(old(cachedData))
                else
                  old(cachedData).attributes == Event(result, options, t, value, current) &&
                  match answer
                  case Delivered =>
                    err == None && CountersOf() == c.(alreadySend := true) && cachedData == old(cachedData)
                  case ResetChannel =>
                    err == Some(RESET_ERROR) && CountersOf() == c && fresh(cachedData) &&
                    cachedData.attributes == map[]
                  case SendFailed(m) =>
                    err == Some(m) && CountersOf() == c && cachedData == old(cachedData)
    {
      var checked := checker(value, result);
      if checked.CheckFailed? {
        return Some(checked.message);
      }
      var current := checked.current;
      AdvanceInRange(CountersOf(), current, maxRepeated);
      if current == lastStatus {
        repeated := repeated + 1;
        if repeated >= REPEATED_GUARD || repeated < 0 {
          repeated := maxRepeated + 10;
        }
      } else {
        repeated := 1;
        lastStatus := current;
        alreadySend := false;
      }
      if repeated < maxRepeated {
        return None;
      }
      if alreadySend {
        return None;
      }
      var evt := BuildEvent(result, options, t, value, current);
      cachedData.attributes := evt;
      if answer.Delivered? {
        alreadySend := true;
        return None;
      }
      if answer.ResetChannel? {
        cachedData := new DataObject();
      }
      return Some(SendErrorText(answer));
    }
  }

  // ---------------------------------------------------------------------
  // newAlertAction and makeChecker
  // ---------------------------------------------------------------------

  /** max_repeated as newAlertAction clamps it. */
  function ClampMaxRepeated(n: int): (r: int)
    ensures 1 <= r < MAX_REPEATED
    ensures n <= 0 ==> r == 1
    ensures n >= MAX_REPEATED ==> r == MAX_REPEATED - 20
    ensures 1 <= n < MAX_REPEATED ==> r == n
  {
    var m := if n <= 0 then 1 else n;
    if m >= MAX_REPEATED then MAX_REPEATED - 20 else m
  }

  /** An error of newAlertAction: a required attribute (commons.IsRequired), or a message. */
  datatype AlertError = Required(field: string) | Failed(message: string)

  /** What building an action needs from outside: commons' getters, json.Marshal and makeJsonChecker. */
  datatype AlertEnv = AlertEnv(
    asInt: Value -> Option<int>,
    isChannel: Value -> bool,
    marshal: map<string, Value> -> Option<string>,
    makeJsonChecker: string -> MadeChecker)

  datatype MadeChecker = MadeChecker(checker: Checker) | CheckerFailed(error: AlertError)

  /** commons.GetString: a string value under the key. */
  function StringOf(m: map<string, Value>, key: string): Option<string>
  {
    if key in m && m[key].Str? then Some(m[key].s) else None
  }

  /** commons.GetIntWithDefault. */
  function IntWithDefault(m: map<string, Value>, key: string, default: int, env: AlertEnv): int
  {
    if key in m && env.asInt(m[key]).Some? then env.asInt(m[key]).value else default
  }

  /** makeChecker: expression_style is required and only "json" is known; the code is a string or a marshalled object. */
  function MakeChecker(attributes: map<string, Value>, env: AlertEnv): (r: MadeChecker)
    ensures StringOf(attributes, "expression_style").None? ==> r == CheckerFailed(Required("expression_style"))
    ensures StringOf(attributes, "expression_style").Some? && StringOf(attributes, "expression_style").value != "json" &&
            r.CheckerFailed? && r.error.Failed? ==>
              r.error.message == "expression style '" + StringOf(attributes, "expression_style").value + "' is unknown"
    ensures r.MadeChecker? ==> StringOf(attributes, "expression_style") == Some("json")
  {
    match StringOf(attributes, "expression_style")
    case None => CheckerFailed(Required("expression_style"))
    case Some(style) =>
      var code: Option<string> :=
        match StringOf(attributes, "expression_code")
        case Some(c) => Some(c)
        case None =>
          if "expression_code" in attributes && attributes["expression_code"].Obj? then
            env.marshal(attributes["expression_code"].fields)
          else None;
      if code.None? then CheckerFailed(Required("expression_code"))
      else if style == "json" then env.makeJsonChecker(code.value)
      else CheckerFailed(Failed("expression style '" + style + "' is unknown"))
  }

  /** The settings newAlertAction validates before building the action. */
  datatype AlertSettings = AlertSettings(name: string, checker: Checker, maxRepeated: int)

  datatype Settled = Settled(settings: AlertSettings) | NotSettled(error: AlertError)

  function AlertSettingsOf(attributes: map<string, Value>, ctx: map<string, Value>, env: AlertEnv): (r: Settled)
    ensures StringOf(attributes, "name").None? ==> r == NotSettled(Required("name"))
    ensures StringOf(attributes, "name").Some? && ("alerts_channel" !in ctx || ctx["alerts_channel"].Nil?) ==>
              r == NotSettled(Failed("'alerts_channel' is nil"))
    ensures r.Settled? ==>
              StringOf(attributes, "name") == Some(r.settings.name) &&
              "alerts_channel" in ctx && env.isChannel(ctx["alerts_channel"]) &&
              MakeChecker(attributes, env) == MadeChecker(r.settings.checker) &&
              r.settings.maxRepeated == ClampMaxRepeated(IntWithDefault(attributes, "max_repeated", 1, env))
  {
    match StringOf(attributes, "name")
    case None => NotSettled(Required("name"))
    case Some(name) =>
      if "alerts_channel" !in ctx || ctx["alerts_channel"].Nil? then NotSettled(Failed("'alerts_channel' is nil"))
      else if !env.isChannel(ctx["alerts_channel"]) then
        NotSettled(Failed("'alerts_channel' is not a chan<- *data_object "))
      else
        match MakeChecker(attributes, env)
        case CheckerFailed(e) => NotSettled(e)
        case MadeChecker(checker) =>
          Settled(AlertSettings(name, checker, ClampMaxRepeated(IntWithDefault(attributes, "max_repeated", 1, env))))
  }

  /** newAlertAction: validates, then builds a fresh action. */
  method NewAlertAction(attributes: map<string, Value>, options: Option<map<string, Value>>,
                        ctx: map<string, Value>, env: AlertEnv)
    returns (action: Alert?, err: Option<AlertError>)
    ensures AlertSettingsOf(attributes, ctx, env).NotSettled? ==>
              action == null && err == Some(AlertSettingsOf(attributes, ctx, env).error)
    ensures AlertSettingsOf(attributes, ctx, env).Settled? ==>
              var s := AlertSettingsOf(attributes, ctx, env).settings;
              err == None && action != null && fresh(action) && action.Valid() &&
              action.name == s.name && action.maxRepeated == s.maxRepeated && action.checker == s.checker &&
              action.options == options && action.CountersOf() == Counters(0, 0, false)
  {
    var settled := AlertSettingsOf(attributes, ctx, env);
    if settled.NotSettled? {
      return null, Some(settled.error);
    }
    var s := settled.settings;
    action := new Alert(s.name, options, s.maxRepeated, s.checker);
    err := None;
  }
}
