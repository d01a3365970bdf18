/**
 * metrics/metrics_driver.go: the metric dispatcher.  A request names its
 * metric in params["metric"]; the dispatcher looks the metric's driver up
 * in its own registry and forwards the call, stamping "created_at" on the
 * result map of Get, Put and Create.  The drivers themselves and the clock
 * are inputs.
 */
module MetricsDispatch {
  import opened Common
  import Drivers

  /** The result map (nil when absent) and the error a driver call answers. */
  datatype Reply = Reply(res: Option<map<string, Value>>, err: Option<AppError>)

  /** A call into a registered driver. */
  type Backend = (Drivers.Driver, Op, map<string, string>) -> Reply

  const MetricNotExists: AppError := AppError(BadRequestCode, "'metric' is required.")

  function MetricNotDefined(name: string): (r: AppError)
    ensures r.code == NotFoundCode && r.message == "'" + name + "' is not defined."
  {
    AppError(NotFoundCode, "'" + name + "' is not defined.")
  }

  /** `created_at` is set to `now` only when the result has none. */
  function Stamp(res: map<string, Value>, now: int): (r: map<string, Value>)
    ensures r.Keys == res.Keys + {"created_at"}
    ensures forall k | k in res :: r[k] == res[k]
    ensures "created_at" !in res ==> r["created_at"] == Time(now)
  {
    if "created_at" in res then res else res["created_at" := Time(now)]
  }

  /** Stamping twice keeps the first stamp. */
  lemma StampIdempotent(res: map<string, Value>, first: int, second: int)
    ensures Stamp(Stamp(res, first), second) == Stamp(res, first)
  {
  }

  // ---------------------------------------------------------------------
  // NewMetrics
  // ---------------------------------------------------------------------

  /** What a METRIC_DRVS factory answers. */
  datatype Built = BuiltDriver(driver: Drivers.Driver) | FactoryFailed(error: string)

  /** The drivers the factories for `keys` built. */
  function Registered(factories: map<string, Built>, keys: set<string>): (r: map<string, Drivers.Driver>)
    ensures r.Keys <= keys
    ensures forall k | k in r :: k in factories && factories[k] == BuiltDriver(r[k])
  {
    map k | k in keys && k in factories && factories[k].BuiltDriver? :: factories[k].driver
  }

  /**
   * NewMetrics' loop over METRIC_DRVS: each factory in map order, its
   * driver registered under its key, stopping at the first factory error.
   * The registry starts empty, so Register never meets a taken name.
   */
  method RegisterAll(manager: Drivers.DriverManager, factories: map<string, Built>) returns (err: Option<string>)
    requires manager.drivers == map[]
    modifies manager
    ensures manager.calls == old(manager.calls)
    ensures err.None? <==> forall k | k in factories :: factories[k].BuiltDriver?
    ensures err.None? ==> manager.drivers == Registered(factories, factories.Keys)
    ensures forall k | k in manager.drivers :: k in factories && factories[k] == BuiltDriver(manager.drivers[k])
    ensures err.Some? ==> exists k | k in factories :: factories[k] == FactoryFailed(err.value)
  {
    var rest := factories.Keys;
    while rest != {}
      invariant rest <= factories.Keys
      invariant forall k | k in factories.Keys - rest :: factories[k].BuiltDriver?
      invariant manager.drivers == Registered(factories, factories.Keys - rest)
      invariant manager.calls == old(manager.calls)
      decreases |rest|
    {
      var k :| k in rest;
      var made := factories[k];
      if made.FactoryFailed? {
        return Some(made.error);
      }
      var panicked := manager.Register(k, made.driver);
      rest := rest - {k};
      assert manager.drivers == Registered(factories, factories.Keys - rest);
    }
    assert factories.Keys - rest == factories.Keys;
    return None;
  }

  /** The dispatcher: its own registry, and the shared driver manager it was given. */
  class Metrics {
    const manager: Drivers.DriverManager
    const drvMgr: Drivers.DriverManager

    constructor (manager: Drivers.DriverManager, drvMgr: Drivers.DriverManager)
      ensures this.manager == manager && this.drvMgr == drvMgr
    {
      this.manager := manager;
      this.drvMgr := drvMgr;
    }

    /**
     * Get, Put, Create and Delete: MetricNotExists without a metric name,
     * MetricNotDefined for an unknown one, otherwise the driver's answer,
     * its result map stamped except on Delete.
     */
    function Dispatch(op: Op, params: map<string, string>, backend: Backend, now: int): (r: Reply)
      reads manager
      ensures "metric" !in params ==> r == Reply(None, Some(MetricNotExists))
      ensures "metric" in params && params["metric"] !in manager.drivers ==>
                r == Reply(None, Some(MetricNotDefined(params["metric"])))
      ensures "metric" in params && params["metric"] in manager.drivers ==>
                var b := backend(manager.drivers[params["metric"]], op, params);
                r.err == b.err && (r.res.Some? <==> b.res.Some?) &&
                (op == DeleteOp ==> r == b) &&
                (op != DeleteOp && b.res.Some? ==> r.res.value == Stamp(b.res.value, now))
    {
      if "metric" !in params then Reply(None, Some(MetricNotExists))
      else
        match manager.Connect(params["metric"])
        case None => Reply(None, Some(MetricNotDefined(params["metric"])))
        case Some(driver) =>
          var b := backend(driver, op, params);
          if op == DeleteOp || b.res.None? then b
          else Reply(Some(Stamp(b.res.value, now)), b.err)
    }
  }

  /**
   * NewMetrics: a fresh registry, published before the factories run (so
   * the context holds it even when a factory fails), filled by RegisterAll.
   */
  method NewMetrics(drvMgr: Drivers.DriverManager, factories: map<string, Built>)
      returns (metrics: Metrics?, published: Drivers.DriverManager, err: Option<string>)
    ensures fresh(published)
    ensures err.None? <==> forall k | k in factories :: factories[k].BuiltDriver?
    ensures err.None? ==> metrics != null && metrics.manager == published && metrics.drvMgr == drvMgr &&
                          published.drivers == Registered(factories, factories.Keys)
    ensures err.Some? ==> metrics == null
  {
    published := new Drivers.DriverManager();
    err := RegisterAll(published, factories);
    if err.Some? {
      return null, published, err;
    }
    metrics := new Metrics(published, drvMgr);
  }
}
