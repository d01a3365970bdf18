/**
 * sampling/driver.go: the sampling-side metric dispatcher.  It answers a
 * commons Result value rather than a map, and forwards a known metric's
 * answer unchanged.  Its registration loop is the one of
 * metrics/metrics_driver.go (MetricsDispatch.RegisterAll).
 */
module SamplingDispatch {
  import opened Common
  import Drivers
  import MetricsDispatch

  /** A call into a registered driver. */
  type Backend = (Drivers.Driver, Op, map<string, string>) -> Drivers.Result

  /** MetricNotExists is a package variable: its time stamp is the moment the package was initialised. */
  function MetricNotExists(initTime: int): (r: Drivers.Result)
    ensures r.HasError() && r.ErrorCode() == BadRequestCode && r.ErrorMessage() == "'metric' is required."
    ensures r.value == Nil
  {
    Drivers.ReturnError(BadRequestCode, "'metric' is required.", initTime)
  }

  function MetricNotDefined(name: string, now: int): (r: Drivers.Result)
    ensures r.HasError() && r.ErrorCode() == NotFoundCode && r.ErrorMessage() == "'" + name + "' is not defined."
    ensures r.value == Nil
  {
    Drivers.ReturnError(NotFoundCode, "'" + name + "' is not defined.", now)
  }

  class Metrics {
    const manager: Drivers.DriverManager
    const drvMgr: Drivers.DriverManager
    const initTime: int

    constructor (manager: Drivers.DriverManager, drvMgr: Drivers.DriverManager, initTime: int)
      ensures this.manager == manager && this.drvMgr == drvMgr && this.initTime == initTime
    {
      this.manager := manager;
      this.drvMgr := drvMgr;
      this.initTime := initTime;
    }

    /** Get, Put, Create and Delete: the two errors, or the driver's Result itself. */
    function Dispatch(op: Op, params: map<string, string>, backend: Backend, now: int): (r: Drivers.Result)
      reads manager
      ensures "metric" !in params ==> r == MetricNotExists(initTime)
      ensures "metric" in params && params["metric"] !in manager.drivers ==>
                r == MetricNotDefined(params["metric"], now)
      ensures "metric" in params && params["metric"] in manager.drivers ==>
                r == backend(manager.drivers[params["metric"]], op, params)
    {
      if "metric" !in params then MetricNotExists(initTime)
      else
        match manager.Connect(params["metric"])
        case None => MetricNotDefined(params["metric"], now)
        case Some(driver) => backend(driver, op, params)
    }
  }

  /** NewMetrics: the same registration as the metrics dispatcher, stopping at the first factory error. */
  method NewMetrics(drvMgr: Drivers.DriverManager, factories: map<string, MetricsDispatch.Built>, initTime: int)
      returns (metrics: Metrics?, published: Drivers.DriverManager, err: Option<string>)
    ensures fresh(published)
    ensures err.None? <==> forall k | k in factories :: factories[k].BuiltDriver?
    ensures err.None? ==> metrics != null && metrics.manager == published && metrics.drvMgr == drvMgr &&
                          published.drivers == MetricsDispatch.Registered(factories, factories.Keys)
    ensures err.Some? ==> metrics == null
  {
    published := new Drivers.DriverManager();
    err := MetricsDispatch.RegisterAll(published, factories);
    if err.Some? {
      return null, published, err;
    }
    metrics := new Metrics(published, drvMgr, initTime);
  }
}
