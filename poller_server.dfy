/**
 * poller/server.go: the poller's job table.  The server keeps one job per
 * trigger id, loads them at start, reconciles them with the trigger
 * table's snapshot on every tick, and stops them all at the end.  Job
 * construction (newJob), Job.Start, the data-store calls and the cookie
 * service are given as inputs; the Stop() calls are recorded in the order
 * they are made.
 */
module PollerServer {
  import opened Common
  import DataStoreClient

  type Attributes = map<string, Value>

  /** A job in the table: one that newJob built and started, or an errorJob. */
  datatype Job =
    | Running(jobId: string, jobName: string, version: int)
    | ErrorJob(clazz: string, id: string, name: string, e: string, updatedAt: int)

  /** Job.Id(); an errorJob answers its `id` field. */
  function JobId(j: Job): string
  {
    match j
    case Running(id, _, _) => id
    case ErrorJob(_, id, _, _, _) => id
  }

  /** Job.Version(); an errorJob answers its `updated_at` field. */
  function Version(j: Job): int
  {
    match j
    case Running(_, _, v) => v
    case ErrorJob(_, _, _, _, t) => t
  }

  datatype MadeJob = Made(job: Job) | MakeFailed(message: string)
  datatype FetchedTrigger = Fetched(attributes: Attributes) | FetchFailed(message: string)

  /**
   * What the server calls out to: newJob, Job.Start (nil or an error
   * message), the client's FindByIdWithIncludes("trigger", id, "action"),
   * the commons conversions and fmt.Sprint.
   */
  datatype PollerEnv = PollerEnv(
    newJob: Attributes -> MadeJob,
    start: Job -> Option<string>,
    findTrigger: string -> FetchedTrigger,
    asString: Value -> Option<string>,
    asInt: Value -> Option<int>,
    asTime: Value -> Option<int>,
    sprint: Value -> string)

  /** commons.GetStringWithDefault: the entry when it reads as a string, else the default. */
  function StringWithDefault(a: Attributes, key: string, default: string, env: PollerEnv): (r: string)
    ensures key !in a ==> r == default
  {
    if key in a && env.asString(a[key]).Some? then env.asString(a[key]).value else default
  }

  /** commons.GetIntWithDefault. */
  function IntWithDefault(a: Attributes, key: string, default: int, env: PollerEnv): (r: int)
    ensures key !in a ==> r == default
  {
    if key in a && env.asInt(a[key]).Some? then env.asInt(a[key]).value else default
  }

  /** commons.GetTime with its error ignored: the zero time when the entry is missing or is not a time. */
  function TimeOf(a: Attributes, key: string, env: PollerEnv): (r: int)
    ensures key !in a ==> r == 0
  {
    if key in a && env.asTime(a[key]).Some? then env.asTime(a[key]).value else 0
  }

  // ---------------------------------------------------------------------
  // startJob, loadJob, stopJob on a job table
  // ---------------------------------------------------------------------

  /** The job table and the ids whose job has been told to Stop, in order. */
  datatype Pool = Pool(jobs: map<string, Job>, stopped: seq<string>)

  /** The errorJob startJob files when `stage` ("create" or "start") fails with `e`. */
  function StartFailure(attributes: Attributes, stage: string, e: string, env: PollerEnv): (r: Job)
    ensures r.ErrorJob? && r.id == StringWithDefault(attributes, "id", "unknow_id", env)
    ensures r.e == stage + " '" + r.id + ":" + r.name + "' failed, " + e + "\n"
  {
    var clazz := StringWithDefault(attributes, "type", "unknow_type", env);
    var name := StringWithDefault(attributes, "name", "unknow_name", env);
    var id := StringWithDefault(attributes, "id", "unknow_id", env);
    ErrorJob(clazz, id, name, stage + " '" + id + ":" + name + "' failed, " + e + "\n",
             TimeOf(attributes, "updated_at", env))
  }

  /** The job startJob stores: the built job if it started, else an errorJob naming the failing stage. */
  function StartedJob(attributes: Attributes, env: PollerEnv): (r: Job)
    ensures env.newJob(attributes).MakeFailed? ==>
              r == StartFailure(attributes, "create", env.newJob(attributes).message, env)
    ensures env.newJob(attributes).Made? && env.start(env.newJob(attributes).job).Some? ==>
              r == StartFailure(attributes, "start", env.start(env.newJob(attributes).job).value, env)
    ensures r.Running? ==> env.newJob(attributes) == Made(r) && env.start(r).None?
  {
    match env.newJob(attributes)
    case MakeFailed(e) => StartFailure(attributes, "create", e, env)
    case Made(job) =>
      match env.start(job)
      case Some(e) => StartFailure(attributes, "start", e, env)
      case None => job
  }

  /** startJob always stores, under the stored job's own Id(). */
  function StartIn(p: Pool, attributes: Attributes, env: PollerEnv): (r: Pool)
  {
    var job := StartedJob(attributes, env);
    Pool(p.jobs[JobId(job) := job], p.stopped)
  }

  /** The job loadJob stores: an errorJob for the requested id when the fetch fails. */
  function LoadedJob(id: string, env: PollerEnv): (r: Job)
    ensures env.findTrigger(id).FetchFailed? ==>
              r == ErrorJob("", id, "", "load trigger '" + id + "' from db failed," + env.findTrigger(id).message, 0)
    ensures env.findTrigger(id).Fetched? ==> r == StartedJob(env.findTrigger(id).attributes, env)
  {
    match env.findTrigger(id)
    case FetchFailed(e) => ErrorJob("", id, "", "load trigger '" + id + "' from db failed," + e, 0)
    case Fetched(a) => StartedJob(a, env)
  }

  function LoadIn(p: Pool, id: string, env: PollerEnv): (r: Pool)
  {
    var job := LoadedJob(id, env);
    Pool(p.jobs[JobId(job) := job], p.stopped)
  }

  /** stopJob: an unknown id changes nothing; a known one is stopped and removed, and nothing else. */
  function StopIn(p: Pool, id: string): (r: Pool)
    ensures id !in p.jobs ==> r == p
    ensures id in p.jobs ==> r.jobs.Keys == p.jobs.Keys - {id} && r.stopped == p.stopped + [id]
    ensures forall k | k in r.jobs :: k in p.jobs && r.jobs[k] == p.jobs[k]
  {
    if id in p.jobs then Pool(p.jobs - {id}, p.stopped + [id]) else p
  }

  /** A load of `id` files its job under `id`: true of a failed fetch, and of a trigger whose job reports that id. */
  predicate Keyed(id: string, env: PollerEnv)
  {
    JobId(LoadedJob(id, env)) == id
  }

  lemma FetchFailureIsKeyed(id: string, env: PollerEnv)
    requires env.findTrigger(id).FetchFailed?
    ensures Keyed(id, env)
    ensures LoadIn(Pool(map[], []), id, env).jobs.Keys == {id}
  {
  }

  // ---------------------------------------------------------------------
  // onIdle's three loops, as folds over the id lists
  // ---------------------------------------------------------------------

  /** `for _, id := range ids { s.loadJob(id) }` */
  function LoadEach(p: Pool, ids: seq<string>, env: PollerEnv): Pool
    decreases |ids|
  {
    if ids == [] then p else LoadIn(LoadEach(p, ids[..|ids| - 1], env), ids[|ids| - 1], env)
  }

  /** `for _, id := range ids { s.stopJob(id); s.loadJob(id) }` */
  function ReloadEach(p: Pool, ids: seq<string>, env: PollerEnv): Pool
    decreases |ids|
  {
    if ids == [] then p else LoadIn(StopIn(ReloadEach(p, ids[..|ids| - 1], env), ids[|ids| - 1]), ids[|ids| - 1], env)
  }

  /** `for _, id := range ids { s.stopJob(id) }` */
  function StopEach(p: Pool, ids: seq<string>): Pool
    decreases |ids|
  {
    if ids == [] then p else StopIn(StopEach(p, ids[..|ids| - 1]), ids[|ids| - 1])
  }

  /** `for _, attributes := range results { s.startJob(attributes) }` */
  function StartEach(p: Pool, results: seq<Attributes>, env: PollerEnv): Pool
    decreases |results|
  {
    if results == [] then p else StartIn(StartEach(p, results[..|results| - 1], env), results[|results| - 1], env)
  }

  /** What onIdle does with Diff's three lists: load the new, reload the updated, stop the deleted. */
  function Reconciled(p: Pool, newed: seq<string>, updated: seq<string>, deleted: seq<string>, env: PollerEnv): Pool
  {
    StopEach(ReloadEach(LoadEach(p, newed, env), updated, env), deleted)
  }

  /** The old snapshot onIdle builds: every job's Version as a RecordVersion's UpdatedAt. */
  function VersionsOf(jobs: map<string, Job>): (r: DataStoreClient.Snapshots)
    ensures r.Keys == jobs.Keys
    ensures forall id | id in r :: r[id] == Some(DataStoreClient.RecordVersion(0, 0, Version(jobs[id])))
  {
    map id | id in jobs :: Some(DataStoreClient.RecordVersion(0, 0, Version(jobs[id])))
  }

  lemma {:induction false} LoadEachKeys(p: Pool, ids: seq<string>, env: PollerEnv)
    requires forall k | 0 <= k < |ids| :: Keyed(ids[k], env)
    ensures LoadEach(p, ids, env).jobs.Keys == p.jobs.Keys + Seq2Set(ids)
    ensures LoadEach(p, ids, env).stopped == p.stopped
    ensures forall id | id in p.jobs && id !in ids :: LoadEach(p, ids, env).jobs[id] == p.jobs[id]
    decreases |ids|
  {
    if ids != [] {
      var front := ids[..|ids| - 1];
      LoadEachKeys(p, front, env);
      assert ids == front + [ids[|ids| - 1]];
      assert Seq2Set(ids) == Seq2Set(front) + {ids[|ids| - 1]};
    }
  }

  /** One stop-then-load of a keyed id: the id joins the keys and every other job stays. */
  lemma ReloadStep(q: Pool, id: string, env: PollerEnv)
    requires Keyed(id, env)
    ensures LoadIn(StopIn(q, id), id, env).jobs.Keys == q.jobs.Keys + {id}
    ensures forall k | k in q.jobs && k != id :: LoadIn(StopIn(q, id), id, env).jobs[k] == q.jobs[k]
  {
  }

  lemma {:induction false} ReloadEachKeys(p: Pool, ids: seq<string>, env: PollerEnv)
    requires forall k | 0 <= k < |ids| :: Keyed(ids[k], env)
    ensures ReloadEach(p, ids, env).jobs.Keys == p.jobs.Keys + Seq2Set(ids)
    ensures forall id | id in p.jobs && id !in ids :: ReloadEach(p, ids, env).jobs[id] == p.jobs[id]
    decreases |ids|
  {
    if ids != [] {
      var front := ids[..|ids| - 1];
      var last := ids[|ids| - 1];
      ReloadEachKeys(p, front, env);
      var q := ReloadEach(p, front, env);
      assert ReloadEach(p, ids, env) == LoadIn(StopIn(q, last), last, env);
      ReloadStep(q, last, env);
      assert ids == front + [last];
      assert Seq2Set(ids) == Seq2Set(front) + {last};
      forall id | id in p.jobs && id !in ids
        ensures ReloadEach(p, ids, env).jobs[id] == p.jobs[id]
      {
        assert id !in front && id != last;
      }
    }
  }

  lemma {:induction false} StopEachKeys(p: Pool, ids: seq<string>)
    ensures StopEach(p, ids).jobs.Keys == p.jobs.Keys - Seq2Set(ids)
    ensures forall id | id in StopEach(p, ids).jobs :: StopEach(p, ids).jobs[id] == p.jobs[id]
    decreases |ids|
  {
    if ids != [] {
      var front := ids[..|ids| - 1];
      StopEachKeys(p, front);
      assert ids == front + [ids[|ids| - 1]];
      assert Seq2Set(ids) == Seq2Set(front) + {ids[|ids| - 1]};
    }
  }

  /**
   * After a reconcile whose loads each file their job under the requested
   * id, the table holds a job for exactly the ids of the new snapshot, and
   * an id that was neither new nor updated keeps the job it had.
   */
  lemma ReconcileMirrorsSnapshot(p: Pool, n: DataStoreClient.Snapshots,
                                 newed: seq<string>, updated: seq<string>, deleted: seq<string>, env: PollerEnv)
    requires Seq2Set(newed) == DataStoreClient.Newed(n, VersionsOf(p.jobs))
    requires Seq2Set(updated) == DataStoreClient.Updated(n, VersionsOf(p.jobs))
    requires Seq2Set(deleted) == DataStoreClient.Deleted(n, VersionsOf(p.jobs))
    requires forall id | id in n :: Keyed(id, env)
    ensures Reconciled(p, newed, updated, deleted, env).jobs.Keys == n.Keys
    ensures forall id | id in p.jobs && id in n && id !in updated ::
              Reconciled(p, newed, updated, deleted, env).jobs[id] == p.jobs[id]
  {
    var o := VersionsOf(p.jobs);
    forall k | 0 <= k < |newed| ensures Keyed(newed[k], env) {
      assert newed[k] in Seq2Set(newed);
    }
    forall k | 0 <= k < |updated| ensures Keyed(updated[k], env) {
      assert updated[k] in Seq2Set(updated);
    }
    var p1 := LoadEach(p, newed, env);
    var p2 := ReloadEach(p1, updated, env);
    LoadEachKeys(p, newed, env);
    ReloadEachKeys(p1, updated, env);
    StopEachKeys(p2, deleted);
    assert Seq2Set(newed) == n.Keys - p.jobs.Keys;
    assert Seq2Set(updated) <= n.Keys;
    assert Seq2Set(deleted) == p.jobs.Keys - n.Keys;
    forall id | id in p.jobs && id in n && id !in updated
      ensures Reconciled(p, newed, updated, deleted, env).jobs[id] == p.jobs[id]
    {
      assert id !in Seq2Set(newed);
      assert id !in Seq2Set(updated);
      assert id !in Seq2Set(deleted);
    }
  }

  // ---------------------------------------------------------------------
  // loadCookies
  // ---------------------------------------------------------------------

  /**
   * One answer of the cookie service: an error, a result that is not a
   * list of objects, or a page (nil when the service has no list).
   */
  datatype PageAnswer = PageFailed(message: string) | NotObjects(message: string) | Page(cookies: Option<seq<Attributes>>)

  /** The page asked for at offset 100*k; past the given pages the service answers nil. */
  function PageAt(pages: seq<PageAnswer>, k: nat): (r: PageAnswer)
    ensures k >= |pages| ==> r == Page(None)
  {
    if k < |pages| then pages[k] else Page(None)
  }

  const PageSize: nat := 100

  /** The id a cookie is matched on. */
  function CookieId(c: Attributes, env: PollerEnv): int
  {
    IntWithDefault(c, "id", 0, env)
  }

  /** fmt.Sprint(attributes["id"]): a missing entry prints as nil. */
  function CookieIdText(c: Attributes, env: PollerEnv): string
  {
    env.sprint(if "id" in c then c["id"] else Nil)
  }

  /** The delete requests a page of cookies causes: one per cookie that belongs to no loaded trigger, in order. */
  function DeletesOf(cs: seq<Attributes>, ids: set<int>, env: PollerEnv): (r: seq<string>)
    ensures |r| <= |cs|
    ensures (forall k | 0 <= k < |cs| :: CookieId(cs[k], env) in ids) ==> r == []
    ensures (forall k | 0 <= k < |cs| :: CookieId(cs[k], env) !in ids) ==> |r| == |cs|
    decreases |cs|
  {
    if cs == [] then []
    else
      var front := DeletesOf(cs[..|cs| - 1], ids, env);
      var c := cs[|cs| - 1];
      if CookieId(c, env) in ids then front else front + [CookieIdText(c, env)]
  }

  /** What loadCookies answers from page k on: its error, the delete requests and the offsets it asks for. */
  datatype Cookies = Cookies(err: Option<string>, deletes: seq<string>, offsets: seq<int>)

  function CookiesFrom(ids: set<int>, pages: seq<PageAnswer>, k: nat, env: PollerEnv): (r: Cookies)
    ensures |r.offsets| >= 1 && r.offsets[0] == PageSize * k
    decreases |pages| - k
  {
    match PageAt(pages, k)
    case PageFailed(m) => Cookies(Some("load cookies failed, " + m), [], [PageSize * k])
    case NotObjects(m) =>
      Cookies(Some("load cookies failed, results is not a []map[string]interface{}, " + m), [], [PageSize * k])
    case Page(None) => Cookies(None, [], [PageSize * k])
    case Page(Some(cs)) =>
      if |cs| != PageSize then Cookies(None, DeletesOf(cs, ids, env), [PageSize * k])
      else
        var rest := CookiesFrom(ids, pages, k + 1, env);
        Cookies(rest.err, DeletesOf(cs, ids, env) + rest.deletes, [PageSize * k] + rest.offsets)
  }

  /** The pages are asked for at offsets 100*k, 100*(k+1), ...; never beyond the first nil page. */
  lemma {:induction false} CookiesOffsets(ids: set<int>, pages: seq<PageAnswer>, k: nat, env: PollerEnv)
    requires k <= |pages|
    ensures var r := CookiesFrom(ids, pages, k, env);
            (forall i | 0 <= i < |r.offsets| :: r.offsets[i] == PageSize * (k + i)) &&
            k + |r.offsets| <= |pages| + 1
    decreases |pages| - k
  {
    var r := CookiesFrom(ids, pages, k, env);
    match PageAt(pages, k)
    case PageFailed(m) =>
    case NotObjects(m) =>
    case Page(None) =>
    case Page(Some(cs)) =>
      if |cs| == PageSize {
        CookiesOffsets(ids, pages, k + 1, env);
        var rest := CookiesFrom(ids, pages, k + 1, env);
        assert r.offsets == [PageSize * k] + rest.offsets;
        forall i | 1 <= i < |r.offsets| ensures r.offsets[i] == PageSize * (k + i) {
          assert r.offsets[i] == rest.offsets[i - 1];
        }
      }
  }

  /** A page shorter than 100, or a nil one, is the last page asked for. */
  lemma ShortPageIsLast(ids: set<int>, pages: seq<PageAnswer>, k: nat, env: PollerEnv)
    requires PageAt(pages, k).Page?
    requires PageAt(pages, k).cookies.None? || |PageAt(pages, k).cookies.value| != PageSize
    ensures CookiesFrom(ids, pages, k, env).offsets == [PageSize * k]
    ensures CookiesFrom(ids, pages, k, env).err.None?
  {
  }

  /** One more cookie of a page: a delete for it is appended exactly when it belongs to no loaded trigger. */
  lemma DeletesOfNext(cs: seq<Attributes>, i: int, ids: set<int>, env: PollerEnv)
    requires 0 <= i < |cs|
    ensures DeletesOf(cs[..i + 1], ids, env) ==
            DeletesOf(cs[..i], ids, env) + (if CookieId(cs[i], env) in ids then [] else [CookieIdText(cs[i], env)])
  {
    assert cs[..i + 1][..i] == cs[..i] && cs[..i + 1][i] == cs[i];
  }

  /** The inner loop of loadCookies over one page. */
  method PageDeletes(cs: seq<Attributes>, ids: set<int>, env: PollerEnv) returns (deletes: seq<string>)
    ensures deletes == DeletesOf(cs, ids, env)
  {
    deletes := [];
    var i := 0;
    while i < |cs|
      invariant 0 <= i <= |cs|
      invariant deletes == DeletesOf(cs[..i], ids, env)
    {
      DeletesOfNext(cs, i, ids, env);
      if CookieId(cs[i], env) !in ids {
        deletes := deletes + [CookieIdText(cs[i], env)];
      }
      i := i + 1;
    }
    assert cs[..i] == cs;
  }

  /** One full page: its deletes and its offset come before those of the pages after it. */
  lemma CookiesStep(ids: set<int>, pages: seq<PageAnswer>, k: nat, env: PollerEnv)
    requires PageAt(pages, k).Page? && PageAt(pages, k).cookies.Some?
    requires |PageAt(pages, k).cookies.value| == PageSize
    ensures k < |pages|
    ensures CookiesFrom(ids, pages, k, env).err == CookiesFrom(ids, pages, k + 1, env).err
    ensures CookiesFrom(ids, pages, k, env).deletes ==
            DeletesOf(PageAt(pages, k).cookies.value, ids, env) + CookiesFrom(ids, pages, k + 1, env).deletes
    ensures CookiesFrom(ids, pages, k, env).offsets == [PageSize * k] + CookiesFrom(ids, pages, k + 1, env).offsets
  {
  }

  /**
   * loadCookies: pages of 100 from offset 0, matching each cookie against
   * the loaded trigger ids and deleting the ones that match none, until a
   * nil or short page; an error ends it with the delete requests made so far.
   */
  method LoadCookies(ids: set<int>, pages: seq<PageAnswer>, env: PollerEnv)
      returns (err: Option<string>, deletes: seq<string>, offsets: seq<int>)
    ensures Cookies(err, deletes, offsets) == CookiesFrom(ids, pages, 0, env)
  {
    ghost var whole := CookiesFrom(ids, pages, 0, env);
    deletes := [];
    offsets := [];
    var offset := 0;
    var k: nat := 0;
    while true
      invariant k <= |pages| && offset == PageSize * k
      invariant whole.err == CookiesFrom(ids, pages, k, env).err
      invariant whole.deletes == deletes + CookiesFrom(ids, pages, k, env).deletes
      invariant whole.offsets == offsets + CookiesFrom(ids, pages, k, env).offsets
      decreases |pages| - k
    {
      var res := PageAt(pages, k);
      ghost var here := CookiesFrom(ids, pages, k, env);
      var prior := offsets;
      offsets := offsets + [offset];
      if res.PageFailed? {
        assert here == Cookies(Some("load cookies failed, " + res.message), [], [offset]);
        assert whole.deletes == deletes + [];
        return Some("load cookies failed, " + res.message), deletes, offsets;
      }
      if res.NotObjects? {
        assert here == Cookies(Some("load cookies failed, results is not a []map[string]interface{}, " + res.message), [], [offset]);
        assert whole.deletes == deletes + [];
        return Some("load cookies failed, results is not a []map[string]interface{}, " + res.message), deletes, offsets;
      }
      if res.cookies.None? {
        assert here == Cookies(None, [], [offset]);
        assert whole.deletes == deletes + [];
        break;
      }
      var cs := res.cookies.value;
      var d := PageDeletes(cs, ids, env);
      var before := deletes;
      deletes := deletes + d;
      if PageSize != |cs| {
        assert here == Cookies(None, d, [offset]);
        break;
      }
      CookiesStep(ids, pages, k, env);
      ghost var rest := CookiesFrom(ids, pages, k + 1, env);
      assert before + (d + rest.deletes) == deletes + rest.deletes;
      assert prior + ([offset] + rest.offsets) == offsets + rest.offsets;
      offset := offset + PageSize;
      k := k + 1;
    }
    assert whole.err.None?;
    err := None;
  }

  // ---------------------------------------------------------------------
  // onStart
  // ---------------------------------------------------------------------

  /** FindByWithIncludes("trigger", {}, "action"): the triggers or an error. */
  datatype TriggersAnswer = TriggersFailed(message: string) | Triggers(results: seq<Attributes>)

  predicate HasZeroId(results: seq<Attributes>, env: PollerEnv)
  {
    exists k | 0 <= k < |results| :: IntWithDefault(results[k], "id", 0, env) == 0
  }

  /** The keys of id2results. */
  function TriggerIds(results: seq<Attributes>, env: PollerEnv): set<int>
  {
    set k | 0 <= k < |results| :: IntWithDefault(results[k], "id", 0, env)
  }

  /** What onStart answers: its error, the cookie deletes it requested, and the job table afterwards. */
  datatype StartOutcome = StartOutcome(err: Option<string>, deletes: seq<string>, pool: Pool)

  function OnStartOutcome(p: Pool, triggers: TriggersAnswer, loadCookies: bool, pages: seq<PageAnswer>, env: PollerEnv): (r: StartOutcome)
    ensures triggers.TriggersFailed? ==>
              r == StartOutcome(Some("load triggers from db failed," + triggers.message), [], p)
    ensures triggers.Triggers? && HasZeroId(triggers.results, env) ==>
              r == StartOutcome(Some("'id' of trigger is 0?"), [], p)
    ensures r.err.Some? ==> r.pool == p
    ensures r.err.None? ==> triggers.Triggers? && r.pool == StartEach(p, triggers.results, env)
    ensures !loadCookies ==> r.deletes == []
  {
    match triggers
    case TriggersFailed(m) => StartOutcome(Some("load triggers from db failed," + m), [], p)
    case Triggers(results) =>
      if HasZeroId(results, env) then StartOutcome(Some("'id' of trigger is 0?"), [], p)
      else
        var c := if loadCookies then CookiesFrom(TriggerIds(results, env), pages, 0, env) else Cookies(None, [], []);
        if c.err.Some? then StartOutcome(c.err, c.deletes, p)
        else StartOutcome(None, c.deletes, StartEach(p, results, env))
  }

  /** The id2results loop of onStart: stops at a zero id, otherwise collects every trigger id. */
  method IndexTriggers(results: seq<Attributes>, env: PollerEnv) returns (zero: bool, ids: set<int>)
    ensures zero == HasZeroId(results, env)
    ensures !zero ==> ids == TriggerIds(results, env)
  {
    ids := {};
    var i := 0;
    while i < |results|
      invariant 0 <= i <= |results|
      invariant ids == TriggerIds(results[..i], env)
      invariant !HasZeroId(results[..i], env)
    {
      var id := IntWithDefault(results[i], "id", 0, env);
      if 0 == id {
        assert results[i] == results[..i + 1][i];
        return true, ids;
      }
      assert results[..i + 1] == results[..i] + [results[i]];
      ids := ids + {id};
      i := i + 1;
    }
    assert results[..i] == results;
    return false, ids;
  }

  /** onStart on an empty table with keyed triggers whose jobs all start: one running job per trigger id string. */
  lemma {:induction false} StartEachKeys(p: Pool, results: seq<Attributes>, env: PollerEnv)
    ensures StartEach(p, results, env).jobs.Keys ==
            p.jobs.Keys + (set k | 0 <= k < |results| :: JobId(StartedJob(results[k], env)))
    ensures StartEach(p, results, env).stopped == p.stopped
    decreases |results|
  {
    if results != [] {
      var front := results[..|results| - 1];
      StartEachKeys(p, front, env);
      var last := results[|results| - 1];
      assert (set k | 0 <= k < |results| :: JobId(StartedJob(results[k], env))) ==
             (set k | 0 <= k < |front| :: JobId(StartedJob(front[k], env))) + {JobId(StartedJob(last, env))} by {
        forall k | 0 <= k < |front| ensures front[k] == results[k] { }
      }
    }
  }

  /** The order a `range` over a map's keys visits them in: each key once. */
  method RangeOrder(keys: set<string>) returns (order: seq<string>)
    ensures Seq2Set(order) == keys && NoDuplicates(order)
  {
    order := [];
    var rest := keys;
    while rest != {}
      invariant rest <= keys
      invariant Seq2Set(order) == keys - rest && NoDuplicates(order)
      decreases |rest|
    {
      var id :| id in rest;
      DataStoreClient.AppendFresh(order, id);
      order := order + [id];
      rest := rest - {id};
    }
  }

  // ---------------------------------------------------------------------
  // The server
  // ---------------------------------------------------------------------

  /** SnapShot("trigger", {}): the new snapshot or an error. */
  datatype SnapshotAnswer = SnapshotFailed(message: string) | Snapshot(versions: DataStoreClient.Snapshots)

  class Server {
    var jobs: map<string, Job>
    var stopped: seq<string>
    var firedAt: int
    var lastError: Option<string>
    const env: PollerEnv

    /** newServer: an empty table. */
    constructor (env: PollerEnv)
      ensures jobs == map[] && stopped == [] && lastError.None? && this.env == env
    {
      jobs := map[];
      stopped := [];
      firedAt := 0;
      lastError := None;
      this.env := env;
    }

    function PoolOf(): Pool
      reads this
    {
      Pool(jobs, stopped)
    }

    method StartJob(attributes: Attributes)
      modifies this
      ensures PoolOf() == StartIn(old(PoolOf()), attributes, env)
      ensures firedAt == old(firedAt) && lastError == old(lastError)
    {
      var job: Job;
      var made := env.newJob(attributes);
      if made.MakeFailed? {
        job := StartFailure(attributes, "create", made.message, env);
      } else {
        job := made.job;
        var e := env.start(job);
        if e.Some? {
          job := StartFailure(attributes, "start", e.value, env);
        }
      }
      jobs := jobs[JobId(job) := job];
    }

    method LoadJob(id: string)
      modifies this
      ensures PoolOf() == LoadIn(old(PoolOf()), id, env)
      ensures firedAt == old(firedAt) && lastError == old(lastError)
    {
      var fetched := env.findTrigger(id);
      if fetched.FetchFailed? {
        var msg := "load trigger '" + id + "' from db failed," + fetched.message;
        var job := ErrorJob("", id, "", msg, 0);
        jobs := jobs[JobId(job) := job];
        return;
      }
      StartJob(fetched.attributes);
    }

    method StopJob(id: string)
      modifies this
      ensures PoolOf() == StopIn(old(PoolOf()), id)
      ensures firedAt == old(firedAt) && lastError == old(lastError)
    {
      if id !in jobs {
        return;
      }
      stopped := stopped + [id];
      jobs := jobs - {id};
    }

    /** onStop: every job is stopped once, in map order, and the table is left empty. */
    method OnStop() returns (order: seq<string>)
      modifies this
      ensures Seq2Set(order) == old(jobs).Keys && NoDuplicates(order)
      ensures stopped == old(stopped) + order && jobs == map[]
      ensures firedAt == old(firedAt) && lastError == old(lastError)
    {
      order := RangeOrder(jobs.Keys);
      stopped := stopped + order;
      jobs := map[];
    }

    /** The loop building the old snapshot from the jobs' versions. */
    method OldSnapshots() returns (versions: DataStoreClient.Snapshots)
      ensures versions == VersionsOf(jobs)
    {
      versions := map[];
      var rest := jobs.Keys;
      while rest != {}
        invariant rest <= jobs.Keys
        invariant versions == VersionsOf(jobs - rest)
        decreases |rest|
      {
        var id :| id in rest;
        versions := versions[id := Some(DataStoreClient.RecordVersion(0, 0, Version(jobs[id])))];
        rest := rest - {id};
      }
      assert jobs - rest == jobs;
    }

    /** onIdle's first loop: load every new id. */
    method LoadAll(ids: seq<string>)
      modifies this
      ensures PoolOf() == LoadEach(old(PoolOf()), ids, env)
      ensures firedAt == old(firedAt) && lastError == old(lastError)
    {
      var i := 0;
      while i < |ids|
        invariant 0 <= i <= |ids|
        invariant PoolOf() == LoadEach(old(PoolOf()), ids[..i], env)
        invariant firedAt == old(firedAt) && lastError == old(lastError)
      {
        assert ids[..i + 1][..i] == ids[..i];
        LoadJob(ids[i]);
        i := i + 1;
      }
      assert ids[..i] == ids;
    }

    /** onIdle's second loop: stop, then load, every updated id. */
    method ReloadAll(ids: seq<string>)
      modifies this
      ensures PoolOf() == ReloadEach(old(PoolOf()), ids, env)
      ensures firedAt == old(firedAt) && lastError == old(lastError)
    {
      var i := 0;
      while i < |ids|
        invariant 0 <= i <= |ids|
        invariant PoolOf() == ReloadEach(old(PoolOf()), ids[..i], env)
        invariant firedAt == old(firedAt) && lastError == old(lastError)
      {
        assert ids[..i + 1][..i] == ids[..i];
        StopJob(ids[i]);
        LoadJob(ids[i]);
        i := i + 1;
      }
      assert ids[..i] == ids;
    }

    /** onIdle's third loop: stop every deleted id. */
    method StopAll(ids: seq<string>)
      modifies this
      ensures PoolOf() == StopEach(old(PoolOf()), ids)
      ensures firedAt == old(firedAt) && lastError == old(lastError)
    {
      var i := 0;
      while i < |ids|
        invariant 0 <= i <= |ids|
        invariant PoolOf() == StopEach(old(PoolOf()), ids[..i])
        invariant firedAt == old(firedAt) && lastError == old(lastError)
      {
        assert ids[..i + 1][..i] == ids[..i];
        StopJob(ids[i]);
        i := i + 1;
      }
      assert ids[..i] == ids;
    }

    /**
     * onIdle at time `now`: a snapshot error is recorded and nothing else
     * changes; otherwise the error is cleared and the jobs are reconciled
     * with the snapshot through Diff against their versions.
     */
    method OnIdle(now: int, snapshot: SnapshotAnswer) returns (newed: seq<string>, updated: seq<string>, deleted: seq<string>)
      modifies this
      ensures firedAt == now
      ensures snapshot.SnapshotFailed? ==>
                lastError == Some(snapshot.message) && PoolOf() == old(PoolOf()) &&
                newed == [] && updated == [] && deleted == []
      ensures snapshot.Snapshot? ==>
                var o := VersionsOf(old(jobs));
                lastError.None? &&
                Seq2Set(newed) == DataStoreClient.Newed(snapshot.versions, o) && NoDuplicates(newed) &&
                Seq2Set(updated) == DataStoreClient.Updated(snapshot.versions, o) && NoDuplicates(updated) &&
                Seq2Set(deleted) == DataStoreClient.Deleted(snapshot.versions, o) && NoDuplicates(deleted) &&
                PoolOf() == Reconciled(old(PoolOf()), newed, updated, deleted, env)
    {
      firedAt := now;
      newed, updated, deleted := [], [], [];
      if snapshot.SnapshotFailed? {
        lastError := Some(snapshot.message);
        return;
      }
      lastError := None;
      var versions := OldSnapshots();
      var table := new DataStoreClient.SnapshotTable(versions);
      newed, updated, deleted := table.Diff(snapshot.versions);
      LoadAll(newed);
      ReloadAll(updated);
      StopAll(deleted);
    }

    /**
     * onStart: the triggers are fetched and checked for a zero id before
     * any job starts; the cookies are loaded when `loadCookies` is set;
     * then every trigger is started in order.
     */
    method OnStart(triggers: TriggersAnswer, loadCookies: bool, pages: seq<PageAnswer>)
        returns (err: Option<string>, deletes: seq<string>)
      modifies this
      ensures StartOutcome(err, deletes, PoolOf()) == OnStartOutcome(old(PoolOf()), triggers, loadCookies, pages, env)
      ensures firedAt == old(firedAt) && lastError == old(lastError)
    {
      deletes := [];
      if triggers.TriggersFailed? {
        return Some("load triggers from db failed," + triggers.message), [];
      }
      var results := triggers.results;
      var zero, ids := IndexTriggers(results, env);
      if zero {
        return Some("'id' of trigger is 0?"), [];
      }
      if loadCookies {
        var e, d, _ := LoadCookies(ids, pages, env);
        deletes := d;
        if e.Some? {
          return e, deletes;
        }
      }
      var i := 0;
      while i < |results|
        invariant 0 <= i <= |results|
        invariant PoolOf() == StartEach(old(PoolOf()), results[..i], env)
        invariant firedAt == old(firedAt) && lastError == old(lastError)
      {
        assert results[..i + 1][..i] == results[..i];
        StartJob(results[i]);
        i := i + 1;
      }
      assert results[..i] == results;
      err := None;
    }
  }
}
