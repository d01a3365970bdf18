/**
 * data_store/client.go: the decisions the data-store client makes around
 * its HTTP calls.  A call's answer is a Drivers.Result given as input; the
 * client's checks on it, the snapshot diff, the batching of multi-id
 * lookups and the child filter are modelled.
 */
module DataStoreClient {
  import opened Common
  import Drivers

  /** RecordVersion; time.Time is an ordered instant. */
  datatype RecordVersion = RecordVersion(id: int, createdAt: int, updatedAt: int)

  /** A snapshot table: map[string]*RecordVersion, None standing for nil. */
  type Snapshots = map<string, Option<RecordVersion>>

  // ---------------------------------------------------------------------
  // Result checks
  // ---------------------------------------------------------------------

  /**
   * fmt.Sprint of an id value, for the kinds of ids a server returns.  Any
   * other value, a *string included (Go prints its address), has a text
   * this model does not fix, written "?".
   */
  function Sprint(v: Value): string
  {
    match v
    case Nil => "<nil>"
    case Bool(b) => if b then "true" else "false"
    case Int(i) => IntToString(i)
    case Str(s) => s
    case _ => "?"
  }

  /** What CreateJson returns: the result, the new id and the error. */
  datatype Created = Created(res: Option<Drivers.Result>, id: string, err: Option<AppError>)

  /**
   * CreateJson as written: the server's error is passed on, a nil
   * lastInsertId is an internal error, and so is the string "-1"; any other
   * id is accepted in its printed form.  The "-1" test compares against a
   * string only.
   */
  function CreateJson(res: Drivers.Result): (r: Created)
    ensures res.HasError() ==> r == Created(None, "", res.err)
    ensures !res.HasError() && res.lastInsertId == Nil ==>
              r == Created(None, "", Some(InternalError("lastInsertId is nil")))
    ensures !res.HasError() && res.lastInsertId == Str("-1") ==>
              r == Created(None, "", Some(InternalError("lastInsertId is -1")))
    ensures r.err.None? <==> !res.HasError() && res.lastInsertId != Nil && res.lastInsertId != Str("-1")
    ensures r.err.None? ==> r.res == Some(res) && r.id == Sprint(res.lastInsertId)
  {
    if res.HasError() then Created(None, "", res.err)
    else if res.lastInsertId == Nil then Created(None, "", Some(InternalError("lastInsertId is nil")))
    else if res.lastInsertId == Str("-1") then Created(None, "", Some(InternalError("lastInsertId is -1")))
    else Created(Some(res), Sprint(res.lastInsertId), None)
  }

  /** A numeric -1 id gets through CreateJson and is reported as the id "-1". */
  lemma CreateJsonAcceptsNumericMinusOne(res: Drivers.Result)
    requires !res.HasError() && res.lastInsertId == Int(-1)
    ensures CreateJson(res).err.None? && CreateJson(res).id == "-1"
  {
    assert IntToString(1) == "1";
  }

  /** The check evidently intended: an id that prints as "-1" is rejected whatever its type. */
  function CreateJsonChecked(res: Drivers.Result): (r: Created)
    ensures res.HasError() ==> r == Created(None, "", res.err)
    ensures r.err.None? <==>
              !res.HasError() && res.lastInsertId != Nil && Sprint(res.lastInsertId) != "-1"
    ensures r.err.None? ==> r.res == Some(res) && r.id == Sprint(res.lastInsertId) && r.id != "-1"
  {
    if res.HasError() then Created(None, "", res.err)
    else if res.lastInsertId == Nil then Created(None, "", Some(InternalError("lastInsertId is nil")))
    else if Sprint(res.lastInsertId) == "-1" then Created(None, "", Some(InternalError("lastInsertId is -1")))
    else Created(Some(res), Sprint(res.lastInsertId), None)
  }

  /** The corrected check agrees with CreateJson on everything but a non-string id printing as "-1". */
  lemma CreateJsonCheckedRefines(res: Drivers.Result)
    requires !(res.lastInsertId != Str("-1") && Sprint(res.lastInsertId) == "-1")
    ensures CreateJsonChecked(res) == CreateJson(res)
  {
  }

  /** json.Marshal of a request body: its error message, if it fails (decided by the encoder). */
  function MarshalError(e: string): AppError
  {
    BadRequest("marshal failed, " + e)
  }

  /** The save outcome SaveBy reports from the is_created option. */
  const OutcomeUnknown: string := "unknow"
  const OutcomeNew: string := "new"
  const OutcomeUpdate: string := "update"

  /** Map.GetBoolWithDefault: a bool value, or the default for anything else. */
  function GetBoolWithDefault(m: map<string, Value>, key: string, default: bool): bool
  {
    if key in m && m[key].Bool? then m[key].b else default
  }

  /**
   * SaveBy: posts the body as a save request through CreateJson (the
   * corrected check) and reads the is_created option of the result.
   */
  function SaveBy(marshalErr: Option<string>, res: Drivers.Result): (r: (string, string, Option<AppError>))
    ensures marshalErr.Some? ==> r == ("", OutcomeUnknown, Some(MarshalError(marshalErr.value)))
    ensures marshalErr.None? ==> r.0 == CreateJsonChecked(res).id && r.2 == CreateJsonChecked(res).err
    ensures r.1 == OutcomeNew <==>
              marshalErr.None? && CreateJsonChecked(res).res.Some? && res.HasOptions() &&
              "is_created" in res.options.value && GetBoolWithDefault(res.options.value, "is_created", false)
    ensures r.1 == OutcomeUpdate <==>
              marshalErr.None? && CreateJsonChecked(res).res.Some? && res.HasOptions() &&
              "is_created" in res.options.value && !GetBoolWithDefault(res.options.value, "is_created", false)
    ensures r.1 in {OutcomeUnknown, OutcomeNew, OutcomeUpdate}
  {
    if marshalErr.Some? then ("", OutcomeUnknown, Some(MarshalError(marshalErr.value)))
    else
      var c := CreateJsonChecked(res);
      if c.res.Some? && c.res.value.HasOptions() then
        var opts := c.res.value.options.value;
        if "is_created" !in opts then (c.id, OutcomeUnknown, c.err)
        else if GetBoolWithDefault(opts, "is_created", false) then (c.id, OutcomeNew, c.err)
        else (c.id, OutcomeUpdate, c.err)
      else (c.id, OutcomeUnknown, c.err)
  }

  /** UpdateJson (and DeleteBy): the server's error, an effected count of -1 as an internal error, or the count. */
  function UpdateJson(res: Drivers.Result): (r: (int, Option<AppError>))
    ensures res.HasError() ==> r == (-1, res.err)
    ensures r.1.None? <==> !res.HasError() && res.effected != -1
    ensures r.1.None? ==> r.0 == res.effected
    ensures r.1.Some? ==> r.0 == -1
  {
    if res.HasError() then (-1, res.err)
    else if res.effected == -1 then (-1, Some(InternalError("effected rows is -1")))
    else (res.effected, None)
  }

  /**
   * DeleteBy: the server's error with -1, an effected count of -1 as the
   * internal error "effected rows is -1", or the count; the same check as
   * UpdateJson's.
   */
  function DeleteBy(res: Drivers.Result): (r: (int, Option<AppError>))
    ensures res.HasError() ==> r == (-1, res.err)
    ensures !res.HasError() && res.effected == -1 ==> r == (-1, Some(InternalError("effected rows is -1")))
    ensures !res.HasError() && res.effected != -1 ==> r == (res.effected, None)
    ensures r == UpdateJson(res)
  {
    if res.HasError() then (-1, res.err)
    else if res.effected == -1 then (-1, Some(InternalError("effected rows is -1")))
    else (res.effected, None)
  }

  /** UpdateById: an update must touch exactly one row. */
  function UpdateById(id: string, marshalErr: Option<string>, res: Drivers.Result): (err: Option<AppError>)
    ensures marshalErr.Some? ==> err == Some(MarshalError(marshalErr.value))
    ensures marshalErr.None? ==> (err.None? <==> !res.HasError() && res.effected == 1)
    ensures marshalErr.None? && !res.HasError() && res.effected != 1 && res.effected != -1 ==>
              err == Some(InternalError("update row with id is '" + id + "', effected row is " + IntToString(res.effected)))
  {
    if marshalErr.Some? then Some(MarshalError(marshalErr.value))
    else
      var (c, e) := UpdateJson(res);
      if e.Some? then e
      else if c != 1 then Some(InternalError("update row with id is '" + id + "', effected row is " + IntToString(c)))
      else None
  }

  // ---------------------------------------------------------------------
  // GetRecordVersionFrom
  // ---------------------------------------------------------------------

  datatype VersionResult = NoVersion | Version(v: RecordVersion) | VersionFailed(message: string)

  /**
   * GetRecordVersionFrom: no version when both stamps are nil; otherwise both
   * must convert with commons.AsTime (not part of this model: `asTime`,
   * None for a conversion failure), created_at first.
   */
  function GetRecordVersionFrom(values: map<string, Value>, asTime: Value -> Option<int>): (r: VersionResult)
    ensures r.NoVersion? <==> Lookup(values, "created_at") == Nil && Lookup(values, "updated_at") == Nil
    ensures r.Version? ==> Some(r.v.createdAt) == asTime(Lookup(values, "created_at")) &&
                           Some(r.v.updatedAt) == asTime(Lookup(values, "updated_at")) && r.v.id == 0
    ensures r.VersionFailed? <==> (!r.NoVersion? &&
              (asTime(Lookup(values, "created_at")).None? || asTime(Lookup(values, "updated_at")).None?))
    ensures r.VersionFailed? && asTime(Lookup(values, "created_at")).None? ==>
              r.message == "get 'created_at' failed"
  {
    var t1 := Lookup(values, "created_at");
    var t2 := Lookup(values, "updated_at");
    if t1 == Nil && t2 == Nil then NoVersion
    else if asTime(t1).None? then VersionFailed("get 'created_at' failed")
    else if asTime(t2).None? then VersionFailed("get 'updated_at' failed")
    else Version(RecordVersion(0, asTime(t1).value, asTime(t2).value))
  }

  // ---------------------------------------------------------------------
  // Diff
  // ---------------------------------------------------------------------

  /** Ids among `keys` that Diff reloads as new: unknown before, or known with a nil version. */
  ghost function NewedIn(n: Snapshots, o: Snapshots, keys: set<string>): set<string>
  {
    set id | id in keys && id in n && (id !in o || o[id].None?)
  }

  /** Ids among `keys` whose new version is strictly later than a non-nil old one. */
  ghost function UpdatedIn(n: Snapshots, o: Snapshots, keys: set<string>): set<string>
  {
    set id | id in keys && id in n && id in o && o[id].Some? && n[id].Some? &&
             n[id].value.updatedAt > o[id].value.updatedAt
  }

  /** Diff's three lists as sets: newed, updated, and the old ids that are gone. */
  ghost function Newed(n: Snapshots, o: Snapshots): set<string> { NewedIn(n, o, n.Keys) }
  ghost function Updated(n: Snapshots, o: Snapshots): set<string> { UpdatedIn(n, o, n.Keys) }
  ghost function Deleted(n: Snapshots, o: Snapshots): set<string> { o.Keys - n.Keys }

  /**
   * The three lists partition the changes: they are pairwise disjoint; a
   * new id with a nil version is never reloaded unless the old one is nil
   * too; and an id present on both sides with non-nil versions is in none
   * of them exactly when it did not get newer.
   */
  lemma DiffPartition(n: Snapshots, o: Snapshots, id: string)
    ensures Newed(n, o) !! Updated(n, o) && Newed(n, o) !! Deleted(n, o) && Updated(n, o) !! Deleted(n, o)
    ensures id in n && n[id].None? && id in o && o[id].Some? ==>
              id !in Newed(n, o) && id !in Updated(n, o) && id !in Deleted(n, o)
    ensures id in n && id in o && n[id].Some? && o[id].Some? ==>
              (id in Updated(n, o) <==> n[id].value.updatedAt > o[id].value.updatedAt) && id !in Newed(n, o)
    ensures id in n.Keys + o.Keys && id !in Newed(n, o) + Updated(n, o) + Deleted(n, o) ==>
              id in n && id in o && o[id].Some? &&
              (n[id].None? || n[id].value.updatedAt <= o[id].value.updatedAt)
  {
  }

  lemma DiffStep(n: Snapshots, o: Snapshots, visited: set<string>, id: string)
    ensures NewedIn(n, o, visited + {id}) ==
            NewedIn(n, o, visited) + (if id in n && (id !in o || o[id].None?) then {id} else {})
    ensures UpdatedIn(n, o, visited + {id}) ==
            UpdatedIn(n, o, visited) +
            (if id in n && id in o && o[id].Some? && n[id].Some? && n[id].value.updatedAt > o[id].value.updatedAt
             then {id} else {})
  {
  }

  /** The old snapshot table, which Diff updates in place. */
  class SnapshotTable {
    var versions: Snapshots

    constructor (versions: Snapshots)
      ensures this.versions == versions
    {
      this.versions := versions;
    }

    /**
     * Diff(n, this): each id once, in map order.  Every id of `n` is removed
     * from the table, so afterwards it holds exactly the deleted ids.
     */
    method Diff(n: Snapshots) returns (newed: seq<string>, updated: seq<string>, deleted: seq<string>)
      modifies this
      ensures Seq2Set(newed) == Newed(n, old(versions)) && NoDuplicates(newed)
      ensures Seq2Set(updated) == Updated(n, old(versions)) && NoDuplicates(updated)
      ensures Seq2Set(deleted) == Deleted(n, old(versions)) && NoDuplicates(deleted)
      ensures versions == old(versions) - n.Keys
      ensures versions.Keys == Deleted(n, old(versions))
    {
      newed, updated := Reconcile(n);
      deleted := RemainingIds();
    }

    /** The first loop of Diff: every id of `n` is classified against the table and removed from it. */
    method Reconcile(n: Snapshots) returns (newed: seq<string>, updated: seq<string>)
      modifies this
      ensures Seq2Set(newed) == Newed(n, old(versions)) && NoDuplicates(newed)
      ensures Seq2Set(updated) == Updated(n, old(versions)) && NoDuplicates(updated)
      ensures versions == old(versions) - n.Keys
    {
      newed, updated := [], [];
      ghost var o := versions;
      var rest := n.Keys;
      assert n.Keys - rest == {};
      assert o - {} == o;
      while rest != {}
        invariant ReconcileInv(n, o, rest, versions, newed, updated)
        decreases |rest|
      {
        var id :| id in rest;
        ReconcileStep(n, o, rest, versions, newed, updated, id);
        if id !in versions {
          newed := newed + [id];
        } else {
          var oldVersion := versions[id];
          versions := versions - {id};
          if oldVersion.None? {
            newed := newed + [id];
          } else if n[id].Some? && n[id].value.updatedAt > oldVersion.value.updatedAt {
            updated := updated + [id];
          }
        }
        rest := rest - {id};
      }
      assert n.Keys - rest == n.Keys;
    }

    /** The second loop of Diff: what is left in the table is deleted. */
    method RemainingIds() returns (deleted: seq<string>)
      ensures Seq2Set(deleted) == versions.Keys && NoDuplicates(deleted)
    {
      deleted := [];
      var left := versions.Keys;
      while left != {}
        invariant left <= versions.Keys
        invariant Seq2Set(deleted) == versions.Keys - left && NoDuplicates(deleted)
        decreases |left|
      {
        var id :| id in left;
        AppendFresh(deleted, id);
        deleted := deleted + [id];
        left := left - {id};
      }
    }
  }

  /** The state of Diff's first loop with `rest` still to visit. */
  ghost predicate ReconcileInv(n: Snapshots, o: Snapshots, rest: set<string>, cur: Snapshots,
                               newed: seq<string>, updated: seq<string>)
  {
    rest <= n.Keys && cur == o - (n.Keys - rest) &&
    Seq2Set(newed) == NewedIn(n, o, n.Keys - rest) && NoDuplicates(newed) &&
    Seq2Set(updated) == UpdatedIn(n, o, n.Keys - rest) && NoDuplicates(updated)
  }

  /** One id of Diff's first loop, in each of its four cases. */
  lemma ReconcileStep(n: Snapshots, o: Snapshots, rest: set<string>, cur: Snapshots,
                      newed: seq<string>, updated: seq<string>, id: string)
    requires ReconcileInv(n, o, rest, cur, newed, updated) && id in rest
    ensures id !in cur ==> ReconcileInv(n, o, rest - {id}, cur, newed + [id], updated)
    ensures id in cur && cur[id].None? ==> ReconcileInv(n, o, rest - {id}, cur - {id}, newed + [id], updated)
    ensures id in cur && cur[id].Some? && n[id].Some? && n[id].value.updatedAt > cur[id].value.updatedAt ==>
              ReconcileInv(n, o, rest - {id}, cur - {id}, newed, updated + [id])
    ensures id in cur && cur[id].Some? && !(n[id].Some? && n[id].value.updatedAt > cur[id].value.updatedAt) ==>
              ReconcileInv(n, o, rest - {id}, cur - {id}, newed, updated)
  {
    var visited := n.Keys - rest;
    DiffStep(n, o, visited, id);
    RemoveStep(o, n.Keys, rest, visited, id);
    AppendFresh(newed, id);
    AppendFresh(updated, id);
  }

  /** Moving one id from `rest` to `visited` keeps the table equal to the old one minus `visited`. */
  lemma RemoveStep(o: Snapshots, keys: set<string>, rest: set<string>, visited: set<string>, id: string)
    requires id in rest && rest <= keys && visited == keys - rest
    ensures visited + {id} == keys - (rest - {id})
    ensures o - (visited + {id}) == (o - visited) - {id}
    ensures id !in o - visited ==> (o - visited) - {id} == o - visited
    ensures id in o - visited <==> id in o
  {
  }

  /** Appending an element not yet present keeps a list duplicate-free. */
  lemma AppendFresh(s: seq<string>, x: string)
    ensures Seq2Set(s + [x]) == Seq2Set(s) + {x}
    ensures NoDuplicates(s) && x !in Seq2Set(s) ==> NoDuplicates(s + [x])
  {
  }

  // ---------------------------------------------------------------------
  // EachByMultIdWithIncludes
  // ---------------------------------------------------------------------

  const BatchSize: nat := 100

  /** The id slices EachByMultIdWithIncludes requests: 100 at a time, then the rest (possibly empty). */
  function Batches(ids: seq<string>): (bs: seq<seq<string>>)
    ensures |bs| > 0
    decreases |ids|
  {
    if |ids| <= BatchSize then [ids] else [ids[..BatchSize]] + Batches(ids[BatchSize..])
  }

  function Concat(bs: seq<seq<string>>): seq<string>
  {
    if |bs| == 0 then [] else bs[0] + Concat(bs[1..])
  }

  /**
   * The slices cover the list in order; every slice but the last holds
   * exactly 100 ids and the last at most 100, and it is empty only for an
   * empty list.
   */
  lemma {:induction false} BatchesCover(ids: seq<string>)
    ensures Concat(Batches(ids)) == ids
    ensures forall k | 0 <= k < |Batches(ids)| - 1 :: |Batches(ids)[k]| == BatchSize
    ensures 0 < |Last(Batches(ids))| <= BatchSize || ids == []
    ensures |Last(Batches(ids))| <= BatchSize
    decreases |ids|
  {
    if |ids| > BatchSize {
      BatchesCover(ids[BatchSize..]);
      var bs := Batches(ids);
      assert bs[1..] == Batches(ids[BatchSize..]);
      assert ids == ids[..BatchSize] + ids[BatchSize..];
      forall k | 0 <= k < |bs| - 1 ensures |bs[k]| == BatchSize {
        if k > 0 {
          assert bs[k] == Batches(ids[BatchSize..])[k - 1];
        }
      }
    }
  }

  function Last<T>(s: seq<T>): T
    requires |s| > 0
  {
    s[|s| - 1]
  }

  /** What FindByMultIdWithIncludes answers for one slice: rows, or an error. */
  datatype Fetched = Rows(rows: seq<map<string, Value>>) | FetchFailed(err: AppError)

  datatype Walked = Walked(requests: seq<seq<string>>, visited: seq<map<string, Value>>, err: Option<AppError>)

  /** The slices are fetched in order; each row is handed to the callback; the first error stops the walk. */
  function Walk(bs: seq<seq<string>>, fetch: seq<string> -> Fetched): (w: Walked)
    ensures |w.requests| <= |bs| && w.requests == bs[..|w.requests|]
    ensures w.err.None? ==> w.requests == bs
    ensures w.err.Some? ==> |w.requests| > 0 && fetch(Last(w.requests)).FetchFailed?
    decreases |bs|
  {
    if |bs| == 0 then Walked([], [], None)
    else
      var f := fetch(bs[0]);
      if f.FetchFailed? then Walked([bs[0]], [], Some(f.err))
      else
        var rest := Walk(bs[1..], fetch);
        Walked([bs[0]] + rest.requests, f.rows + rest.visited, rest.err)
  }

  /**
   * EachByMultIdWithIncludes: `requests` are the slices asked for, `visited`
   * the rows passed to the callback, in order.
   */
  method EachByMultId(ids: seq<string>, fetch: seq<string> -> Fetched)
    returns (requests: seq<seq<string>>, visited: seq<map<string, Value>>, err: Option<AppError>)
    ensures Walked(requests, visited, err) == Walk(Batches(ids), fetch)
  {
    var offset;
    requests, visited, offset, err := FullBatches(ids, fetch);
    if err.Some? {
      return;
    }
    WalkLast(ids, offset, fetch, requests, visited);
    var slice := ids[offset..];
    var f := fetch(slice);
    requests := requests + [slice];
    if f.FetchFailed? {
      return requests, visited, Some(f.err);
    }
    visited := visited + f.rows;
  }

  /** The loop of EachByMultIdWithIncludes: full slices of 100 while more than 100 ids are left. */
  method FullBatches(ids: seq<string>, fetch: seq<string> -> Fetched)
    returns (requests: seq<seq<string>>, visited: seq<map<string, Value>>, offset: nat, err: Option<AppError>)
    ensures err.Some? ==> Walked(requests, visited, err) == Walk(Batches(ids), fetch)
    ensures err.None? ==>
              offset <= |ids| <= offset + BatchSize &&
              Walk(Batches(ids), fetch) == Prepend(requests, visited, Walk(Batches(ids[offset..]), fetch))
  {
    requests, visited := [], [];
    offset := 0;
    while offset + BatchSize < |ids|
      invariant 0 <= offset <= |ids|
      invariant Walk(Batches(ids), fetch) == Prepend(requests, visited, Walk(Batches(ids[offset..]), fetch))
      decreases |ids| - offset
    {
      var slice := ids[offset..offset + BatchSize];
      WalkBatch(ids, offset, fetch, requests, visited);
      var f := fetch(slice);
      if f.FetchFailed? {
        return requests + [slice], visited, offset, Some(f.err);
      }
      requests := requests + [slice];
      visited := visited + f.rows;
      offset := offset + BatchSize;
    }
    err := None;
  }

  /** The walk so far, followed by the walk of the rest. */
  function Prepend(requests: seq<seq<string>>, visited: seq<map<string, Value>>, w: Walked): Walked
  {
    Walked(requests + w.requests, visited + w.visited, w.err)
  }

  /** One full slice of the loop of EachByMultIdWithIncludes, as Walk sees it. */
  lemma WalkBatch(ids: seq<string>, offset: nat, fetch: seq<string> -> Fetched,
                  requests: seq<seq<string>>, visited: seq<map<string, Value>>)
    requires offset + BatchSize < |ids|
    ensures var slice := ids[offset..offset + BatchSize];
            var f := fetch(slice);
            var whole := Prepend(requests, visited, Walk(Batches(ids[offset..]), fetch));
            (f.FetchFailed? ==> whole == Walked(requests + [slice], visited, Some(f.err))) &&
            (f.Rows? ==> whole == Prepend(requests + [slice], visited + f.rows,
                                          Walk(Batches(ids[offset + BatchSize..]), fetch)))
  {
    var slice := ids[offset..offset + BatchSize];
    assert ids[offset..][..BatchSize] == slice;
    assert ids[offset..][BatchSize..] == ids[offset + BatchSize..];
    var f := fetch(slice);
    if f.Rows? {
      var rest := Walk(Batches(ids[offset + BatchSize..]), fetch);
      assert requests + ([slice] + rest.requests) == (requests + [slice]) + rest.requests;
      assert visited + (f.rows + rest.visited) == (visited + f.rows) + rest.visited;
    }
  }

  /** The final slice of EachByMultIdWithIncludes, as Walk sees it. */
  lemma WalkLast(ids: seq<string>, offset: nat, fetch: seq<string> -> Fetched,
                 requests: seq<seq<string>>, visited: seq<map<string, Value>>)
    requires offset <= |ids| && |ids| <= offset + BatchSize
    ensures var slice := ids[offset..];
            var f := fetch(slice);
            var whole := Prepend(requests, visited, Walk(Batches(ids[offset..]), fetch));
            (f.FetchFailed? ==> whole == Walked(requests + [slice], visited, Some(f.err))) &&
            (f.Rows? ==> whole == Walked(requests + [slice], visited + f.rows, None))
  {
    var slice := ids[offset..];
    assert Batches(slice) == [slice];
    assert Walk([slice][1..], fetch) == Walked([], [], None);
  }

  // ---------------------------------------------------------------------
  // GetChildrenForm
  // ---------------------------------------------------------------------

  /** commons.IsMatch against a set of matchers (not part of this model); None is a nil matcher set. */
  type Matchers = Option<map<string, Value> -> bool>

  predicate Accepts(matchers: Matchers, m: map<string, Value>)
  {
    matchers.None? || matchers.value(m)
  }

  /** The maps of a []interface{} that the matchers accept, in order. */
  function MatchingItems(items: seq<Value>, matchers: Matchers): (r: seq<map<string, Value>>)
    ensures |r| <= |items|
    decreases |items|
  {
    if |items| == 0 then []
    else
      var init := MatchingItems(items[..|items| - 1], matchers);
      var v := items[|items| - 1];
      if v.Obj? && Accepts(matchers, v.fields) then init + [v.fields] else init
  }

  /** The maps of a []map that the matchers accept, in order. */
  function MatchingMaps(objs: seq<map<string, Value>>, matchers: Matchers): (r: seq<map<string, Value>>)
    ensures |r| <= |objs|
    decreases |objs|
  {
    if |objs| == 0 then []
    else
      var init := MatchingMaps(objs[..|objs| - 1], matchers);
      if Accepts(matchers, objs[|objs| - 1]) then init + [objs[|objs| - 1]] else init
  }

  /** Filtering keeps exactly the accepted maps: each result is one of the inputs and is accepted. */
  lemma {:induction false} MatchingMapsSound(objs: seq<map<string, Value>>, matchers: Matchers)
    ensures forall m | m in MatchingMaps(objs, matchers) :: m in objs && Accepts(matchers, m)
    ensures forall m | m in objs && Accepts(matchers, m) :: m in MatchingMaps(objs, matchers)
    ensures matchers.None? ==> MatchingMaps(objs, matchers) == objs
    decreases |objs|
  {
    if |objs| > 0 {
      var init := objs[..|objs| - 1];
      MatchingMapsSound(init, matchers);
      assert objs == init + [objs[|objs| - 1]];
    }
  }

  /**
   * GetChildrenForm as written: for a []map with matchers the filtered list
   * is built and then dropped, so the answer is nil.
   */
  method GetChildrenForm(instance: Value, matchers: Matchers) returns (r: seq<map<string, Value>>)
    ensures instance.Nil? ==> r == []
    ensures instance.Obj? ==> r == (if Accepts(matchers, instance.fields) then [instance.fields] else [])
    ensures instance.List? ==> r == MatchingItems(instance.items, matchers)
    ensures instance.ObjList? ==> r == (if matchers.None? then instance.objs else [])
    ensures !(instance.Nil? || instance.Obj? || instance.List? || instance.ObjList?) ==> r == []
  {
    if instance.Nil? {
      return [];
    }
    if instance.Obj? {
      if Accepts(matchers, instance.fields) {
        return [instance.fields];
      }
      return [];
    }
    if instance.List? {
      r := FilterItems(instance.items, matchers);
      return;
    }
    if instance.ObjList? {
      if matchers.None? {
        return instance.objs;
      }
      var filtered := FilterMaps(instance.objs, matchers);
    }
    return [];
  }

  /** The []map case of GetChildrenForm keeps nothing when matchers are given, even accepted maps. */
  lemma GetChildrenFormDropsMatches(objs: seq<map<string, Value>>, m: map<string, Value> -> bool)
    requires |objs| > 0 && m(objs[0])
    ensures |MatchingMaps(objs, Some(m))| > 0
  {
    MatchingMapsSound(objs, Some(m));
    assert objs[0] in objs;
  }

  /** GetChildrenForm as evidently intended: the []map case answers the filtered list. */
  method GetChildrenFormFixed(instance: Value, matchers: Matchers) returns (r: seq<map<string, Value>>)
    ensures instance.Nil? ==> r == []
    ensures instance.Obj? ==> r == (if Accepts(matchers, instance.fields) then [instance.fields] else [])
    ensures instance.List? ==> r == MatchingItems(instance.items, matchers)
    ensures instance.ObjList? ==> r == MatchingMaps(instance.objs, matchers)
    ensures !(instance.Nil? || instance.Obj? || instance.List? || instance.ObjList?) ==> r == []
  {
    if instance.Nil? {
      return [];
    }
    if instance.Obj? {
      if Accepts(matchers, instance.fields) {
        return [instance.fields];
      }
      return [];
    }
    if instance.List? {
      r := FilterItems(instance.items, matchers);
      return;
    }
    if instance.ObjList? {
      if matchers.None? {
        MatchingMapsSound(instance.objs, matchers);
        return instance.objs;
      }
      r := FilterMaps(instance.objs, matchers);
      return;
    }
    return [];
  }

  method FilterItems(items: seq<Value>, matchers: Matchers) returns (r: seq<map<string, Value>>)
    ensures r == MatchingItems(items, matchers)
  {
    r := [];
    var i := 0;
    while i < |items|
      invariant 0 <= i <= |items|
      invariant r == MatchingItems(items[..i], matchers)
    {
      assert items[..i + 1][..i] == items[..i];
      if items[i].Obj? && Accepts(matchers, items[i].fields) {
        r := r + [items[i].fields];
      }
      i := i + 1;
    }
    assert items[..|items|] == items;
  }

  method FilterMaps(objs: seq<map<string, Value>>, matchers: Matchers) returns (r: seq<map<string, Value>>)
    ensures r == MatchingMaps(objs, matchers)
  {
    r := [];
    var i := 0;
    while i < |objs|
      invariant 0 <= i <= |objs|
      invariant r == MatchingMaps(objs[..i], matchers)
    {
      assert objs[..i + 1][..i] == objs[..i];
      if Accepts(matchers, objs[i]) {
        r := r + [objs[i]];
      }
      i := i + 1;
    }
    assert objs[..|objs|] == objs;
  }
}
