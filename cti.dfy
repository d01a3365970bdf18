/**
 * data_store/cti_policy.go, default_cti_policy: class-table inheritance
 * over a tree of table definitions.  Every operation asks the simple
 * driver about the table itself (unless it is abstract) and then asks the
 * policy again, through its `cti` driver, about each child in order.  The
 * simple driver's answers are oracles; the `cti` driver is the policy.
 *
 * Each operation is a recursive method with the source's loop over the
 * children, proved equal to a recursive specification, and each
 * specification is proved equal to a flat reference over the concrete
 * tables of the tree in pre-order.
 */
module CtiPolicy {
  import opened Common

  /** A table definition: its name, whether it is abstract, and its own children in order. */
  datatype Table = Table(name: string, isAbstract: bool, children: seq<Table>)

  /** sql.ErrNoRows, or any other database error. */
  datatype DbError = ErrNoRows | DbFailed(message: string)

  datatype Outcome<T> = Ok(value: T) | Err(error: DbError)

  type Row = map<string, Value>
  type Params = map<string, string>

  /** What the simple driver answers for each operation on one table. */
  datatype SimpleDriver = SimpleDriver(
    insert: (Table, Row) -> Outcome<int>,
    count: (Table, Params) -> Outcome<int>,
    snapshot: (Table, Params) -> Rows,
    find: (Table, Params) -> Rows,
    findById: (Table, Value) -> Outcome<Row>,
    update: (Table, Params, Row) -> Outcome<int>,
    updateById: (Table, Value, Row) -> Outcome<bool>,
    delete: (Table, Params) -> Outcome<int>,
    deleteById: (Table, Value) -> Outcome<bool>,
    forEach: (Table, Params) -> Option<DbError>)

  /** A query answering rows: the rows, and an error that may be sql.ErrNoRows. */
  datatype Rows = Rows(rows: seq<Row>, err: Option<DbError>)

  // ---------------------------------------------------------------------
  // The concrete tables of a tree, in the order the policy visits them
  // ---------------------------------------------------------------------

  /** The non-abstract tables of the tree: the table first, then each child's tree in order. */
  function Concrete(t: Table): seq<Table>
    decreases t, |t.children| + 1
  {
    (if t.isAbstract then [] else [t]) + ConcreteFrom(t, 0)
  }

  function ConcreteFrom(t: Table, i: nat): seq<Table>
    requires i <= |t.children|
    decreases t, |t.children| - i
  {
    if i == |t.children| then [] else Concrete(t.children[i]) + ConcreteFrom(t, i + 1)
  }

  /** An abstract table is never queried: it is not among the concrete tables. */
  lemma {:induction false} ConcreteNotAbstract(t: Table)
    ensures forall k | 0 <= k < |Concrete(t)| :: !Concrete(t)[k].isAbstract
    ensures t.isAbstract <==> t !in Concrete(t)
    ensures !t.isAbstract ==> Concrete(t)[0] == t
    decreases t, |t.children| + 1
  {
    ConcreteFromNotAbstract(t, 0);
    if t.isAbstract {
      assert t !in ConcreteFrom(t, 0);
    }
  }

  lemma {:induction false} ConcreteFromNotAbstract(t: Table, i: nat)
    requires i <= |t.children|
    ensures forall k | 0 <= k < |ConcreteFrom(t, i)| :: !ConcreteFrom(t, i)[k].isAbstract
    ensures t !in ConcreteFrom(t, i)
    decreases t, |t.children| - i
  {
    if i < |t.children| {
      ConcreteNotAbstract(t.children[i]);
      ConcreteFromNotAbstract(t, i + 1);
      assert t.children[i] < t;
      forall n | n in Concrete(t.children[i]) ensures n != t {
        NodesBelow(t.children[i], n);
      }
    }
  }

  /** Every concrete table of a tree is the tree itself or inside it. */
  lemma {:induction false} NodesBelow(t: Table, n: Table)
    requires n in Concrete(t)
    ensures n == t || n < t
    decreases t, |t.children| + 1
  {
    if n != t {
      assert n in ConcreteFrom(t, 0);
      NodesBelowFrom(t, 0, n);
    }
  }

  lemma {:induction false} NodesBelowFrom(t: Table, i: nat, n: Table)
    requires i <= |t.children| && n in ConcreteFrom(t, i)
    ensures n < t
    decreases t, |t.children| - i
  {
    if n in Concrete(t.children[i]) {
      NodesBelow(t.children[i], n);
      assert t.children[i] < t;
    } else {
      NodesBelowFrom(t, i + 1, n);
    }
  }

  // ---------------------------------------------------------------------
  // count, update, delete: own total plus the children's totals
  // ---------------------------------------------------------------------

  /** The total of count/update/delete: any error stops it. */
  function TotalOf(t: Table, q: Table -> Outcome<int>): Outcome<int>
    decreases t, |t.children| + 1
  {
    var own := if t.isAbstract then Ok(0) else q(t);
    if own.Err? then own else TotalChildren(t, 0, own.value, q)
  }

  function TotalChildren(t: Table, i: nat, acc: int, q: Table -> Outcome<int>): Outcome<int>
    requires i <= |t.children|
    decreases t, |t.children| - i
  {
    if i == |t.children| then Ok(acc)
    else
      var r := TotalOf(t.children[i], q);
      if r.Err? then r else TotalChildren(t, i + 1, acc + r.value, q)
  }

  /** Reference: the answers of the concrete tables summed in order, stopping at the first error. */
  function SumAll(nodes: seq<Table>, acc: int, q: Table -> Outcome<int>): Outcome<int>
    decreases |nodes|
  {
    if |nodes| == 0 then Ok(acc)
    else
      var r := q(nodes[0]);
      if r.Err? then r else SumAll(nodes[1..], acc + r.value, q)
  }

  lemma {:induction false} SumAllShift(nodes: seq<Table>, acc: int, q: Table -> Outcome<int>)
    ensures SumAll(nodes, acc, q).Err? <==> SumAll(nodes, 0, q).Err?
    ensures SumAll(nodes, acc, q).Err? ==> SumAll(nodes, acc, q) == SumAll(nodes, 0, q)
    ensures SumAll(nodes, acc, q).Ok? ==> SumAll(nodes, acc, q).value == acc + SumAll(nodes, 0, q).value
    decreases |nodes|
  {
    if |nodes| > 0 && q(nodes[0]).Ok? {
      SumAllShift(nodes[1..], acc + q(nodes[0]).value, q);
      SumAllShift(nodes[1..], q(nodes[0]).value, q);
    }
  }

  lemma {:induction false} SumAllAppend(xs: seq<Table>, ys: seq<Table>, acc: int, q: Table -> Outcome<int>)
    ensures SumAll(xs + ys, acc, q) ==
            (var r := SumAll(xs, acc, q); if r.Err? then r else SumAll(ys, r.value, q))
    decreases |xs|
  {
    if |xs| > 0 {
      assert (xs + ys)[1..] == xs[1..] + ys;
      if q(xs[0]).Ok? {
        SumAllAppend(xs[1..], ys, acc + q(xs[0]).value, q);
      }
    } else {
      assert xs + ys == ys;
    }
  }

  /**
   * count, update and delete total the own table and every descendant:
   * the sum of the concrete tables' answers in pre-order, or the first error.
   */
  lemma {:induction false} TotalIsSum(t: Table, q: Table -> Outcome<int>)
    ensures TotalOf(t, q) == SumAll(Concrete(t), 0, q)
    decreases t, |t.children| + 1
  {
    TotalChildrenIsSum(t, 0, 0, q);
    if t.isAbstract {
      assert Concrete(t) == ConcreteFrom(t, 0);
    } else {
      assert [t][1..] == [];
      SumAllAppend([t], ConcreteFrom(t, 0), 0, q);
      if q(t).Ok? {
        TotalChildrenIsSum(t, 0, q(t).value, q);
      }
    }
  }

  lemma {:induction false} TotalChildrenIsSum(t: Table, i: nat, acc: int, q: Table -> Outcome<int>)
    requires i <= |t.children|
    ensures TotalChildren(t, i, acc, q) == SumAll(ConcreteFrom(t, i), acc, q)
    decreases t, |t.children| - i
  {
    if i < |t.children| {
      var c := t.children[i];
      TotalIsSum(c, q);
      SumAllAppend(Concrete(c), ConcreteFrom(t, i + 1), acc, q);
      SumAllShift(Concrete(c), acc, q);
      if TotalOf(c, q).Ok? {
        TotalChildrenIsSum(t, i + 1, acc + TotalOf(c, q).value, q);
      }
    }
  }

  /** The loop of count/update/delete, recursing through the cti driver for each child. */
  method Total(t: Table, q: Table -> Outcome<int>) returns (r: Outcome<int>)
    ensures r == TotalOf(t, q)
    decreases t
  {
    var all := 0;
    if !t.isAbstract {
      var single := q(t);
      if single.Err? {
        return single;
      }
      all := single.value;
    }
    var i := 0;
    while i < |t.children|
      invariant 0 <= i <= |t.children|
      invariant TotalOf(t, q) == TotalChildren(t, i, all, q)
    {
      var single := Total(t.children[i], q);
      if single.Err? {
        return single;
      }
      all := all + single.value;
      i := i + 1;
    }
    r := Ok(all);
  }

  method Count(t: Table, params: Params, simple: SimpleDriver) returns (r: Outcome<int>)
    ensures r == SumAll(Concrete(t), 0, (n: Table) => simple.count(n, params))
  {
    r := Total(t, (n: Table) => simple.count(n, params));
    TotalIsSum(t, (n: Table) => simple.count(n, params));
  }

  method Update(t: Table, params: Params, attributes: Row, simple: SimpleDriver) returns (r: Outcome<int>)
    ensures r == SumAll(Concrete(t), 0, (n: Table) => simple.update(n, params, attributes))
  {
    r := Total(t, (n: Table) => simple.update(n, params, attributes));
    TotalIsSum(t, (n: Table) => simple.update(n, params, attributes));
  }

  method Delete(t: Table, params: Params, simple: SimpleDriver) returns (r: Outcome<int>)
    ensures r == SumAll(Concrete(t), 0, (n: Table) => simple.delete(n, params))
  {
    r := Total(t, (n: Table) => simple.delete(n, params));
    TotalIsSum(t, (n: Table) => simple.delete(n, params));
  }

  // ---------------------------------------------------------------------
  // find, snapshot: own rows followed by the children's rows
  // ---------------------------------------------------------------------

  /** sql.ErrNoRows is tolerated: the rows answered with it are kept. */
  predicate Tolerated(e: Option<DbError>) { e.None? || e.value.ErrNoRows? }

  function CollectOf(t: Table, q: Table -> Rows): Outcome<seq<Row>>
    decreases t, |t.children| + 1
  {
    var own := if t.isAbstract then Rows([], None) else q(t);
    if !Tolerated(own.err) then Err(own.err.value) else CollectChildren(t, 0, own.rows, q)
  }

  function CollectChildren(t: Table, i: nat, acc: seq<Row>, q: Table -> Rows): Outcome<seq<Row>>
    requires i <= |t.children|
    decreases t, |t.children| - i
  {
    if i == |t.children| then Ok(acc)
    else
      var r := CollectOf(t.children[i], q);
      if r.Err? then r else CollectChildren(t, i + 1, acc + r.value, q)
  }

  /** Reference: the rows of the concrete tables concatenated in order, stopping at the first real error. */
  function ConcatAll(nodes: seq<Table>, acc: seq<Row>, q: Table -> Rows): Outcome<seq<Row>>
    decreases |nodes|
  {
    if |nodes| == 0 then Ok(acc)
    else
      var r := q(nodes[0]);
      if !Tolerated(r.err) then Err(r.err.value) else ConcatAll(nodes[1..], acc + r.rows, q)
  }

  lemma {:induction false} ConcatAllShift(nodes: seq<Table>, acc: seq<Row>, q: Table -> Rows)
    ensures ConcatAll(nodes, acc, q).Err? <==> ConcatAll(nodes, [], q).Err?
    ensures ConcatAll(nodes, acc, q).Err? ==> ConcatAll(nodes, acc, q) == ConcatAll(nodes, [], q)
    ensures ConcatAll(nodes, acc, q).Ok? ==> ConcatAll(nodes, acc, q).value == acc + ConcatAll(nodes, [], q).value
    decreases |nodes|
  {
    if |nodes| > 0 && Tolerated(q(nodes[0]).err) {
      var rows := q(nodes[0]).rows;
      ConcatAllShift(nodes[1..], acc + rows, q);
      ConcatAllShift(nodes[1..], rows, q);
      assert [] + rows == rows;
      if ConcatAll(nodes, acc, q).Ok? {
        assert acc + rows + ConcatAll(nodes[1..], [], q).value == acc + (rows + ConcatAll(nodes[1..], [], q).value);
      }
    }
  }

  lemma {:induction false} ConcatAllAppend(xs: seq<Table>, ys: seq<Table>, acc: seq<Row>, q: Table -> Rows)
    ensures ConcatAll(xs + ys, acc, q) ==
            (var r := ConcatAll(xs, acc, q); if r.Err? then r else ConcatAll(ys, r.value, q))
    decreases |xs|
  {
    if |xs| > 0 {
      assert (xs + ys)[1..] == xs[1..] + ys;
      if Tolerated(q(xs[0]).err) {
        ConcatAllAppend(xs[1..], ys, acc + q(xs[0]).rows, q);
      }
    } else {
      assert xs + ys == ys;
    }
  }

  /** find and snapshot answer the concrete tables' rows in pre-order, or the first error that is not ErrNoRows. */
  lemma {:induction false} CollectIsConcat(t: Table, q: Table -> Rows)
    ensures CollectOf(t, q) == ConcatAll(Concrete(t), [], q)
    decreases t, |t.children| + 1
  {
    CollectChildrenIsConcat(t, 0, [], q);
    if t.isAbstract {
      assert Concrete(t) == ConcreteFrom(t, 0);
    } else {
      assert [t][1..] == [];
      ConcatAllAppend([t], ConcreteFrom(t, 0), [], q);
      if Tolerated(q(t).err) {
        assert [] + q(t).rows == q(t).rows;
        CollectChildrenIsConcat(t, 0, q(t).rows, q);
      }
    }
  }

  lemma {:induction false} CollectChildrenIsConcat(t: Table, i: nat, acc: seq<Row>, q: Table -> Rows)
    requires i <= |t.children|
    ensures CollectChildren(t, i, acc, q) == ConcatAll(ConcreteFrom(t, i), acc, q)
    decreases t, |t.children| - i
  {
    if i < |t.children| {
      var c := t.children[i];
      CollectIsConcat(c, q);
      ConcatAllAppend(Concrete(c), ConcreteFrom(t, i + 1), acc, q);
      ConcatAllShift(Concrete(c), acc, q);
      if CollectOf(c, q).Ok? {
        CollectChildrenIsConcat(t, i + 1, acc + CollectOf(c, q).value, q);
      }
    }
  }

  /** The loop of find/snapshot, recursing through the cti driver for each child. */
  method Collect(t: Table, q: Table -> Rows) returns (r: Outcome<seq<Row>>)
    ensures r == CollectOf(t, q)
    decreases t
  {
    var results: seq<Row> := [];
    if !t.isAbstract {
      var own := q(t);
      if !Tolerated(own.err) {
        return Err(own.err.value);
      }
      results := own.rows;
    }
    var i := 0;
    while i < |t.children|
      invariant 0 <= i <= |t.children|
      invariant CollectOf(t, q) == CollectChildren(t, i, results, q)
    {
      var single := Collect(t.children[i], q);
      if single.Err? {
        return single;
      }
      results := results + single.value;
      i := i + 1;
    }
    return Ok(results);
  }

  method Find(t: Table, params: Params, simple: SimpleDriver) returns (r: Outcome<seq<Row>>)
    ensures r == ConcatAll(Concrete(t), [], (n: Table) => simple.find(n, params))
  {
    r := Collect(t, (n: Table) => simple.find(n, params));
    CollectIsConcat(t, (n: Table) => simple.find(n, params));
  }

  method Snapshot(t: Table, params: Params, simple: SimpleDriver) returns (r: Outcome<seq<Row>>)
    ensures r == ConcatAll(Concrete(t), [], (n: Table) => simple.snapshot(n, params))
  {
    r := Collect(t, (n: Table) => simple.snapshot(n, params));
    CollectIsConcat(t, (n: Table) => simple.snapshot(n, params));
  }

  // ---------------------------------------------------------------------
  // findById, updateById, deleteById: the first table that has the id
  // ---------------------------------------------------------------------

  /** A search continues past a table only when that table reports ErrNoRows. */
  predicate Stops<T>(r: Outcome<T>) { r.Ok? || !r.error.ErrNoRows? }

  function SearchOf<T>(t: Table, q: Table -> Outcome<T>): Outcome<T>
    decreases t, |t.children| + 1
  {
    if !t.isAbstract && Stops(q(t)) then q(t) else SearchChildren(t, 0, q)
  }

  function SearchChildren<T>(t: Table, i: nat, q: Table -> Outcome<T>): Outcome<T>
    requires i <= |t.children|
    decreases t, |t.children| - i
  {
    if i == |t.children| then Err(ErrNoRows)
    else
      var r := SearchOf(t.children[i], q);
      if Stops(r) then r else SearchChildren(t, i + 1, q)
  }

  /** Reference: the first concrete table, in order, whose answer is not ErrNoRows; ErrNoRows when there is none. */
  function FirstAnswer<T>(nodes: seq<Table>, q: Table -> Outcome<T>): Outcome<T>
    decreases |nodes|
  {
    if |nodes| == 0 then Err(ErrNoRows)
    else if Stops(q(nodes[0])) then q(nodes[0])
    else FirstAnswer(nodes[1..], q)
  }

  lemma {:induction false} FirstAnswerAppend<T>(xs: seq<Table>, ys: seq<Table>, q: Table -> Outcome<T>)
    ensures FirstAnswer(xs + ys, q) == (if Stops(FirstAnswer(xs, q)) then FirstAnswer(xs, q) else FirstAnswer(ys, q))
    decreases |xs|
  {
    if |xs| > 0 {
      assert (xs + ys)[1..] == xs[1..] + ys;
      FirstAnswerAppend(xs[1..], ys, q);
    } else {
      assert xs + ys == ys;
    }
  }

  /** ErrNoRows comes back exactly when every concrete table answered ErrNoRows. */
  lemma {:induction false} FirstAnswerNoRows<T>(nodes: seq<Table>, q: Table -> Outcome<T>)
    ensures !Stops(FirstAnswer(nodes, q)) <==> forall k | 0 <= k < |nodes| :: q(nodes[k]) == Err(ErrNoRows)
    ensures Stops(FirstAnswer(nodes, q)) ==> exists k | 0 <= k < |nodes| :: FirstAnswer(nodes, q) == q(nodes[k])
    decreases |nodes|
  {
    if |nodes| > 0 {
      FirstAnswerNoRows(nodes[1..], q);
      if !Stops(q(nodes[0])) {
        assert q(nodes[0]) == Err(ErrNoRows);
        forall k | 1 <= k < |nodes| ensures nodes[1..][k - 1] == nodes[k] { }
        if Stops(FirstAnswer(nodes, q)) {
          var k :| 0 <= k < |nodes[1..]| && FirstAnswer(nodes[1..], q) == q(nodes[1..][k]);
          assert FirstAnswer(nodes, q) == q(nodes[k + 1]);
        }
      }
    }
  }

  /** findById, updateById and deleteById answer the first concrete table, in pre-order, that does not report ErrNoRows. */
  lemma {:induction false} SearchIsFirst<T>(t: Table, q: Table -> Outcome<T>)
    ensures SearchOf(t, q) == FirstAnswer(Concrete(t), q)
    decreases t, |t.children| + 1
  {
    SearchChildrenIsFirst(t, 0, q);
    if t.isAbstract {
      assert Concrete(t) == ConcreteFrom(t, 0);
    } else {
      assert [t][1..] == [];
      FirstAnswerAppend([t], ConcreteFrom(t, 0), q);
    }
  }

  lemma {:induction false} SearchChildrenIsFirst<T>(t: Table, i: nat, q: Table -> Outcome<T>)
    requires i <= |t.children|
    ensures SearchChildren(t, i, q) == FirstAnswer(ConcreteFrom(t, i), q)
    decreases t, |t.children| - i
  {
    if i < |t.children| {
      SearchIsFirst(t.children[i], q);
      SearchChildrenIsFirst(t, i + 1, q);
      FirstAnswerAppend(Concrete(t.children[i]), ConcreteFrom(t, i + 1), q);
    }
  }

  /** The loop of findById/updateById/deleteById, recursing through the cti driver for each child. */
  method Search<T>(t: Table, q: Table -> Outcome<T>) returns (r: Outcome<T>)
    ensures r == SearchOf(t, q)
    decreases t
  {
    if !t.isAbstract {
      var own := q(t);
      if own.Ok? {
        return own;
      }
      if !own.error.ErrNoRows? {
        return own;
      }
    }
    var i := 0;
    while i < |t.children|
      invariant 0 <= i <= |t.children|
      invariant SearchOf(t, q) == SearchChildren(t, i, q)
    {
      var single := Search(t.children[i], q);
      if single.Ok? {
        return single;
      }
      if !single.error.ErrNoRows? {
        return single;
      }
      i := i + 1;
    }
    return Err(ErrNoRows);
  }

  method FindById(t: Table, id: Value, simple: SimpleDriver) returns (r: Outcome<Row>)
    ensures r == FirstAnswer(Concrete(t), (n: Table) => simple.findById(n, id))
  {
    r := Search(t, (n: Table) => simple.findById(n, id));
    SearchIsFirst(t, (n: Table) => simple.findById(n, id));
  }

  method UpdateById(t: Table, id: Value, attributes: Row, simple: SimpleDriver) returns (r: Outcome<bool>)
    ensures r == FirstAnswer(Concrete(t), (n: Table) => simple.updateById(n, id, attributes))
  {
    r := Search(t, (n: Table) => simple.updateById(n, id, attributes));
    SearchIsFirst(t, (n: Table) => simple.updateById(n, id, attributes));
  }

  method DeleteById(t: Table, id: Value, simple: SimpleDriver) returns (r: Outcome<bool>)
    ensures r == FirstAnswer(Concrete(t), (n: Table) => simple.deleteById(n, id))
  {
    r := Search(t, (n: Table) => simple.deleteById(n, id));
    SearchIsFirst(t, (n: Table) => simple.deleteById(n, id));
  }

  // ---------------------------------------------------------------------
  // forEach and insert
  // ---------------------------------------------------------------------

  function ForEachOf(t: Table, q: Table -> Option<DbError>): Option<DbError>
    decreases t, |t.children| + 1
  {
    if !t.isAbstract && q(t).Some? then q(t) else ForEachChildren(t, 0, q)
  }

  function ForEachChildren(t: Table, i: nat, q: Table -> Option<DbError>): Option<DbError>
    requires i <= |t.children|
    decreases t, |t.children| - i
  {
    if i == |t.children| then None
    else
      var r := ForEachOf(t.children[i], q);
      if r.Some? then r else ForEachChildren(t, i + 1, q)
  }

  /** Reference: the first error of the concrete tables' walks, in order. */
  function FirstError(nodes: seq<Table>, q: Table -> Option<DbError>): (r: Option<DbError>)
    ensures r.None? <==> forall k | 0 <= k < |nodes| :: q(nodes[k]).None?
    decreases |nodes|
  {
    if |nodes| == 0 then None
    else if q(nodes[0]).Some? then q(nodes[0])
    else
      var rest := FirstError(nodes[1..], q);
      assert forall k | 1 <= k < |nodes| :: nodes[1..][k - 1] == nodes[k];
      rest
  }

  lemma {:induction false} FirstErrorAppend(xs: seq<Table>, ys: seq<Table>, q: Table -> Option<DbError>)
    ensures FirstError(xs + ys, q) == (if FirstError(xs, q).Some? then FirstError(xs, q) else FirstError(ys, q))
    decreases |xs|
  {
    if |xs| > 0 {
      assert (xs + ys)[1..] == xs[1..] + ys;
      FirstErrorAppend(xs[1..], ys, q);
    } else {
      assert xs + ys == ys;
    }
  }

  /** forEach walks the concrete tables in pre-order and stops at the first error. */
  lemma {:induction false} ForEachIsFirstError(t: Table, q: Table -> Option<DbError>)
    ensures ForEachOf(t, q) == FirstError(Concrete(t), q)
    decreases t, |t.children| + 1
  {
    ForEachChildrenIsFirstError(t, 0, q);
    if t.isAbstract {
      assert Concrete(t) == ConcreteFrom(t, 0);
    } else {
      assert [t][1..] == [];
      FirstErrorAppend([t], ConcreteFrom(t, 0), q);
    }
  }

  lemma {:induction false} ForEachChildrenIsFirstError(t: Table, i: nat, q: Table -> Option<DbError>)
    requires i <= |t.children|
    ensures ForEachChildren(t, i, q) == FirstError(ConcreteFrom(t, i), q)
    decreases t, |t.children| - i
  {
    if i < |t.children| {
      ForEachIsFirstError(t.children[i], q);
      ForEachChildrenIsFirstError(t, i + 1, q);
      FirstErrorAppend(Concrete(t.children[i]), ConcreteFrom(t, i + 1), q);
    }
  }

  /** The loop of forEach, recursing through the cti driver for each child. */
  method ForEachTable(t: Table, q: Table -> Option<DbError>) returns (r: Option<DbError>)
    ensures r == ForEachOf(t, q)
    decreases t
  {
    if !t.isAbstract {
      var e := q(t);
      if e.Some? {
        return e;
      }
    }
    var i := 0;
    while i < |t.children|
      invariant 0 <= i <= |t.children|
      invariant ForEachOf(t, q) == ForEachChildren(t, i, q)
    {
      var e := ForEachTable(t.children[i], q);
      if e.Some? {
        return e;
      }
      i := i + 1;
    }
    return None;
  }

  method ForEach(t: Table, params: Params, simple: SimpleDriver) returns (r: Option<DbError>)
    ensures r == FirstError(Concrete(t), (n: Table) => simple.forEach(n, params))
  {
    r := ForEachTable(t, (n: Table) => simple.forEach(n, params));
    ForEachIsFirstError(t, (n: Table) => simple.forEach(n, params));
  }

  /** insert goes to the simple driver for the table itself, whether or not it is abstract or has children. */
  function Insert(t: Table, attributes: Row, simple: SimpleDriver): (r: Outcome<int>)
    ensures r == simple.insert(t, attributes)
  {
    simple.insert(t, attributes)
  }
}
