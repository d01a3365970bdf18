/**
 * data_store/query.go (and its copy ds/query.go): the column list of a
 * query over a table definition, the SQL column string, the query builder,
 * and the mapping of one scanned row to a record.
 *
 * Table and column definitions come from the `commons/types` package,
 * which is not part of this model: a table carries its own attributes,
 * its full attribute map (what `GetAttributes` answers) and its own
 * children; a column's value conversion (`Type.ToInternal`) is a parameter.
 */
module Query {
  import opened Common

  datatype Column = Column(name: string, typeName: string)

  type Attributes = map<string, Column>

  datatype TableDef = TableDef(
    name: string,
    underscoreName: string,
    ownAttributes: Attributes,
    attributes: Attributes,
    children: seq<TableDef>)

  predicate HasChildren(t: TableDef) { |t.children| > 0 }

  datatype Converted<T> = Ok(value: T) | Error(message: string)

  type Row = map<string, Value>

  /** `Type.ToInternal` of a column: the scanned value in its internal form, or why not. */
  type Convert = (Column, Value) -> Converted<Value>

  // ---------------------------------------------------------------------
  // mergeAttributes
  // ---------------------------------------------------------------------

  /**
   * mergeAttributes as written: for every child it copies the visited
   * table's own attributes, and it recurses into the children that have
   * children of their own.
   */
  function MergeAsWritten(t: TableDef, attrs: Attributes): Attributes
    decreases t, |t.children| + 1
  {
    MergeAsWrittenFrom(t, 0, attrs)
  }

  function MergeAsWrittenFrom(t: TableDef, i: nat, attrs: Attributes): Attributes
    requires i <= |t.children|
    decreases t, |t.children| - i
  {
    if i == |t.children| then attrs
    else
      var a := attrs + t.ownAttributes;
      var b := if HasChildren(t.children[i]) then MergeAsWritten(t.children[i], a) else a;
      MergeAsWrittenFrom(t, i + 1, b)
  }

  /** The keys mergeAttributes as written adds: the own attributes of every table in the tree that has children. */
  ghost function ParentKeys(t: TableDef): set<string>
    decreases t, |t.children| + 1
  {
    (if HasChildren(t) then t.ownAttributes.Keys else {}) + ParentKeysFrom(t, 0)
  }

  ghost function ParentKeysFrom(t: TableDef, i: nat): set<string>
    requires i <= |t.children|
    decreases t, |t.children| - i
  {
    if i == |t.children| then {} else ParentKeys(t.children[i]) + ParentKeysFrom(t, i + 1)
  }

  lemma {:induction false} MergeAsWrittenKeys(t: TableDef, attrs: Attributes)
    ensures MergeAsWritten(t, attrs).Keys == attrs.Keys + ParentKeys(t)
    decreases t, |t.children| + 1
  {
    MergeAsWrittenFromKeys(t, 0, attrs);
  }

  lemma {:induction false} MergeAsWrittenFromKeys(t: TableDef, i: nat, attrs: Attributes)
    requires i <= |t.children|
    ensures MergeAsWrittenFrom(t, i, attrs).Keys ==
            attrs.Keys + (if i < |t.children| then t.ownAttributes.Keys else {}) + ParentKeysFrom(t, i)
    decreases t, |t.children| - i
  {
    if i < |t.children| {
      var c := t.children[i];
      var a := attrs + t.ownAttributes;
      if HasChildren(c) {
        MergeAsWrittenKeys(c, a);
      } else {
        assert ParentKeysFrom(c, 0) == {};
      }
      var b := if HasChildren(c) then MergeAsWritten(c, a) else a;
      MergeAsWrittenFromKeys(t, i + 1, b);
    }
  }

  /** A subtable without children of its own contributes none of its columns. */
  lemma MergeAsWrittenDropsLeafColumns()
    ensures var leaf := TableDef("router", "router", map["port" := Column("port", "integer")], map[], []);
            var root := TableDef("device", "device", map[], map[], [leaf]);
            "port" !in MergeAsWritten(root, map[])
  {
    var leaf := TableDef("router", "router", map["port" := Column("port", "integer")], map[], []);
    var root := TableDef("device", "device", map[], map[], [leaf]);
    MergeAsWrittenKeys(root, map[]);
    assert ParentKeys(leaf) == {};
    assert ParentKeysFrom(root, 1) == {};
  }

  /** The corrected merge: every child's own attributes, recursing as the source does. */
  function Merge(t: TableDef, attrs: Attributes): Attributes
    decreases t, |t.children| + 1
  {
    MergeFrom(t, 0, attrs)
  }

  function MergeFrom(t: TableDef, i: nat, attrs: Attributes): Attributes
    requires i <= |t.children|
    decreases t, |t.children| - i
  {
    if i == |t.children| then attrs
    else
      var a := attrs + t.children[i].ownAttributes;
      var b := if HasChildren(t.children[i]) then Merge(t.children[i], a) else a;
      MergeFrom(t, i + 1, b)
  }

  /** The own attributes of every proper subtable. */
  ghost function DescendantKeys(t: TableDef): set<string>
    decreases t, |t.children| + 1
  {
    DescendantKeysFrom(t, 0)
  }

  ghost function DescendantKeysFrom(t: TableDef, i: nat): set<string>
    requires i <= |t.children|
    decreases t, |t.children| - i
  {
    if i == |t.children| then {}
    else t.children[i].ownAttributes.Keys + DescendantKeys(t.children[i]) + DescendantKeysFrom(t, i + 1)
  }

  /** The corrected merge gathers the columns of every subtable, leaves included. */
  lemma {:induction false} MergeKeys(t: TableDef, attrs: Attributes)
    ensures Merge(t, attrs).Keys == attrs.Keys + DescendantKeys(t)
    decreases t, |t.children| + 1
  {
    MergeFromKeys(t, 0, attrs);
  }

  lemma {:induction false} MergeFromKeys(t: TableDef, i: nat, attrs: Attributes)
    requires i <= |t.children|
    ensures MergeFrom(t, i, attrs).Keys == attrs.Keys + DescendantKeysFrom(t, i)
    decreases t, |t.children| - i
  {
    if i < |t.children| {
      var c := t.children[i];
      var a := attrs + c.ownAttributes;
      if HasChildren(c) {
        MergeKeys(c, a);
      } else {
        assert DescendantKeysFrom(c, 0) == {};
      }
      var b := if HasChildren(c) then Merge(c, a) else a;
      MergeFromKeys(t, i + 1, b);
    }
  }

  /** The loop of mergeAttributes, recursing into the children that have children. */
  method MergeAttributes(t: TableDef, attrs: Attributes) returns (r: Attributes)
    ensures r == Merge(t, attrs)
    decreases t
  {
    r := attrs;
    var i := 0;
    while i < |t.children|
      invariant 0 <= i <= |t.children|
      invariant Merge(t, attrs) == MergeFrom(t, i, r)
    {
      var child := t.children[i];
      r := r + child.ownAttributes;
      if HasChildren(child) {
        r := MergeAttributes(child, r);
      }
      i := i + 1;
    }
  }

  // ---------------------------------------------------------------------
  // toColumns
  // ---------------------------------------------------------------------

  /** Ranging over a map: its values, in the (arbitrary) order of the keys visited. */
  method ValuesOf(attrs: Attributes) returns (columns: seq<Column>, order: seq<string>)
    ensures NoDuplicates(order) && Seq2Set(order) == attrs.Keys
    ensures |columns| == |order| && forall i | 0 <= i < |order| :: order[i] in attrs && columns[i] == attrs[order[i]]
  {
    columns := [];
    order := [];
    var rest := attrs.Keys;
    while rest != {}
      invariant rest <= attrs.Keys && Seq2Set(order) == attrs.Keys - rest
      invariant NoDuplicates(order)
      invariant |columns| == |order| && forall i | 0 <= i < |order| :: order[i] in attrs && columns[i] == attrs[order[i]]
      decreases |rest|
    {
      var k :| k in rest;
      assert Seq2Set(order + [k]) == Seq2Set(order) + {k};
      columns := columns + [attrs[k]];
      order := order + [k];
      rest := rest - {k};
    }
  }

  /**
   * toColumns.  Without single-table inheritance: the table's attributes.
   * With it: the table's attributes merged with its subtables', the "type"
   * column first and nowhere else; None is the panic for a missing "type".
   */
  method ToColumns(t: TableDef, isSingleTableInheritance: bool) returns (r: Option<seq<Column>>, order: seq<string>)
    ensures !isSingleTableInheritance ==>
              r.Some? && NoDuplicates(order) && Seq2Set(order) == t.attributes.Keys &&
              |r.value| == |order| &&
              forall i | 0 <= i < |order| :: order[i] in t.attributes && r.value[i] == t.attributes[order[i]]
    ensures isSingleTableInheritance ==>
              var merged := if HasChildren(t) then Merge(t, t.attributes) else t.attributes;
              (r.Some? <==> "type" in merged) &&
              (r.Some? ==>
                NoDuplicates(order) && Seq2Set(order) == merged.Keys - {"type"} && "type" !in order &&
                |r.value| == |order| + 1 && r.value[0] == merged["type"] &&
                forall i | 0 <= i < |order| :: order[i] in merged && r.value[i + 1] == merged[order[i]])
  {
    if isSingleTableInheritance {
      var attributes := t.attributes;
      if HasChildren(t) {
        attributes := MergeAttributes(t, attributes);
      }
      if "type" !in attributes {
        return None, [];
      }
      var typeColumn := attributes["type"];
      var columns;
      columns, order := ValuesOf(attributes - {"type"});
      r := Some([typeColumn] + columns);
    } else {
      var columns;
      columns, order := ValuesOf(t.attributes);
      r := Some(columns);
    }
  }

  // ---------------------------------------------------------------------
  // writeColumns
  // ---------------------------------------------------------------------

  function Names(columns: seq<Column>): (r: seq<string>)
    ensures |r| == |columns| && forall i | 0 <= i < |columns| :: r[i] == columns[i].name
  {
    if |columns| == 0 then [] else [columns[0].name] + Names(columns[1..])
  }

  /** The SQL column list: the names joined by ", ". */
  function ColumnList(columns: seq<Column>): string
  {
    Join(Names(columns), ", ")
  }

  lemma {:induction false} JoinSnoc(parts: seq<string>, p: string, sep: string)
    requires |parts| > 0
    ensures Join(parts + [p], sep) == Join(parts, sep) + sep + p
    decreases |parts|
  {
    if |parts| == 1 {
      assert (parts + [p])[1..] == [p];
    } else {
      assert (parts + [p])[1..] == parts[1..] + [p];
      JoinSnoc(parts[1..], p, sep);
    }
  }

  /** A `bytes.Buffer`. */
  class Buffer {
    var contents: string

    constructor ()
      ensures contents == ""
    {
      contents := "";
    }

    method WriteString(s: string)
      modifies this
      ensures contents == old(contents) + s
    {
      contents := contents + s;
    }
  }

  /** writeColumns: nothing for no columns, otherwise the names separated by ", ". */
  method WriteColumns(columns: seq<Column>, buffer: Buffer)
    modifies buffer
    ensures buffer.contents == old(buffer.contents) + ColumnList(columns)
  {
    if |columns| == 0 {
      return;
    }
    buffer.WriteString(columns[0].name);
    if |columns| == 1 {
      return;
    }
    ghost var start := old(buffer.contents);
    var i := 1;
    while i < |columns|
      invariant 1 <= i <= |columns|
      invariant buffer.contents == start + Join(Names(columns[..i]), ", ")
    {
      buffer.WriteString(", ");
      buffer.WriteString(columns[i].name);
      assert Names(columns[..i + 1]) == Names(columns[..i]) + [columns[i].name];
      JoinSnoc(Names(columns[..i]), columns[i].name, ", ");
      i := i + 1;
    }
    assert columns[..i] == columns;
  }

  /** The column list names each column once, in order, with a separator between neighbours only. */
  lemma {:induction false} ColumnListShape(columns: seq<Column>)
    ensures |columns| == 0 ==> ColumnList(columns) == ""
    ensures |columns| == 1 ==> ColumnList(columns) == columns[0].name
    ensures |columns| > 1 ==> ColumnList(columns) == columns[0].name + ", " + ColumnList(columns[1..])
  {
    if |columns| > 1 {
      assert Names(columns)[1..] == Names(columns[1..]);
    }
  }

  // ---------------------------------------------------------------------
  // QueryImpl: Bind and Build
  // ---------------------------------------------------------------------

  class QueryImpl {
    var columns: seq<Option<Column>>
    var sql: string
    var parameters: seq<Value>
    var isSingleTableInheritance: bool
    var table: TableDef

    constructor (columns: seq<Option<Column>>, sql: string, isSingleTableInheritance: bool, table: TableDef)
      ensures this.columns == columns && this.sql == sql && parameters == []
      ensures this.isSingleTableInheritance == isSingleTableInheritance && this.table == table
    {
      this.columns := columns;
      this.sql := sql;
      parameters := [];
      this.isSingleTableInheritance := isSingleTableInheritance;
      this.table := table;
    }

    /** Bind replaces the parameters wholesale and answers the same query. */
    method Bind(params: seq<Value>) returns (r: QueryImpl)
      modifies this
      ensures r == this && parameters == params
      ensures columns == old(columns) && sql == old(sql) && table == old(table)
      ensures isSingleTableInheritance == old(isSingleTableInheritance)
    {
      parameters := params;
      r := this;
    }

    /** Build answers the query itself. */
    method Build() returns (r: QueryImpl)
      ensures r == this
    {
      r := this;
    }
  }

  // ---------------------------------------------------------------------
  // Mapping one scanned row
  // ---------------------------------------------------------------------

  /** The record of one row: "type" first, then every column's converted value, in order. */
  function RowFrom(columns: seq<Column>, values: seq<Value>, convert: Convert, acc: Row): Converted<Row>
    requires |values| == |columns|
    decreases |columns|
  {
    if |columns| == 0 then Ok(acc)
    else
      var v := convert(columns[0], values[0]);
      if v.Error? then Error("convert " + columns[0].name + " to internal value failed, " + v.message)
      else RowFrom(columns[1..], values[1..], convert, acc[columns[0].name := v.value])
  }

  /**
   * rowbyColumns on the values a scan produced (or the scan's error):
   * "type" is stamped with the table's underscore name, then each column
   * is converted in order; the first conversion error is the answer.
   */
  method RowByColumns(columns: seq<Column>, underscoreName: string, scanned: Converted<seq<Value>>, convert: Convert)
    returns (r: Converted<Row>)
    requires scanned.Ok? ==> |scanned.value| == |columns|
    ensures scanned.Error? ==> r == Error(scanned.message)
    ensures scanned.Ok? ==> r == RowFrom(columns, scanned.value, convert, map["type" := Str(underscoreName)])
  {
    if scanned.Error? {
      return Error(scanned.message);
    }
    var values := scanned.value;
    var res: Row := map["type" := Str(underscoreName)];
    var i := 0;
    while i < |columns|
      invariant 0 <= i <= |columns|
      invariant RowFrom(columns, values, convert, map["type" := Str(underscoreName)]) ==
                RowFrom(columns[i..], values[i..], convert, res)
    {
      var v := convert(columns[i], values[i]);
      if v.Error? {
        return Error("convert " + columns[i].name + " to internal value failed, " + v.message);
      }
      res := res[columns[i].name := v.value];
      assert columns[i..][1..] == columns[i + 1..] && values[i..][1..] == values[i + 1..];
      i := i + 1;
    }
    return Ok(res);
  }

  /** The first column's name against the rest of a duplicate-free name list. */
  lemma NamesSplit(columns: seq<Column>)
    requires |columns| > 0 && NoDuplicates(Names(columns))
    ensures Names(columns[1..]) == Names(columns)[1..]
    ensures NoDuplicates(Names(columns[1..]))
    ensures columns[0].name !in Names(columns[1..])
    ensures Seq2Set(Names(columns)) == {columns[0].name} + Seq2Set(Names(columns[1..]))
  {
    var ns := Names(columns);
    assert ns == [columns[0].name] + Names(columns[1..]);
    assert ns[1..] == Names(columns[1..]);
    HeadSplit(ns);
  }

  /** A successful RowFrom over a non-empty list converted the first column and went on with the rest. */
  lemma RowFromUnfold(columns: seq<Column>, values: seq<Value>, convert: Convert, acc: Row)
    requires |values| == |columns| > 0
    requires RowFrom(columns, values, convert, acc).Ok?
    ensures convert(columns[0], values[0]).Ok?
    ensures RowFrom(columns, values, convert, acc) ==
            RowFrom(columns[1..], values[1..], convert, acc[columns[0].name := convert(columns[0], values[0]).value])
  {
  }

  /**
   * With distinct column names other than "type", a converted row holds
   * "type" and each column under its own name, nothing else.
   */
  lemma {:induction false} RowFromContents(columns: seq<Column>, values: seq<Value>, convert: Convert, acc: Row)
    requires |values| == |columns| && NoDuplicates(Names(columns))
    requires RowFrom(columns, values, convert, acc).Ok?
    ensures var r := RowFrom(columns, values, convert, acc).value;
            r.Keys == acc.Keys + Seq2Set(Names(columns)) &&
            (forall k | k in acc && k !in Names(columns) :: r[k] == acc[k]) &&
            (forall i | 0 <= i < |columns| :: convert(columns[i], values[i]) == Ok(r[columns[i].name]))
    decreases |columns|
  {
    if |columns| > 0 {
      var c0 := columns[0];
      var cs := columns[1..];
      var vs := values[1..];
      RowFromUnfold(columns, values, convert, acc);
      NamesSplit(columns);
      var acc' := acc[c0.name := convert(c0, values[0]).value];
      RowFromContents(cs, vs, convert, acc');
      var r := RowFrom(columns, values, convert, acc).value;
      assert r == RowFrom(cs, vs, convert, acc').value;
      forall k | k in acc && k !in Names(columns) ensures r[k] == acc[k] {
        assert k != c0.name && k !in Names(cs);
      }
      forall i | 0 <= i < |columns| ensures convert(columns[i], values[i]) == Ok(r[columns[i].name]) {
        if i > 0 {
          assert cs[i - 1] == columns[i] && vs[i - 1] == values[i];
        }
      }
    }
  }

  /** Which copy of the row mapping: data_store/query.go or ds/query.go; they differ in one message. */
  datatype Copy = DataStoreCopy | DsCopy

  function UnknownTypeMessage(copy: Copy, instanceType: string, parent: string): string
  {
    match copy
    case DataStoreCopy => "table '" + instanceType + "' is not a subclass of '" + parent + "'."
    case DsCopy => "table '" + instanceType + "' is undefined"
  }

  /** The record of a single-table-inheritance row: only the columns the concrete subtable has. */
  function StiRowFrom(columns: seq<Option<Column>>, values: seq<Value>, sub: TableDef, convert: Convert, acc: Row)
    : Converted<Row>
    requires |values| == |columns|
    decreases |columns|
  {
    if |columns| == 0 then Ok(acc)
    else if columns[0].None? || columns[0].value.name !in sub.attributes then
      StiRowFrom(columns[1..], values[1..], sub, convert, acc)
    else
      var c := columns[0].value;
      var v := convert(c, values[0]);
      if v.Error? then Error("convert column '" + c.name + "' to internal value failed, " + v.message)
      else StiRowFrom(columns[1..], values[1..], sub, convert, acc[c.name := v.value])
  }

  /**
   * The outcome of the type column: the subtable its value names, or the
   * error rowbySingleTableInheritance reports before mapping any column.
   */
  function StiSubtable(copy: Copy, typeColumn: Column, typeValue: Value, parent: string,
                       findByUnderscoreName: string -> Option<TableDef>, convert: Convert): (r: Converted<(string, TableDef)>)
    ensures r.Ok? ==> convert(typeColumn, typeValue) == Ok(Str(r.value.0)) && findByUnderscoreName(r.value.0) == Some(r.value.1)
  {
    var tv := convert(typeColumn, typeValue);
    if tv.Error? then Error("convert column 'type' to internal value failed, " + tv.message)
    else if !tv.value.Str? then Error("column 'type' is not a string")
    else
      var sub := findByUnderscoreName(tv.value.s);
      if sub.None? then Error(UnknownTypeMessage(copy, tv.value.s, parent))
      else Ok((tv.value.s, sub.value))
  }

  /** rowbySingleTableInheritance on the values a scan produced (or the scan's error). */
  method RowBySingleTableInheritance(copy: Copy, columns: seq<Option<Column>>, parent: TableDef,
                                     scanned: Converted<seq<Value>>,
                                     findByUnderscoreName: string -> Option<TableDef>, convert: Convert)
    returns (r: Converted<Row>)
    requires |columns| > 0 && columns[0].Some?
    requires scanned.Ok? ==> |scanned.value| == |columns|
    ensures scanned.Error? ==> r == Error(scanned.message)
    ensures scanned.Ok? ==>
              var found := StiSubtable(copy, columns[0].value, scanned.value[0], parent.underscoreName,
                                       findByUnderscoreName, convert);
              r == if found.Error? then Error(found.message)
                   else StiRowFrom(columns, scanned.value, found.value.1, convert, map["type" := Str(found.value.0)])
  {
    if scanned.Error? {
      return Error(scanned.message);
    }
    var values := scanned.value;
    var found := StiSubtable(copy, columns[0].value, values[0], parent.underscoreName, findByUnderscoreName, convert);
    if found.Error? {
      return Error(found.message);
    }
    var sub := found.value.1;
    var res: Row := map["type" := Str(found.value.0)];
    var i := 0;
    while i < |columns|
      invariant 0 <= i <= |columns|
      invariant StiRowFrom(columns, values, sub, convert, map["type" := Str(found.value.0)]) ==
                StiRowFrom(columns[i..], values[i..], sub, convert, res)
    {
      assert columns[i..][1..] == columns[i + 1..] && values[i..][1..] == values[i + 1..];
      if columns[i].Some? && columns[i].value.name in sub.attributes {
        var v := convert(columns[i].value, values[i]);
        if v.Error? {
          return Error("convert column '" + columns[i].value.name + "' to internal value failed, " + v.message);
        }
        res := res[columns[i].value.name := v.value];
      }
      i := i + 1;
    }
    return Ok(res);
  }

  /** A column the concrete subtable lacks never appears in its record, whatever was scanned. */
  lemma {:induction false} StiRowOmitsForeignColumns(columns: seq<Option<Column>>, values: seq<Value>, sub: TableDef,
                                                     convert: Convert, acc: Row, k: string)
    requires |values| == |columns|
    requires k !in sub.attributes && k !in acc
    requires StiRowFrom(columns, values, sub, convert, acc).Ok?
    ensures k !in StiRowFrom(columns, values, sub, convert, acc).value
    decreases |columns|
  {
    if |columns| > 0 {
      if columns[0].None? || columns[0].value.name !in sub.attributes {
        StiRowOmitsForeignColumns(columns[1..], values[1..], sub, convert, acc, k);
      } else {
        var c := columns[0].value;
        StiRowOmitsForeignColumns(columns[1..], values[1..], sub, convert, acc[c.name := convert(c, values[0]).value], k);
      }
    }
  }

  // ---------------------------------------------------------------------
  // byColumns / bySingleTableInheritance
  // ---------------------------------------------------------------------

  /** The records of the rows in order, or the first row's error, or the cursor's final error. */
  function AllRows(rows: seq<Converted<Row>>, finalErr: Option<string>): (r: Converted<seq<Row>>)
    ensures r.Ok? ==> finalErr.None? && |r.value| == |rows| &&
                      forall i | 0 <= i < |rows| :: rows[i] == Ok(r.value[i])
    decreases |rows|
  {
    if |rows| == 0 then (if finalErr.Some? then Error(finalErr.value) else Ok([]))
    else if rows[0].Error? then Error(rows[0].message)
    else
      var rest := AllRows(rows[1..], finalErr);
      if rest.Error? then rest
      else
        var all := [rows[0].value] + rest.value;
        assert forall i | 1 <= i < |rows| :: rows[i] == rows[1..][i - 1];
        Ok(all)
  }

  /** byColumns and bySingleTableInheritance: map each row as it comes, stopping at the first error. */
  method CollectRows(rows: seq<Converted<Row>>, finalErr: Option<string>) returns (r: Converted<seq<Row>>)
    ensures r == AllRows(rows, finalErr)
  {
    var results: seq<Row> := [];
    var i := 0;
    while i < |rows|
      invariant 0 <= i <= |rows|
      invariant forall j | 0 <= j < i :: rows[j].Ok?
      invariant |results| == i && forall j | 0 <= j < i :: rows[j] == Ok(results[j])
    {
      if rows[i].Error? {
        AllRowsFirstError(rows, finalErr, i);
        return Error(rows[i].message);
      }
      results := results + [rows[i].value];
      i := i + 1;
    }
    AllRowsAllOk(rows, finalErr);
    if finalErr.Some? {
      return Error(finalErr.value);
    }
    assert results == AllRows(rows, finalErr).value;
    return Ok(results);
  }

  lemma {:induction false} AllRowsFirstError(rows: seq<Converted<Row>>, finalErr: Option<string>, i: nat)
    requires i < |rows| && rows[i].Error? && forall j | 0 <= j < i :: rows[j].Ok?
    ensures AllRows(rows, finalErr) == Error(rows[i].message)
    decreases i
  {
    if i > 0 {
      assert rows[1..][i - 1] == rows[i];
      AllRowsFirstError(rows[1..], finalErr, i - 1);
    }
  }

  lemma {:induction false} AllRowsAllOk(rows: seq<Converted<Row>>, finalErr: Option<string>)
    requires forall j | 0 <= j < |rows| :: rows[j].Ok?
    ensures finalErr.Some? ==> AllRows(rows, finalErr) == Error(finalErr.value)
    ensures finalErr.None? ==> AllRows(rows, finalErr).Ok?
    decreases |rows|
  {
    if |rows| > 0 {
      AllRowsAllOk(rows[1..], finalErr);
    }
  }
}
