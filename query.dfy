/**
 * The query builder object: its fields are the clause state, the fluent methods update
 * them in place, `Prepare` compiles them with the `prepare_*` loops, and `Sql`, `GetCol`
 * and `GetVar` hand the statement to the database adapter.
 */
module QueryBuilder {
  import opened Php
  import opened Results
  import opened Seqs
  import opened Clauses
  import opened Assembler
  import opened Prepare
  import RecordCasting

  // ---------------------------------------------------------------------------
  // Which tree or list a shared helper works on

  /** `where_condition('where', ...)` or `where_condition('having', ...)`. */
  datatype ConditionTarget = WhereTree | HavingTree

  /** `order_condition('group_by', ...)` or `order_condition('order_by', ...)`. */
  datatype OrderTarget = GroupByList | OrderByList

  function TreeOf(s: QueryState, target: ConditionTarget): Tree {
    match target
    case WhereTree => s.where
    case HavingTree => s.having
  }

  function WithTree(s: QueryState, target: ConditionTarget, t: Tree): (r: QueryState)
    ensures TreeOf(r, target) == t
  {
    match target
    case WhereTree => s.(where := t)
    case HavingTree => s.(having := t)
  }

  function OrdersOf(s: QueryState, target: OrderTarget): seq<OrderItem> {
    match target
    case GroupByList => s.groupBy
    case OrderByList => s.orderBy
  }

  function WithOrders(s: QueryState, target: OrderTarget, items: seq<OrderItem>): (r: QueryState)
    ensures OrdersOf(r, target) == items
  {
    match target
    case GroupByList => s.(groupBy := items)
    case OrderByList => s.(orderBy := items)
  }

  /** What `type($k)` reports: nothing, or the conflict it raises. */
  function KindOutcome(current: Option<Kind>, k: Kind): (r: Outcome<QueryError>)
    ensures r == Pass <==> current.None? || current == Some(k)
    ensures r.Fail? ==> r.error == KindConflict(current.value, k)
  {
    match SetKind(current, k)
    case Ok(_) => Pass
    case Err(e) => Fail(e)
  }

  /** The column/value pairs a `set` call assigns, in order. */
  function SetPairs(args: SetArgs): Entries<Value> {
    match args
    case Column(c, v) => [(c, v)]
    case Data(es) => es
  }

  /** `sql()`: the template as it is without arguments, otherwise the adapter's formatting of it. */
  function SqlOf(p: Preparation, format: (string, seq<Scalar>) -> string): string {
    if p.vars == [] then p.sql else format(p.sql, p.vars)
  }

  /** `get_casted_value`: through the record type's casting when there is one, otherwise unchanged. */
  function CastWith(casting: Option<RecordCasting.Model>, prop: string, v: Scalar): (r: Scalar)
    ensures casting.None? ==> r == v
    ensures casting.Some? && prop !in casting.value.rules ==> r == v
    ensures casting.Some? ==> r == RecordCasting.CastedValue(casting.value, prop, v)
  {
    match casting
    case None => v
    case Some(m) => RecordCasting.CastedValue(m, prop, v)
  }

  /** Every value of a column cast for the same property, in order. */
  function CastAll(casting: Option<RecordCasting.Model>, prop: string, vs: seq<Scalar>): (r: seq<Scalar>)
    ensures |r| == |vs|
    ensures forall i :: 0 <= i < |vs| ==> r[i] == CastWith(casting, prop, vs[i])
  {
    if vs == [] then [] else CastAll(casting, prop, vs[..|vs| - 1]) + [CastWith(casting, prop, vs[|vs| - 1])]
  }

  /** No stored INSERT row holds a bare null. */
  predicate RowsEncoded(rows: seq<Row>) {
    forall i :: 0 <= i < |rows| ==> NoNulls(rows[i])
  }

  lemma EncodeRowNoNulls(row: Row)
    ensures NoNulls(EncodeRow(row))
  {
  }

  lemma EncodedRowsEncoded(old_rows: seq<Row>, rows: seq<Row>)
    requires RowsEncoded(old_rows)
    ensures RowsEncoded(old_rows + Map(EncodeRow, rows))
  {
    var all := old_rows + Map(EncodeRow, rows);
    forall i | 0 <= i < |all|
      ensures NoNulls(all[i])
    {
      if i >= |old_rows| {
        EncodeRowNoNulls(rows[i - |old_rows|]);
      }
    }
  }

  // ---------------------------------------------------------------------------
  // The database adapter

  /**
   * The `$wpdb` object, as far as the builder uses it: `prepare` formats a template with
   * its arguments, `get_col` / `get_var` run a statement. What they compute is given from
   * outside; the object records every call, in order.
   */
  class Wpdb {
    const format: (string, seq<Scalar>) -> string
    const column: string -> seq<Scalar>
    const variable: string -> Scalar
    var prepared: seq<Preparation>
    var queries: seq<string>

    constructor (format: (string, seq<Scalar>) -> string, column: string -> seq<Scalar>, variable: string -> Scalar)
      ensures this.format == format && this.column == column && this.variable == variable
      ensures prepared == [] && queries == []
    {
      this.format, this.column, this.variable := format, column, variable;
      prepared, queries := [], [];
    }

    /** `$wpdb->prepare($sql, ...$vars)`. */
    method Prepare(p: Preparation) returns (sql: string)
      modifies this
      ensures sql == format(p.sql, p.vars)
      ensures prepared == old(prepared) + [p] && queries == old(queries)
    {
      sql := format(p.sql, p.vars);
      prepared := prepared + [p];
    }

    /** `$wpdb->get_col($sql)`. */
    method GetCol(sql: string) returns (values: seq<Scalar>)
      modifies this
      ensures values == column(sql)
      ensures queries == old(queries) + [sql] && prepared == old(prepared)
    {
      values := column(sql);
      queries := queries + [sql];
    }

    /** `$wpdb->get_var($sql)`. */
    method GetVar(sql: string) returns (value: Scalar)
      modifies this
      ensures value == variable(sql)
      ensures queries == old(queries) + [sql] && prepared == old(prepared)
    {
      value := variable(sql);
      queries := queries + [sql];
    }
  }

  // ---------------------------------------------------------------------------
  // The builder

  /**
   * `wp_activerecord\Query`. The table (the model's table name, or the table given) and the
   * model's casting are fixed at construction; every other field is clause state.
   */
  class Query {
    const table: string
    const casting: Option<RecordCasting.Model>
    var kind: Option<Kind>
    var select: seq<string>
    var assignments: Entries<Value>
    var insert: seq<Row>
    var joins: seq<JoinSpec>
    var where: Tree
    var groupBy: seq<OrderItem>
    var having: Tree
    var orderBy: seq<OrderItem>
    var limit: Bound
    var offset: Bound

    /** The clause state held in the fields. */
    function State(): QueryState
      reads this
    {
      QueryState(kind, table, select, assignments, insert, joins, where, groupBy, having, orderBy, limit, offset)
    }

    /** The SET map has one entry per column, and no stored SET or INSERT value is a bare null. */
    ghost predicate Valid()
      reads this
    {
      UniqueKeys(assignments) && NoNulls(assignments) && RowsEncoded(insert)
    }

    constructor (table: string, casting: Option<RecordCasting.Model>)
      ensures State() == EmptyState(table) && this.casting == casting
      ensures Valid()
    {
      this.table, this.casting := table, casting;
      kind, select, assignments, insert, joins := None, [], [], [], [];
      where, groupBy, having, orderBy := [], [], [], [];
      limit, offset := Number(Null), Number(Null);
    }

    /** `type($k)`: the first kind sticks; asking for a different one raises and changes nothing. */
    method FixKind(k: Kind) returns (r: Outcome<QueryError>)
      modifies this
      ensures r == KindOutcome(old(kind), k)
      ensures r.Pass? ==> State() == old(State()).(kind := Some(k))
      ensures r.Fail? ==> State() == old(State())
    {
      if kind.Some? && kind.value != k {
        return Fail(KindConflict(kind.value, k));
      }
      kind := Some(k);
      return Pass;
    }

    /** `select(...$columns)`: a SELECT whose list grows by the columns, in order. */
    method Select(columns: seq<string>) returns (r: Outcome<QueryError>)
      modifies this
      ensures r == KindOutcome(old(kind), Kind.Select)
      ensures r.Pass? ==> State() == old(State()).(kind := Some(Kind.Select), select := old(select) + columns)
      ensures r.Fail? ==> State() == old(State())
    {
      r := FixKind(Kind.Select);
      if r.Pass? {
        select := select + columns;
      }
    }

    /** `delete()`. */
    method Delete() returns (r: Outcome<QueryError>)
      modifies this
      ensures r == KindOutcome(old(kind), Kind.Delete)
      ensures r.Pass? ==> State() == old(State()).(kind := Some(Kind.Delete))
      ensures r.Fail? ==> State() == old(State())
    {
      r := FixKind(Kind.Delete);
    }

    /**
     * `set($column, $value)` / `set($data)`: an UPDATE; each column is assigned in turn,
     * a null stored as raw `NULL`, an existing column keeping its place.
     */
    method Set(args: SetArgs) returns (r: Outcome<QueryError>)
      requires Valid()
      modifies this
      ensures Valid()
      ensures r == KindOutcome(old(kind), Kind.Update)
      ensures r.Pass? ==> State() == old(State()).(kind := Some(Kind.Update),
                                                   assignments := SetEntries(old(assignments), SetPairs(args)))
      ensures r.Fail? ==> State() == old(State())
    {
      r := FixKind(Kind.Update);
      if r.Fail? {
        return;
      }
      var es := SetPairs(args);
      var m := assignments;
      var i := 0;
      while i < |es|
        invariant 0 <= i <= |es|
        invariant m == SetEntries(assignments, es[..i])
        modifies {}
      {
        assert es[..i + 1][..i] == es[..i];
        m := Assign(m, es[i].0, EncodeNull(es[i].1));
        i := i + 1;
      }
      assert es[..|es|] == es;
      SetEntriesKeepsOrder(assignments, es);
      SetEntriesNoNulls(assignments, es);
      assignments := m;
    }

    /** `update()` with no arguments fixes the kind; with arguments it is `set`. */
    method Update(args: Option<SetArgs>) returns (r: Outcome<QueryError>)
      requires Valid()
      modifies this
      ensures Valid()
      ensures r == KindOutcome(old(kind), Kind.Update)
      ensures r.Pass? && args.None? ==> State() == old(State()).(kind := Some(Kind.Update))
      ensures r.Pass? && args.Some? ==>
                State() == old(State()).(kind := Some(Kind.Update),
                                         assignments := SetEntries(old(assignments), SetPairs(args.value)))
      ensures r.Fail? ==> State() == old(State())
    {
      if args.None? {
        r := FixKind(Kind.Update);
      } else {
        r := Set(args.value);
      }
    }

    /** A row with every null replaced by raw `NULL`. */
    static method EncodeRowValues(row: Row) returns (encoded: Row)
      ensures encoded == EncodeRow(row)
    {
      encoded := [];
      var i := 0;
      while i < |row|
        invariant 0 <= i <= |row|
        invariant |encoded| == i
        invariant forall j :: 0 <= j < i ==> encoded[j] == (row[j].0, EncodeNull(row[j].1))
      {
        var v := row[i].1;
        if v == Plain(Null) {
          v := Raw("NULL");
        }
        encoded := encoded + [(row[i].0, v)];
        i := i + 1;
      }
    }

    /** `insert($data)`: an INSERT whose rows grow by the given row or rows, nulls encoded. */
    method Insert(data: InsertArg) returns (r: Outcome<QueryError>)
      requires Valid()
      modifies this
      ensures Valid()
      ensures r == KindOutcome(old(kind), Kind.Insert)
      ensures r.Pass? ==> State() == old(State()).(kind := Some(Kind.Insert),
                                                   insert := old(insert) + Map(EncodeRow, InsertRows(data)))
      ensures r.Fail? ==> State() == old(State())
    {
      r := FixKind(Kind.Insert);
      if r.Fail? {
        return;
      }
      var rows: seq<Row>;
      match data {
        case OneRow(row) => rows := [row];
        case ManyRows(rs) => rows := if rs == [] then [[]] else rs;
      }
      var encoded: seq<Row> := [];
      var i := 0;
      while i < |rows|
        invariant 0 <= i <= |rows|
        invariant encoded == Map(EncodeRow, rows[..i])
        modifies {}
      {
        var row := EncodeRowValues(rows[i]);
        MapPrefix(EncodeRow, rows, i);
        encoded := encoded + [row];
        i := i + 1;
      }
      assert rows[..|rows|] == rows;
      EncodedRowsEncoded(insert, rows);
      insert := insert + encoded;
    }

    /** A mapping argument: one two- or three-argument call per entry, in order. */
    static method AppendEntries(t: Tree, es: seq<(string, Entry)>) returns (t': Tree)
      ensures t' == AppendAll(t, Map(EntryItem, es))
    {
      t' := t;
      var i := 0;
      while i < |es|
        invariant 0 <= i <= |es|
        invariant t' == AppendAll(t, Map(EntryItem, es[..i]))
      {
        MapPrefix(EntryItem, es, i);
        var e := es[i];
        var item := match e.1 {
          case Single(v) => TwoArgItem(Name(e.0), v)
          case Pair(op, v) => ThreeArgItem(Name(e.0), op, v)
        };
        t' := AppendItem(t', item);
        i := i + 1;
      }
      assert es[..|es|] == es;
    }

    /**
     * `where_condition`: a raw string or raw array is one item, a mapping one two- or
     * three-argument item per entry, two or three arguments one item; all of them go to the
     * last group, which is created when the tree is empty. Any other single argument raises.
     */
    method WhereCondition(target: ConditionTarget, args: CondArgs) returns (r: Outcome<QueryError>)
      modifies this
      ensures r.Pass? <==> !Malformed(args)
      ensures r.Fail? ==> r.error == MalformedCondition && State() == old(State())
      ensures r.Pass? ==>
                State() == WithTree(old(State()), target, AppendAll(TreeOf(old(State()), target), ConditionItems(args)))
    {
      if args == One(Unsupported) {
        return Fail(MalformedCondition);
      }
      var t := if target == WhereTree then where else having;
      match args {
        case One(Mapping(es)) =>
          t := AppendEntries(t, es);
        case One(RawString(s)) =>
          t := AppendItem(t, RawItem(s, []));
          assert [RawItem(s, [])][..0] == [];
        case One(RawList(f, e)) =>
          t := AppendItem(t, RawItem(f, e));
          assert [RawItem(f, e)][..0] == [];
        case Two(c, v) =>
          var op := if v == Plain(Null) then "IS" else "=";
          var value := if v == Plain(Null) then Raw("NULL") else v;
          t := AppendItem(t, Cond(c, op, value));
          assert [TwoArgItem(c, v)][..0] == [];
        case Three(c, op, v) =>
          var value := if v == Plain(Null) then Raw("NULL") else v;
          t := AppendItem(t, Cond(c, Upper(op), value));
          assert [ThreeArgItem(c, op, v)][..0] == [];
      }
      if target == WhereTree {
        where := t;
      } else {
        having := t;
      }
      return Pass;
    }

    /** `or_where` / `or_having`: a new group first, then the condition, which lands in it. */
    method OrWhereCondition(target: ConditionTarget, args: CondArgs) returns (r: Outcome<QueryError>)
      modifies this
      ensures r.Pass? <==> !Malformed(args)
      ensures r.Fail? ==> r.error == MalformedCondition
      ensures r.Pass? ==>
                State() == WithTree(old(State()), target, TreeOf(old(State()), target) + [ConditionItems(args)])
      ensures r.Fail? ==> State() == WithTree(old(State()), target, TreeOf(old(State()), target) + [[]])
    {
      if target == WhereTree {
        where := where + [[]];
      } else {
        having := having + [[]];
      }
      ghost var extended := TreeOf(old(State()), target) + [[]];
      assert State() == WithTree(old(State()), target, extended);
      r := WhereCondition(target, args);
      if r.Pass? {
        OrOpensOwnGroup(TreeOf(old(State()), target), args);
      }
    }

    /**
     * `order_condition`: a raw array is one item, a mapping one item per column, a column one
     * item with its direction normalised; the items go to the end of the list.
     */
    method OrderCondition(target: OrderTarget, args: OrderArgs)
      modifies this
      ensures State() == WithOrders(old(State()), target, OrdersOf(old(State()), target) + OrderItems(args))
    {
      var items := if target == GroupByList then groupBy else orderBy;
      var items0 := items;
      match args {
        case OrderRaw(f, e) =>
          items := items + [RawOrder(f, e)];
        case OrderMapping(es) =>
          var i := 0;
          while i < |es|
            invariant 0 <= i <= |es|
            invariant items == items0 + Map(ColumnOrderItem, es[..i])
            modifies {}
          {
            MapPrefix(ColumnOrderItem, es, i);
            items := items + [ColumnOrder(es[i].0, Direction(es[i].1))];
            i := i + 1;
          }
          assert es[..|es|] == es;
        case OrderColumn(c, o) =>
          var order := o;
          if o == Bool(false) || (o.Str? && Upper(o.s) != "ASC") {
            order := Str("DESC");
          }
          items := items + [ColumnOrder(c, order)];
      }
      if target == GroupByList {
        groupBy := items;
      } else {
        orderBy := items;
      }
    }

    /** `limit($limit)`. */
    method Limit(b: Bound)
      modifies this
      ensures State() == old(State()).(limit := b)
    {
      limit := b;
    }

    /** `offset($offset)`. */
    method Offset(b: Bound)
      modifies this
      ensures State() == old(State()).(offset := b)
    {
      offset := b;
    }

    /** `join($table, $attribute, $join_attribute, $type)`: one more join, after the earlier ones. */
    method Join(j: JoinSpec)
      modifies this
      ensures State() == old(State()).(joins := old(joins) + [j])
    {
      joins := joins + [j];
    }

    /** `prepare()`: the clauses in their fixed order, each helper appending its text and arguments. */
    method Prepare() returns (p: Preparation)
      ensures p == Compile(State())
    {
      var sql, args := PrepareClauses(State());
      p := Preparation(Php.Join(" \n", sql), args);
    }

    /** `sql()`: the template when nothing is bound, otherwise exactly one call of the adapter's `prepare`. */
    method Sql(db: Wpdb) returns (sql: string)
      modifies db
      ensures sql == SqlOf(Compile(State()), db.format)
      ensures db.prepared == old(db.prepared) + (if Compile(State()).vars == [] then [] else [Compile(State())])
      ensures db.queries == old(db.queries)
    {
      var p := Prepare();
      if p.vars != [] {
        sql := db.Prepare(p);
      } else {
        sql := p.sql;
      }
    }

    /** `get_col()`: exactly one selected column, or an error before the adapter is called; each value cast. */
    method GetCol(db: Wpdb) returns (r: Result<seq<Scalar>, QueryError>)
      modifies db
      ensures |select| != 1 ==> r == Err(SelectArity("get_col")) && db.prepared == old(db.prepared)
                                 && db.queries == old(db.queries)
      ensures |select| == 1 ==>
                var sql := SqlOf(Compile(State()), db.format);
                && r == Ok(CastAll(casting, select[0], db.column(sql)))
                && db.queries == old(db.queries) + [sql]
                && db.prepared == old(db.prepared) + (if Compile(State()).vars == [] then [] else [Compile(State())])
    {
      if |select| != 1 {
        return Err(SelectArity("get_col"));
      }
      var prop := select[0];
      var sql := Sql(db);
      var values := db.GetCol(sql);
      var casted: seq<Scalar> := [];
      var i := 0;
      while i < |values|
        invariant 0 <= i <= |values|
        invariant casted == CastAll(casting, prop, values[..i])
      {
        assert values[..i + 1][..i] == values[..i];
        casted := casted + [CastWith(casting, prop, values[i])];
        i := i + 1;
      }
      assert values[..|values|] == values;
      return Ok(casted);
    }

    /** `get_var()`: exactly one selected column, or an error before the adapter is called; the value cast. */
    method GetVar(db: Wpdb) returns (r: Result<Scalar, QueryError>)
      modifies db
      ensures |select| != 1 ==> r == Err(SelectArity("get_var")) && db.prepared == old(db.prepared)
                                 && db.queries == old(db.queries)
      ensures |select| == 1 ==>
                var sql := SqlOf(Compile(State()), db.format);
                && r == Ok(CastWith(casting, select[0], db.variable(sql)))
                && db.queries == old(db.queries) + [sql]
                && db.prepared == old(db.prepared) + (if Compile(State()).vars == [] then [] else [Compile(State())])
    {
      if |select| != 1 {
        return Err(SelectArity("get_var"));
      }
      var prop := select[0];
      var sql := Sql(db);
      var value := db.GetVar(sql);
      return Ok(CastWith(casting, prop, value));
    }

  }
}
