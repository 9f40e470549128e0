/**
 * The clause state a query accumulates, and what each fluent call adds to it: the
 * statement kind, values with their null encoding, the ordered SET map, the WHERE /
 * HAVING group trees, the GROUP BY / ORDER BY items, LIMIT / OFFSET bounds and joins.
 */
module Clauses {
  import opened Php
  import opened Results
  import opened Seqs

  // ---------------------------------------------------------------------------
  // Statement kind

  datatype Kind = Select | Insert | Update | Delete

  function KindName(k: Kind): string {
    match k
    case Select => "SELECT"
    case Insert => "INSERT"
    case Update => "UPDATE"
    case Delete => "DELETE"
  }

  /** The errors the builder raises. */
  datatype QueryError =
    | KindConflict(current: Kind, requested: Kind)  // the kind of query is already set to another one
    | MalformedCondition                            // a single condition argument that is neither a string nor an array
    | SelectArity(operation: string)                // `get_col` / `get_var` need exactly one selected column

  /** Fixing the statement kind: the first kind sticks, asking for another one fails. */
  function SetKind(current: Option<Kind>, requested: Kind): (r: Result<Kind, QueryError>)
    ensures r.Ok? <==> (current.None? || current.value == requested)
    ensures r.Ok? ==> r.value == requested
    ensures r.Err? ==> r.error == KindConflict(current.value, requested)
  {
    if current.Some? && current.value != requested then Err(KindConflict(current.value, requested))
    else Ok(requested)
  }

  /** Once a kind is set, asking for the same kind again changes nothing, and any other kind fails. */
  lemma KindIsFixedOnce(current: Option<Kind>, first: Kind, second: Kind)
    requires SetKind(current, first).Ok?
    ensures SetKind(Some(first), first) == Ok(first)
    ensures second != first ==> SetKind(Some(first), second) == Err(KindConflict(first, second))
  {
  }

  // ---------------------------------------------------------------------------
  // Values

  /**
   * A value given for a column: a scalar that is bound as an argument, a raw SQL
   * fragment (the PHP array `['X']`), or a list of scalars (the PHP array `[[v1, ..]]`).
   */
  datatype Value = Plain(v: Scalar) | Raw(fragment: string) | InList(items: seq<Scalar>)

  /** A null value is stored as the raw fragment `NULL`. */
  function EncodeNull(v: Value): (r: Value)
    ensures r != Plain(Null)
    ensures v != Plain(Null) ==> r == v
    ensures v == Plain(Null) ==> r == Raw("NULL")
  {
    if v == Plain(Null) then Raw("NULL") else v
  }

  /** Encoding is idempotent. */
  lemma EncodeNullIdempotent(v: Value)
    ensures EncodeNull(EncodeNull(v)) == EncodeNull(v)
  {
  }

  // ---------------------------------------------------------------------------
  // Ordered maps (PHP arrays with string keys)

  type Entries<V> = seq<(string, V)>

  function Keys<V>(m: Entries<V>): (ks: seq<string>)
    ensures |ks| == |m|
    ensures forall i :: 0 <= i < |m| ==> ks[i] == m[i].0
  {
    seq(|m|, i requires 0 <= i < |m| => m[i].0)
  }

  predicate UniqueKeys<V>(m: Entries<V>) {
    forall i, j :: 0 <= i < j < |m| ==> m[i].0 != m[j].0
  }

  /** `$m[$k]`, if the key is present. */
  function Lookup<V>(m: Entries<V>, k: string): (r: Option<V>)
    ensures r.Some? <==> k in Keys(m)
  {
    if m == [] then None
    else if m[0].0 == k then Some(m[0].1)
    else
      assert Keys(m) == [m[0].0] + Keys(m[1..]);
      Lookup(m[1..], k)
  }

  /** `$m[$k] = $v`: the value of an existing key is replaced where it stands, a new key goes last. */
  function Assign<V>(m: Entries<V>, k: string, v: V): Entries<V> {
    if m == [] then [(k, v)]
    else if m[0].0 == k then [(k, v)] + m[1..]
    else [m[0]] + Assign(m[1..], k, v)
  }

  lemma KeysCons<V>(x: (string, V), m: Entries<V>)
    ensures Keys([x] + m) == [x.0] + Keys(m)
  {
  }

  /** Assigning keeps every key in its position and adds a new key at the end. */
  lemma {:induction false} AssignKeys<V>(m: Entries<V>, k: string, v: V)
    ensures k in Keys(m) ==> Keys(Assign(m, k, v)) == Keys(m)
    ensures k !in Keys(m) ==> Keys(Assign(m, k, v)) == Keys(m) + [k]
  {
    if m != [] {
      var rest := m[1..];
      assert m == [m[0]] + rest;
      KeysCons(m[0], rest);
      if m[0].0 == k {
        KeysCons((k, v), rest);
      } else {
        AssignKeys(rest, k, v);
        KeysCons(m[0], Assign(rest, k, v));
        assert k in Keys(m) <==> k in Keys(rest);
      }
    }
  }

  /** After `$m[$k] = $v`, `$m[$k]` is `$v` and every other key reads as before. */
  lemma {:induction false} AssignLookup<V>(m: Entries<V>, k: string, v: V, k': string)
    ensures Lookup(Assign(m, k, v), k') == if k' == k then Some(v) else Lookup(m, k')
  {
    if m != [] && m[0].0 != k {
      AssignLookup(m[1..], k, v, k');
      assert Assign(m, k, v)[1..] == Assign(m[1..], k, v);
    }
  }

  /** Assigning keeps the keys unique. */
  lemma AssignUnique<V>(m: Entries<V>, k: string, v: V)
    requires UniqueKeys(m)
    ensures UniqueKeys(Assign(m, k, v))
  {
    var r := Assign(m, k, v);
    AssignKeys(m, k, v);
    if k in Keys(m) {
      assert forall i :: 0 <= i < |r| ==> r[i].0 == Keys(m)[i];
    } else {
      assert forall i :: 0 <= i < |r| ==> r[i].0 == (Keys(m) + [k])[i];
    }
  }

  // ---------------------------------------------------------------------------
  // SET

  /** The arguments of a `set` call: one column and its value, or a whole data array. */
  datatype SetArgs = Column(column: string, value: Value) | Data(entries: Entries<Value>)

  /** The SET map after `set($k, $v)` for every entry in turn, nulls encoded. */
  function SetEntries(m: Entries<Value>, es: Entries<Value>): Entries<Value> {
    if es == [] then m
    else
      var last := es[|es| - 1];
      Assign(SetEntries(m, es[..|es| - 1]), last.0, EncodeNull(last.1))
  }

  /** The value given last for a key, encoded, if any entry names it. */
  function LastGiven(es: Entries<Value>, k: string): Option<Value> {
    if es == [] then None
    else if es[|es| - 1].0 == k then Some(EncodeNull(es[|es| - 1].1))
    else LastGiven(es[..|es| - 1], k)
  }

  /** Setting a whole data array: the last value given for a column wins, other columns keep theirs. */
  lemma {:induction false} SetEntriesLookup(m: Entries<Value>, es: Entries<Value>, k: string)
    ensures Lookup(SetEntries(m, es), k) ==
            match LastGiven(es, k) case Some(v) => Some(v) case None => Lookup(m, k)
    decreases |es|
  {
    if es != [] {
      var last := es[|es| - 1];
      SetEntriesLookup(m, es[..|es| - 1], k);
      AssignLookup(SetEntries(m, es[..|es| - 1]), last.0, EncodeNull(last.1), k);
    }
  }

  /** Setting a data array keeps the existing columns in place and appends only new ones. */
  lemma {:induction false} SetEntriesKeepsOrder(m: Entries<Value>, es: Entries<Value>)
    ensures |Keys(SetEntries(m, es))| >= |Keys(m)|
    ensures Keys(SetEntries(m, es))[..|m|] == Keys(m)
    ensures UniqueKeys(m) ==> UniqueKeys(SetEntries(m, es))
    decreases |es|
  {
    if es != [] {
      var last := es[|es| - 1];
      SetEntriesKeepsOrder(m, es[..|es| - 1]);
      var prev := SetEntries(m, es[..|es| - 1]);
      AssignKeys(prev, last.0, EncodeNull(last.1));
      if UniqueKeys(m) {
        AssignUnique(prev, last.0, EncodeNull(last.1));
      }
    }
  }

  /** No entry holds a bare null: every null was encoded when it was stored. */
  predicate NoNulls(m: Entries<Value>) {
    forall i :: 0 <= i < |m| ==> m[i].1 != Plain(Null)
  }

  lemma {:induction false} AssignNoNulls(m: Entries<Value>, k: string, v: Value)
    requires NoNulls(m) && v != Plain(Null)
    ensures NoNulls(Assign(m, k, v))
  {
    if m != [] && m[0].0 != k {
      AssignNoNulls(m[1..], k, v);
      var r := Assign(m[1..], k, v);
      assert Assign(m, k, v) == [m[0]] + r;
    }
  }

  /** The SET map never holds a bare null, whatever is set. */
  lemma {:induction false} SetEntriesNoNulls(m: Entries<Value>, es: Entries<Value>)
    requires NoNulls(m)
    ensures NoNulls(SetEntries(m, es))
    decreases |es|
  {
    if es != [] {
      var last := es[|es| - 1];
      SetEntriesNoNulls(m, es[..|es| - 1]);
      AssignNoNulls(SetEntries(m, es[..|es| - 1]), last.0, EncodeNull(last.1));
    }
  }

  // ---------------------------------------------------------------------------
  // INSERT

  type Row = Entries<Value>

  /** The argument of `insert`: one data row, or a list of rows. */
  datatype InsertArg = OneRow(row: Row) | ManyRows(rows: seq<Row>)

  /**
   * The rows an `insert` call adds: an array without a key 0 is one row (the empty array
   * too), a list is taken as it is.
   */
  function InsertRows(data: InsertArg): (rows: seq<Row>)
    ensures |rows| >= 1
    ensures data.ManyRows? && data.rows != [] ==> rows == data.rows
    ensures data.OneRow? ==> rows == [data.row]
  {
    match data
    case OneRow(row) => [row]
    case ManyRows(rows) => if rows == [] then [[]] else rows
  }

  /** A row with its nulls encoded. */
  function EncodeRow(row: Row): (r: Row)
    ensures Keys(r) == Keys(row)
    ensures forall i :: 0 <= i < |row| ==> r[i].1 == EncodeNull(row[i].1)
  {
    seq(|row|, i requires 0 <= i < |row| => (row[i].0, EncodeNull(row[i].1)))
  }

  // ---------------------------------------------------------------------------
  // WHERE / HAVING

  /** A column: a name that is quoted with backticks, or a raw SQL expression (`['SUM(x)']`). */
  datatype Column = Name(name: string) | RawColumn(fragment: string)

  /** One condition: a raw fragment with the arguments for its placeholders, or column/operator/value. */
  datatype Item = RawItem(fragment: string, extra: seq<Scalar>) | Cond(column: Column, op: string, value: Value)

  /** Conditions joined by AND, and groups of them joined by OR. */
  type Group = seq<Item>
  type Tree = seq<Group>

  /** A value in a mapping argument: a plain value, or an (operator, value) pair. */
  datatype Entry = Single(value: Value) | Pair(op: string, value: Value)

  /** The one-argument forms: a raw string, a raw array with arguments, a mapping, or anything else. */
  datatype OneArg =
    | RawString(s: string)
    | RawList(fragment: string, extra: seq<Scalar>)
    | Mapping(entries: seq<(string, Entry)>)
    | Unsupported

  /** The arguments of `where` / `having` by their number. */
  datatype CondArgs = One(arg: OneArg) | Two(column: Column, value: Value) | Three(column: Column, op: string, value: Value)

  /** `where($column, $value)`: `IS` for a null value, `=` otherwise. */
  function TwoArgItem(column: Column, value: Value): Item {
    Cond(column, if value == Plain(Null) then "IS" else "=", EncodeNull(value))
  }

  /** `where($column, $op, $value)`: the operator upper-cased. */
  function ThreeArgItem(column: Column, op: string, value: Value): Item {
    Cond(column, Upper(op), EncodeNull(value))
  }

  /** One mapping entry becomes a two- or three-argument call on its key. */
  function EntryItem(e: (string, Entry)): Item {
    match e.1
    case Single(v) => TwoArgItem(Name(e.0), v)
    case Pair(op, v) => ThreeArgItem(Name(e.0), op, v)
  }

  predicate Malformed(args: CondArgs) {
    args == One(Unsupported)
  }

  /** The items a well-formed call adds, in order. */
  function ConditionItems(args: CondArgs): seq<Item>
    requires !Malformed(args)
  {
    match args
    case One(RawString(s)) => [RawItem(s, [])]
    case One(RawList(f, e)) => [RawItem(f, e)]
    case One(Mapping(es)) => Map(EntryItem, es)
    case Two(c, v) => [TwoArgItem(c, v)]
    case Three(c, op, v) => [ThreeArgItem(c, op, v)]
  }

  /** Appending to the last group, which is created if the tree is empty. */
  function AppendItem(t: Tree, item: Item): Tree {
    if t == [] then [[item]] else t[..|t| - 1] + [t[|t| - 1] + [item]]
  }

  function AppendAll(t: Tree, items: seq<Item>): Tree {
    if items == [] then t else AppendItem(AppendAll(t, items[..|items| - 1]), items[|items| - 1])
  }

  /** What a `where` / `having` call does to its tree. */
  function Condition(t: Tree, args: CondArgs): Result<Tree, QueryError> {
    if Malformed(args) then Err(MalformedCondition) else Ok(AppendAll(t, ConditionItems(args)))
  }

  /** All the items a call adds go to one group: the last one, or a new first one. */
  lemma {:induction false} AppendAllShape(t: Tree, items: seq<Item>)
    ensures items == [] ==> AppendAll(t, items) == t
    ensures t != [] ==> AppendAll(t, items) == t[..|t| - 1] + [t[|t| - 1] + items]
    ensures t == [] && items != [] ==> AppendAll(t, items) == [items]
    decreases |items|
  {
    if items != [] {
      var init, last := items[..|items| - 1], items[|items| - 1];
      AppendAllShape(t, init);
      assert init + [last] == items;
      var u := AppendAll(t, init);
      assert AppendAll(t, items) == AppendItem(u, last);
      if t != [] {
        var front, g := t[..|t| - 1], t[|t| - 1];
        assert u == front + [g + init];
        assert u[..|u| - 1] == front && u[|u| - 1] == g + init;
        assert (g + init) + [last] == g + items;
        assert AppendItem(u, last) == front + [g + items];
        assert t[..|t| - 1] + [t[|t| - 1] + items] == front + [g + items];
      } else if init == [] {
        assert u == [];
      } else {
        assert u == [init];
      }
    } else if t != [] {
      assert t[|t| - 1] + items == t[|t| - 1];
      assert t == t[..|t| - 1] + [t[|t| - 1]];
    }
  }

  /** Read in order, the conditions are the old ones followed by the new ones. */
  lemma AppendAllFlatten(t: Tree, items: seq<Item>)
    ensures Flatten(AppendAll(t, items)) == Flatten(t) + items
    ensures |AppendAll(t, items)| == if t == [] && items != [] then 1 else |t|
  {
    AppendAllShape(t, items);
    if items == [] {
      assert Flatten(t) + items == Flatten(t);
    } else if t != [] {
      var front, g := t[..|t| - 1], t[|t| - 1];
      assert t == front + [g];
      FlattenSnoc(front, g);
      FlattenSnoc(front, g + items);
    } else {
      FlattenSnoc([], items);
      assert [] + [items] == [items];
    }
  }

  /** A `where` / `having` call adds its items after all the earlier ones, in order. */
  lemma ConditionAppendsInOrder(t: Tree, args: CondArgs)
    requires !Malformed(args)
    ensures Flatten(Condition(t, args).value) == Flatten(t) + ConditionItems(args)
  {
    AppendAllFlatten(t, ConditionItems(args));
  }

  /** An `or_*` call opens its own group and puts everything it adds there. */
  lemma OrOpensOwnGroup(t: Tree, args: CondArgs)
    requires !Malformed(args)
    ensures Condition(t + [[]], args) == Ok(t + [ConditionItems(args)])
  {
    var items := ConditionItems(args);
    var t' := t + [[]];
    AppendAllShape(t', items);
    assert t'[..|t'| - 1] == t && t'[|t'| - 1] == [];
    assert [] + items == items;
  }

  // ---------------------------------------------------------------------------
  // GROUP BY / ORDER BY

  /** An ordering item: a raw fragment with its arguments, or a column and its direction. */
  datatype OrderItem = RawOrder(fragment: string, extra: seq<Scalar>) | ColumnOrder(column: string, order: Scalar)

  /** The arguments of `group_by` / `order_by`: a raw array, a mapping of columns to directions, or one column. */
  datatype OrderArgs =
    | OrderRaw(fragment: string, extra: seq<Scalar>)
    | OrderMapping(entries: seq<(string, Scalar)>)
    | OrderColumn(column: string, order: Scalar)

  /** `false` and any string other than `ASC` (in any case) mean `DESC`; anything else is kept. */
  function Direction(order: Scalar): Scalar {
    if order == Bool(false) || (order.Str? && Upper(order.s) != "ASC") then Str("DESC") else order
  }

  /** A direction is DESC or what was given, and a string direction always reads as ASC or DESC. */
  lemma DirectionValues(order: Scalar)
    ensures Direction(order) == Str("DESC") || Direction(order) == order
    ensures order.Str? ==> Direction(order) == Str("DESC") || Upper(Direction(order).s) == "ASC"
    ensures Direction(Direction(order)) == Direction(order)
  {
    assert Upper("DESC") == "DESC";
  }

  function ColumnOrderItem(e: (string, Scalar)): OrderItem {
    ColumnOrder(e.0, Direction(e.1))
  }

  /** The items a `group_by` / `order_by` call appends. */
  function OrderItems(args: OrderArgs): seq<OrderItem> {
    match args
    case OrderRaw(f, e) => [RawOrder(f, e)]
    case OrderMapping(es) => Map(ColumnOrderItem, es)
    case OrderColumn(c, o) => [ColumnOrderItem((c, o))]
  }

  /** `group_by($column)` / `order_by($column)`: the direction defaults to `"ASC"`. */
  function DefaultOrder(column: string): OrderArgs {
    OrderColumn(column, Str("ASC"))
  }

  /** A column given without a direction is ordered ascending. */
  lemma DefaultOrderIsAscending(column: string)
    ensures OrderItems(DefaultOrder(column)) == [ColumnOrder(column, Str("ASC"))]
  {
    assert Upper("ASC") == "ASC";
  }

  // ---------------------------------------------------------------------------
  // LIMIT / OFFSET and JOIN

  /** A limit or offset: a value cast with `(int)`, or a raw fragment with its arguments. */
  datatype Bound = Number(v: Scalar) | RawBound(fragment: string, extra: seq<Scalar>)

  /** Whether a bound is given: a truthy value or a raw array. */
  predicate BoundSet(b: Bound) {
    match b
    case Number(v) => Truthy(v)
    case RawBound(_, _) => true
  }

  /** `join($table, $attribute, $join_attribute, $type)`. */
  datatype JoinSpec = JoinSpec(table: string, attribute: string, joinAttribute: string, kind: string)

  /** `join($table, $attribute, $join_attribute)`: the type defaults to `inner`. */
  function DefaultJoin(table: string, attribute: string, joinAttribute: string): JoinSpec {
    JoinSpec(table, attribute, joinAttribute, "inner")
  }
}
