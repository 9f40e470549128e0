/**
 * What `prepare()` computes from the clause state: the list of clause strings, joined
 * by `" \n"`, and the bound arguments in placeholder order. This is the specification
 * the builder's imperative `Prepare` is proved against.
 */
module Assembler {
  import opened Php
  import opened Results
  import opened Seqs
  import opened Clauses

  /** Everything a query has accumulated, and the table it runs on. */
  datatype QueryState = QueryState(
    kind: Option<Kind>,
    table: string,
    select: seq<string>,
    assignments: Entries<Value>,  // the SET map
    insert: seq<Row>,
    joins: seq<JoinSpec>,
    where: Tree,
    groupBy: seq<OrderItem>,
    having: Tree,
    orderBy: seq<OrderItem>,
    limit: Bound,
    offset: Bound)

  /** A fresh query on a table. */
  function EmptyState(table: string): QueryState {
    QueryState(None, table, [], [], [], [], [], [], [], [], Number(Null), Number(Null))
  }

  /** A piece of SQL text with the arguments for its placeholders. */
  datatype Rendered = Rendered(text: string, args: seq<Scalar>)

  /** The result of `prepare()`: the SQL template and its arguments. */
  datatype Preparation = Preparation(sql: string, vars: seq<Scalar>)

  function Texts(rs: seq<Rendered>): (ts: seq<string>)
    ensures |ts| == |rs|
    ensures forall i :: 0 <= i < |rs| ==> ts[i] == rs[i].text
  {
    seq(|rs|, i requires 0 <= i < |rs| => rs[i].text)
  }

  function AllArgs(rs: seq<Rendered>): seq<Scalar> {
    if rs == [] then [] else AllArgs(rs[..|rs| - 1]) + rs[|rs| - 1].args
  }

  lemma RenderedSnoc(rs: seq<Rendered>, r: Rendered)
    ensures Texts(rs + [r]) == Texts(rs) + [r.text]
    ensures AllArgs(rs + [r]) == AllArgs(rs) + r.args
  {
    assert (rs + [r])[..|rs|] == rs;
  }

  /** One more rendered part keeps the collected texts and arguments in step with the parts. */
  lemma Extend(done: seq<Rendered>, r: Rendered, base: seq<Scalar>, texts: seq<string>, args: seq<Scalar>,
               t: string, args': seq<Scalar>)
    requires texts == Texts(done) && args == base + AllArgs(done)
    requires t == r.text && args' == args + r.args
    ensures texts + [t] == Texts(done + [r])
    ensures args' == base + AllArgs(done + [r])
  {
    RenderedSnoc(done, r);
  }

  /** The clause texts and arguments collected so far are those of the rendered parts `cs`. */
  predicate Collected(sql: seq<string>, args: seq<Scalar>, cs: seq<Rendered>) {
    sql == Texts(cs) && args == AllArgs(cs)
  }

  /** Collected texts and arguments stay in step when a run of parts follows. */
  lemma Chain(cs: seq<Rendered>, piece: seq<Rendered>, sql: seq<string>, args: seq<Scalar>,
              sql': seq<string>, args': seq<Scalar>)
    requires Collected(sql, args, cs)
    requires sql' == sql + Texts(piece) && args' == args + AllArgs(piece)
    ensures Collected(sql', args', cs + piece)
  {
    RenderedAppend(cs, piece);
  }

  lemma RenderedSingle(r: Rendered)
    ensures Texts([r]) == [r.text] && AllArgs([r]) == r.args
  {
    assert [r][..0] == [];
  }

  lemma {:induction false} RenderedAppend(rs: seq<Rendered>, qs: seq<Rendered>)
    ensures Texts(rs + qs) == Texts(rs) + Texts(qs)
    ensures AllArgs(rs + qs) == AllArgs(rs) + AllArgs(qs)
    decreases |qs|
  {
    if qs == [] {
      assert rs + qs == rs;
    } else {
      var init, last := qs[..|qs| - 1], qs[|qs| - 1];
      assert rs + qs == (rs + init) + [last];
      assert qs == init + [last];
      RenderedAppend(rs, init);
      RenderedSnoc(rs + init, last);
      RenderedSnoc(init, last);
    }
  }

  /** `sprintf("prefix%ssuffix", join(sep, parts))`. */
  function Wrap(prefix: string, sep: string, suffix: string, parts: seq<string>): string {
    prefix + Join(sep, parts) + suffix
  }

  /** Parts joined by a separator between a prefix and a suffix, their arguments in order. */
  function Section(prefix: string, sep: string, suffix: string, rs: seq<Rendered>): Rendered {
    Rendered(Wrap(prefix, sep, suffix, Texts(rs)), AllArgs(rs))
  }

  // ---------------------------------------------------------------------------
  // SET and INSERT

  /** A SET / INSERT cell: a placeholder that binds the value, a raw fragment inlined, or an array's string form. */
  function CellSql(v: Value): Rendered {
    match v
    case Plain(x) => Rendered("%s", [x])
    case Raw(f) => Rendered(f, [])
    case InList(_) => Rendered("Array", [])
  }

  function SetItem(e: (string, Value)): Rendered {
    var c := CellSql(e.1);
    Rendered("`" + e.0 + "` = " + c.text, c.args)
  }

  function SetSection(m: Entries<Value>): Rendered {
    Section("SET ", ", ", "", Map(SetItem, m))
  }

  /** `$row[$column]`: a missing column reads as null. */
  function Cell(row: Row, column: string): Value {
    match Lookup(row, column)
    case Some(v) => v
    case None => Plain(Null)
  }

  /** The cells of a row, in the given column order. */
  function RowCells(row: Row, columns: seq<string>): seq<Rendered> {
    if columns == [] then []
    else RowCells(row, columns[..|columns| - 1]) + [CellSql(Cell(row, columns[|columns| - 1]))]
  }

  function RowSql(columns: seq<string>, row: Row): Rendered {
    Section("(", ", ", ")", RowCells(row, columns))
  }

  function RowsSql(columns: seq<string>, rows: seq<Row>): seq<Rendered> {
    if rows == [] then []
    else RowsSql(columns, rows[..|rows| - 1]) + [RowSql(columns, rows[|rows| - 1])]
  }

  function Backticked(name: string): string {
    "`" + name + "`"
  }

  /** The column list is the first row's keys; every row is written in that order. */
  function InsertSection(rows: seq<Row>): Rendered
    requires rows != []
  {
    var columns := Keys(rows[0]);
    Section(Wrap("(", ", ", ") VALUES ", Map(Backticked, columns)), ", ", "", RowsSql(columns, rows))
  }

  // ---------------------------------------------------------------------------
  // JOIN

  function JoinLine(table: string, j: JoinSpec): Rendered {
    Rendered(Upper(j.kind) + " JOIN `" + j.table + "` ON `" + table + "`.`" + j.attribute
             + "` = `" + j.table + "`.`" + j.joinAttribute + "`", [])
  }

  /** One clause per join, in the order they were added. */
  function JoinLines(table: string, joins: seq<JoinSpec>): seq<Rendered> {
    if joins == [] then []
    else JoinLines(table, joins[..|joins| - 1]) + [JoinLine(table, joins[|joins| - 1])]
  }

  /** A join given without a type is an `INNER JOIN`. */
  lemma DefaultJoinIsInner(table: string, other: string, attribute: string, joinAttribute: string)
    ensures JoinLine(table, DefaultJoin(other, attribute, joinAttribute)).text
         == "INNER JOIN `" + other + "` ON `" + table + "`.`" + attribute + "` = `" + other + "`.`" + joinAttribute + "`"
    ensures JoinLine(table, DefaultJoin(other, attribute, joinAttribute)).args == []
  {
    assert Upper("inner") == "INNER";
  }

  // ---------------------------------------------------------------------------
  // WHERE / HAVING

  function ColumnSql(c: Column): string {
    match c
    case Name(n) => Backticked(n)
    case RawColumn(f) => f
  }

  /** A condition value: a placeholder, a raw fragment, or a parenthesised placeholder list. */
  function ConditionValue(v: Value): Rendered {
    match v
    case Plain(x) => Rendered("%s", [x])
    case Raw(f) => Rendered(f, [])
    case InList(vs) => Rendered(Wrap("(", ", ", ")", Repeat("%s", |vs|)), vs)
  }

  function ItemSql(item: Item): Rendered {
    match item
    case RawItem(f, e) => Rendered(f, e)
    case Cond(c, op, v) =>
      var r := ConditionValue(v);
      Rendered(ColumnSql(c) + " " + op + " " + r.text, r.args)
  }

  function GroupSql(g: Group): Rendered {
    Section("( ", " AND ", " )", Map(ItemSql, g))
  }

  /** `KEYWORD ( i1 AND i2 ) OR ( i3 )`. */
  function TreeSql(keyword: string, t: Tree): Rendered {
    Section(keyword + " ", " OR ", "", Map(GroupSql, t))
  }

  // ---------------------------------------------------------------------------
  // GROUP BY / ORDER BY, LIMIT / OFFSET

  function OrderItemSql(item: OrderItem): Rendered {
    match item
    case RawOrder(f, e) => Rendered(f, e)
    case ColumnOrder(c, o) => Rendered(Backticked(c) + " " + ToStr(o), [])
  }

  function OrderSection(keyword: string, items: seq<OrderItem>): Rendered {
    Section(keyword + " ", ", ", "", Map(OrderItemSql, items))
  }

  /** A bound: `%d` with the `(int)` of the value, or the raw fragment with its arguments. */
  function BoundSql(keyword: string, b: Bound): Rendered {
    match b
    case Number(v) => Rendered(keyword + " %d", [Int(ToInt(v))])
    case RawBound(f, e) => Rendered(keyword + " " + f, e)
  }

  /** An OFFSET needs a LIMIT: the largest unsigned 64-bit number stands in for "no limit". */
  const NoLimit: string := "LIMIT 18446744073709551615"

  function LimitLine(limit: Bound, offset: Bound): seq<Rendered> {
    if BoundSet(limit) then [BoundSql("LIMIT", limit)]
    else if BoundSet(offset) then [Rendered(NoLimit, [])]
    else []
  }

  function OffsetLine(offset: Bound): seq<Rendered> {
    if BoundSet(offset) then [BoundSql("OFFSET", offset)] else []
  }

  // ---------------------------------------------------------------------------
  // The statement

  /** The head clause: DELETE / UPDATE / INSERT on the table, or a SELECT with an optional FROM. */
  function Head(s: QueryState): seq<Rendered> {
    match s.kind
    case Some(Delete) => [Rendered("DELETE FROM `" + s.table + "`", [])]
    case Some(Update) => [Rendered("UPDATE `" + s.table + "`", [])]
    case Some(Insert) => [Rendered("INSERT INTO `" + s.table + "`", [])]
    case _ =>
      [Rendered("SELECT " + (if s.select == [] then "*" else Join(", ", s.select)), [])]
      + (if Truthy(Str(s.table)) then [Rendered("FROM `" + s.table + "`", [])] else [])
  }

  function SetClause(s: QueryState): seq<Rendered> {
    if s.assignments != [] then [SetSection(s.assignments)] else []
  }

  function InsertClause(s: QueryState): seq<Rendered> {
    if s.insert != [] then [InsertSection(s.insert)] else []
  }

  function WhereClause(s: QueryState): seq<Rendered> {
    if s.where != [] then [TreeSql("WHERE", s.where)] else []
  }

  function GroupByClause(s: QueryState): seq<Rendered> {
    if s.groupBy != [] then [OrderSection("GROUP BY", s.groupBy)] else []
  }

  function HavingClause(s: QueryState): seq<Rendered> {
    if s.having != [] then [TreeSql("HAVING", s.having)] else []
  }

  function OrderByClause(s: QueryState): seq<Rendered> {
    if s.orderBy != [] then [OrderSection("ORDER BY", s.orderBy)] else []
  }

  /** The clauses in their fixed order: head, SET, INSERT, JOIN, WHERE, GROUP BY, HAVING, ORDER BY, LIMIT, OFFSET. */
  function ClauseList(s: QueryState): seq<Rendered> {
    Head(s) + SetClause(s) + InsertClause(s) + JoinLines(s.table, s.joins) + WhereClause(s)
    + GroupByClause(s) + HavingClause(s) + OrderByClause(s) + LimitLine(s.limit, s.offset)
    + OffsetLine(s.offset)
  }

  /** `prepare()`. */
  function Compile(s: QueryState): Preparation {
    var cs := ClauseList(s);
    Preparation(Join(" \n", Texts(cs)), AllArgs(cs))
  }

  // ---------------------------------------------------------------------------
  // Properties of the rendering

  /** Joined text starts with its first part. */
  lemma {:induction false} JoinStartsWithFirst(sep: string, parts: seq<string>)
    requires parts != []
    ensures StartsWith(Join(sep, parts), parts[0])
    decreases |parts|
  {
    if |parts| > 1 {
      var init := parts[..|parts| - 1];
      JoinStartsWithFirst(sep, init);
      var j := Join(sep, init);
      assert Join(sep, parts) == j + (sep + parts[|parts| - 1]);
      assert Join(sep, parts)[..|parts[0]|] == j[..|parts[0]|];
    }
  }

  /** The statement starts with its head clause. */
  lemma CompileStartsWithHead(s: QueryState)
    ensures StartsWith(Compile(s).sql, Head(s)[0].text)
  {
    var cs := ClauseList(s);
    assert cs[0] == Head(s)[0];
    JoinStartsWithFirst(" \n", Texts(cs));
  }

  /** A query whose kind was never set compiles as a SELECT. */
  lemma UnsetKindIsSelect(s: QueryState)
    requires s.kind.None?
    ensures Compile(s) == Compile(s.(kind := Some(Select)))
    ensures StartsWith(Compile(s).sql, "SELECT ")
  {
    var s' := s.(kind := Some(Select));
    SelectHead(s);
    SelectHead(s');
    SameBody(s, s');
    CompileStartsWithHead(s);
  }

  /** Two states that differ at most in their kind and agree on the head list the same clauses. */
  lemma SameBody(s: QueryState, t: QueryState)
    requires t == s.(kind := t.kind) && Head(s) == Head(t)
    ensures ClauseList(s) == ClauseList(t)
  {
    assert SetClause(s) == SetClause(t) && InsertClause(s) == InsertClause(t);
    assert WhereClause(s) == WhereClause(t) && GroupByClause(s) == GroupByClause(t);
    assert HavingClause(s) == HavingClause(t) && OrderByClause(s) == OrderByClause(t);
  }

  /** Without DELETE, UPDATE or INSERT the head is the SELECT line. */
  lemma SelectHead(s: QueryState)
    requires s.kind.None? || s.kind == Some(Select)
    ensures Head(s) == Head(s.(kind := None))
    ensures Head(s)[0].text[..7] == "SELECT "
  {
  }

  /** The LIMIT clause: the limit if given, otherwise the "no limit" literal exactly when an offset is given. */
  lemma LimitLineCases(limit: Bound, offset: Bound)
    ensures |LimitLine(limit, offset)| == if BoundSet(limit) || BoundSet(offset) then 1 else 0
    ensures BoundSet(limit) ==> LimitLine(limit, offset) == [BoundSql("LIMIT", limit)]
    ensures !BoundSet(limit) && BoundSet(offset) ==> LimitLine(limit, offset) == [Rendered(NoLimit, [])]
  {
  }

  /** A numeric bound binds its `(int)` value through `%d`; a raw bound inlines its fragment. */
  lemma BoundSqlCases(keyword: string, b: Bound)
    ensures b.Number? ==> BoundSql(keyword, b) == Rendered(keyword + " %d", [Int(ToInt(b.v))])
    ensures b.RawBound? ==> BoundSql(keyword, b).args == b.extra
    ensures b.Number? && b.v.Int? ==> BoundSql(keyword, b).args == [b.v]
  {
  }

  /** A two-argument condition: `IS NULL` with no argument for null, `= %s` binding the value otherwise. */
  lemma TwoArgConditionSql(c: Column, v: Value)
    ensures v == Plain(Null) ==> ItemSql(TwoArgItem(c, v)) == Rendered(ColumnSql(c) + " IS NULL", [])
    ensures v.Plain? && v != Plain(Null) ==> ItemSql(TwoArgItem(c, v)) == Rendered(ColumnSql(c) + " = %s", [v.v])
    ensures v.Raw? ==> ItemSql(TwoArgItem(c, v)) == Rendered(ColumnSql(c) + " = " + v.fragment, [])
  {
    var col := ColumnSql(c);
    if v == Plain(Null) {
      assert col + " " + "IS" + " " + "NULL" == col + " IS NULL";
    } else if v.Plain? {
      assert col + " " + "=" + " " + "%s" == col + " = %s";
    } else if v.Raw? {
      assert col + " " + "=" + " " + v.fragment == col + " = " + v.fragment;
    }
  }

  /** A three-argument condition upper-cases its operator; a null value binds nothing. */
  lemma ThreeArgConditionSql(c: Column, op: string, v: Value)
    ensures v == Plain(Null) ==> ItemSql(ThreeArgItem(c, op, v)) == Rendered(ColumnSql(c) + " " + Upper(op) + " NULL", [])
    ensures v != Plain(Null) ==> ItemSql(ThreeArgItem(c, op, v)).args == ConditionValue(v).args
    ensures v.InList? ==> ItemSql(ThreeArgItem(c, op, v)).args == v.items
  {
  }

  /** However the conditions are grouped, their arguments come out in the order the conditions were added. */
  lemma {:induction false} TreeArgsInItemOrder(keyword: string, t: Tree)
    ensures TreeSql(keyword, t).args == AllArgs(Map(ItemSql, Flatten(t)))
    decreases |t|
  {
    if t != [] {
      var init, g := t[..|t| - 1], t[|t| - 1];
      TreeArgsInItemOrder(keyword, init);
      assert t == init + [g];
      MapSnoc(GroupSql, init, g);
      RenderedSnoc(Map(GroupSql, init), GroupSql(g));
      FlattenSnoc(init, g);
      MapAppend(ItemSql, Flatten(init), g);
      RenderedAppend(Map(ItemSql, Flatten(init)), Map(ItemSql, g));
    }
  }

  /** The bound values of a list of cells, in order. */
  function BoundValues(vs: seq<Value>): seq<Scalar> {
    if vs == [] then []
    else BoundValues(vs[..|vs| - 1]) + (if vs[|vs| - 1].Plain? then [vs[|vs| - 1].v] else [])
  }

  function EntryValue(e: (string, Value)): Value {
    e.1
  }

  function SetValues(m: Entries<Value>): seq<Value> {
    Map(EntryValue, m)
  }

  lemma BoundValuesSnoc(vs: seq<Value>, v: Value)
    ensures BoundValues(vs + [v]) == BoundValues(vs) + (if v.Plain? then [v.v] else [])
  {
    assert (vs + [v])[..|vs|] == vs;
  }

  lemma {:induction false} SetItemArgs(m: Entries<Value>)
    ensures AllArgs(Map(SetItem, m)) == BoundValues(SetValues(m))
    decreases |m|
  {
    if m != [] {
      var init, e := m[..|m| - 1], m[|m| - 1];
      SetItemArgs(init);
      assert m == init + [e];
      MapSnoc(SetItem, init, e);
      RenderedSnoc(Map(SetItem, init), SetItem(e));
      MapSnoc(EntryValue, init, e);
      BoundValuesSnoc(SetValues(init), e.1);
      assert SetItem(e).args == CellSql(e.1).args;
    }
  }

  /** SET binds exactly the plain values, in column order; raw values bind nothing. */
  lemma SetArgsAreBoundValues(m: Entries<Value>)
    ensures SetSection(m).args == BoundValues(SetValues(m))
  {
    SetItemArgs(m);
  }

  lemma RenderedPair(a: Rendered, b: Rendered)
    ensures Texts([a, b]) == [a.text, b.text]
    ensures AllArgs([a, b]) == a.args + b.args
  {
    RenderedSingle(a);
    assert [a, b] == [a] + [b];
    RenderedSnoc([a], b);
  }

  lemma JoinPair(sep: string, a: string, b: string)
    ensures Join(sep, [a, b]) == a + sep + b
  {
    assert [a, b][..1] == [a];
  }

  /** A two-column row of plain values: `(%s, %s)` binding both. */
  lemma PlainPairRow(row: Row, columns: seq<string>, x: Scalar, y: Scalar)
    requires |columns| == 2
    requires Cell(row, columns[0]) == Plain(x) && Cell(row, columns[1]) == Plain(y)
    ensures RowSql(columns, row) == Rendered("(%s, %s)", [x, y])
  {
    assert columns[..1][..0] == [];
    assert RowCells(row, columns[..1]) == [Rendered("%s", [x])];
    assert RowCells(row, columns) == [Rendered("%s", [x]), Rendered("%s", [y])];
    RenderedPair(Rendered("%s", [x]), Rendered("%s", [y]));
    JoinPair(", ", "%s", "%s");
  }

  /** The rows of `testInsertMultiple`: john, 37 and jim, 22, the second with its columns swapped. */
  function JohnAndJim(): seq<Row> {
    [[("name", Plain(Str("john"))), ("age", Plain(Int(37)))],
     [("age", Plain(Int(22))), ("name", Plain(Str("jim")))]]
  }

  lemma JohnAndJimRows()
    ensures RowsSql(["name", "age"], JohnAndJim())
         == [Rendered("(%s, %s)", [Str("john"), Int(37)]), Rendered("(%s, %s)", [Str("jim"), Int(22)])]
  {
    var rows := JohnAndJim();
    var r0, r1 := rows[0], rows[1];
    var columns := ["name", "age"];
    PlainPairRow(r0, columns, Str("john"), Int(37));
    PlainPairRow(r1, columns, Str("jim"), Int(22));
    assert rows[..1] == [r0] && [r0][..0] == [];
    assert RowsSql(columns, [r0]) == [RowSql(columns, r0)];
  }

  lemma NameAgeText()
    ensures "(" + ("`name`" + ", " + "`age`") + ") VALUES " == "(`name`, `age`) VALUES "
  {
    assert "`name`" + ", " == "`name`, ";
    assert "`name`, " + "`age`" == "`name`, `age`";
    assert "(" + "`name`, `age`" == "(`name`, `age`";
  }

  lemma JohnAndJimText()
    ensures "(`name`, `age`) VALUES " + ("(%s, %s)" + ", " + "(%s, %s)") + "" == "(`name`, `age`) VALUES (%s, %s), (%s, %s)"
  {
    assert "(%s, %s)" + ", " == "(%s, %s), ";
    assert "(%s, %s), " + "(%s, %s)" == "(%s, %s), (%s, %s)";
  }

  lemma NameAgeColumns()
    ensures Wrap("(", ", ", ") VALUES ", Map(Backticked, ["name", "age"])) == "(`name`, `age`) VALUES "
  {
    var cols := Map(Backticked, ["name", "age"]);
    assert cols[0] == "`name`" && cols[1] == "`age`";
    assert cols == ["`name`", "`age`"];
    JoinPair(", ", "`name`", "`age`");
    NameAgeText();
  }

  lemma JohnAndJimSection()
    ensures InsertSection(JohnAndJim())
         == Rendered("(`name`, `age`) VALUES (%s, %s), (%s, %s)", [Str("john"), Int(37), Str("jim"), Int(22)])
  {
    var rows := JohnAndJim();
    assert Keys(rows[0]) == ["name", "age"];
    JohnAndJimRows();
    NameAgeColumns();
    var first, second := Rendered("(%s, %s)", [Str("john"), Int(37)]), Rendered("(%s, %s)", [Str("jim"), Int(22)]);
    RenderedPair(first, second);
    JoinPair(", ", first.text, second.text);
    JohnAndJimText();
  }

  lemma JohnAndJimClauses()
    ensures ClauseList(EmptyState("table").(kind := Some(Kind.Insert), insert := JohnAndJim()))
         == [Rendered("INSERT INTO `table`", []), InsertSection(JohnAndJim())]
  {
    var s := EmptyState("table").(kind := Some(Kind.Insert), insert := JohnAndJim());
    assert s == QueryState(Some(Kind.Insert), "table", [], [], JohnAndJim(), [], [], [], [], [], Number(Null), Number(Null));
    assert "INSERT INTO `" + "table" + "`" == "INSERT INTO `table`";
    assert Head(s) == [Rendered("INSERT INTO `table`", [])];
    assert SetClause(s) == [] && JoinLines(s.table, s.joins) == [];
    assert WhereClause(s) == [] && GroupByClause(s) == [] && HavingClause(s) == [] && OrderByClause(s) == [];
    assert LimitLine(s.limit, s.offset) == [] && OffsetLine(s.offset) == [];
  }

  /**
   * `insert` of two rows whose columns come in different orders, then `prepare()`: both rows
   * are written in the first row's column order and bind john, 37, jim, 22.
   */
  lemma InsertMultipleExample()
    ensures var s := EmptyState("table").(kind := Some(Kind.Insert), insert := Map(EncodeRow, InsertRows(ManyRows(JohnAndJim()))));
            Compile(s) == Preparation("INSERT INTO `table`" + " \n" + "(`name`, `age`) VALUES (%s, %s), (%s, %s)",
                                      [Str("john"), Int(37), Str("jim"), Int(22)])
  {
    var rows := JohnAndJim();
    assert Map(EncodeRow, InsertRows(ManyRows(rows))) == rows by {
      assert EncodeRow(rows[0]) == rows[0];
      assert EncodeRow(rows[1]) == rows[1];
    }
    JohnAndJimSection();
    JohnAndJimClauses();
    var head := Rendered("INSERT INTO `table`", []);
    var ins := InsertSection(rows);
    RenderedPair(head, ins);
    JoinPair(" \n", head.text, ins.text);
    assert [] + ins.args == ins.args;
  }

  lemma {:induction false} BoundValuesAppend(a: seq<Value>, b: seq<Value>)
    ensures BoundValues(a + b) == BoundValues(a) + BoundValues(b)
    decreases |b|
  {
    if b == [] {
      assert a + b == a;
    } else {
      var init, v := b[..|b| - 1], b[|b| - 1];
      assert a + b == (a + init) + [v];
      assert b == init + [v];
      BoundValuesAppend(a, init);
      BoundValuesSnoc(a + init, v);
      BoundValuesSnoc(init, v);
    }
  }

  /** The cells of a row, `$row[$column]` for each column in order. */
  function RowValues(row: Row, columns: seq<string>): (vs: seq<Value>)
    ensures |vs| == |columns|
    ensures forall k :: 0 <= k < |columns| ==> vs[k] == Cell(row, columns[k])
  {
    if columns == [] then []
    else
      var init := columns[..|columns| - 1];
      assert forall k :: 0 <= k < |init| ==> init[k] == columns[k];
      RowValues(row, init) + [Cell(row, columns[|columns| - 1])]
  }

  /** The cells of all rows, row after row, each row in the given column order. */
  function InsertValues(columns: seq<string>, rows: seq<Row>): seq<Value> {
    if rows == [] then []
    else InsertValues(columns, rows[..|rows| - 1]) + RowValues(rows[|rows| - 1], columns)
  }

  lemma {:induction false} RowCellsArgs(row: Row, columns: seq<string>)
    ensures AllArgs(RowCells(row, columns)) == BoundValues(RowValues(row, columns))
    decreases |columns|
  {
    if columns != [] {
      var init, c := columns[..|columns| - 1], columns[|columns| - 1];
      RowCellsArgs(row, init);
      RenderedSnoc(RowCells(row, init), CellSql(Cell(row, c)));
      BoundValuesSnoc(RowValues(row, init), Cell(row, c));
    }
  }

  lemma {:induction false} RowsSqlArgs(columns: seq<string>, rows: seq<Row>)
    ensures AllArgs(RowsSql(columns, rows)) == BoundValues(InsertValues(columns, rows))
    decreases |rows|
  {
    if rows != [] {
      var init, row := rows[..|rows| - 1], rows[|rows| - 1];
      RowsSqlArgs(columns, init);
      RenderedSnoc(RowsSql(columns, init), RowSql(columns, row));
      RowCellsArgs(row, columns);
      BoundValuesAppend(InsertValues(columns, init), RowValues(row, columns));
    }
  }

  /**
   * INSERT binds the plain cells row after row, each row in the first row's column order;
   * a column missing from a later row binds null, and raw cells bind nothing.
   */
  lemma InsertArgsRowMajor(rows: seq<Row>)
    requires rows != []
    ensures InsertSection(rows).args == BoundValues(InsertValues(Keys(rows[0]), rows))
  {
    RowsSqlArgs(Keys(rows[0]), rows);
  }

  // ---------------------------------------------------------------------------
  // Every placeholder has its argument

  predicate NoPct(s: string) {
    Pct(s) == 0
  }

  /** A rendered piece has exactly as many `%` placeholders as arguments. */
  predicate Balanced(r: Rendered) {
    Pct(r.text) == |r.args|
  }

  predicate AllBalanced(rs: seq<Rendered>) {
    forall i :: 0 <= i < |rs| ==> Balanced(rs[i])
  }

  /** Raw cell fragments carry no placeholder of their own. */
  predicate CellOk(v: Value) {
    v.Raw? ==> NoPct(v.fragment)
  }

  predicate EntriesOk(m: Entries<Value>) {
    forall i :: 0 <= i < |m| ==> NoPct(m[i].0) && CellOk(m[i].1)
  }

  predicate ColumnOk(c: Column) {
    match c
    case Name(n) => NoPct(n)
    case RawColumn(f) => NoPct(f)
  }

  /** A raw condition lists one argument per placeholder; names, operators and raw values have none. */
  predicate ItemOk(item: Item) {
    match item
    case RawItem(f, e) => Pct(f) == |e|
    case Cond(c, op, v) => ColumnOk(c) && NoPct(op) && CellOk(v)
  }

  predicate TreeOk(t: Tree) {
    forall g, i :: 0 <= g < |t| && 0 <= i < |t[g]| ==> ItemOk(t[g][i])
  }

  predicate OrderOk(items: seq<OrderItem>) {
    forall i :: 0 <= i < |items| ==>
      match items[i]
      case RawOrder(f, e) => Pct(f) == |e|
      case ColumnOrder(c, o) => NoPct(c) && NoPct(ToStr(o))
  }

  predicate BoundOk(b: Bound) {
    b.RawBound? ==> Pct(b.fragment) == |b.extra|
  }

  predicate JoinOk(j: JoinSpec) {
    NoPct(j.table) && NoPct(j.attribute) && NoPct(j.joinAttribute) && NoPct(j.kind)
  }

  /** A query whose raw fragments carry as many placeholders as arguments, and whose names carry none. */
  predicate WellFormed(s: QueryState) {
    && NoPct(s.table)
    && (forall i :: 0 <= i < |s.select| ==> NoPct(s.select[i]))
    && EntriesOk(s.assignments)
    && (forall r :: 0 <= r < |s.insert| ==> EntriesOk(s.insert[r]))
    && (forall j :: 0 <= j < |s.joins| ==> JoinOk(s.joins[j]))
    && TreeOk(s.where) && TreeOk(s.having)
    && OrderOk(s.groupBy) && OrderOk(s.orderBy)
    && BoundOk(s.limit) && BoundOk(s.offset)
  }

  function SumPct(parts: seq<string>): nat {
    if parts == [] then 0 else SumPct(parts[..|parts| - 1]) + Pct(parts[|parts| - 1])
  }

  lemma {:induction false} PctJoin(sep: string, parts: seq<string>)
    requires NoPct(sep)
    ensures Pct(Join(sep, parts)) == SumPct(parts)
    decreases |parts|
  {
    if |parts| == 1 {
      assert parts[..0] == [];
    } else if |parts| > 1 {
      var init := parts[..|parts| - 1];
      PctJoin(sep, init);
      PctCat(Join(sep, init), sep);
      PctCat(Join(sep, init) + sep, parts[|parts| - 1]);
    }
  }

  lemma {:induction false} SumPctTexts(rs: seq<Rendered>)
    requires AllBalanced(rs)
    ensures SumPct(Texts(rs)) == |AllArgs(rs)|
    decreases |rs|
  {
    if rs != [] {
      var init := rs[..|rs| - 1];
      assert Texts(rs)[..|rs| - 1] == Texts(init);
      SumPctTexts(init);
    }
  }

  lemma {:induction false} SumPctZero(parts: seq<string>)
    requires forall i :: 0 <= i < |parts| ==> NoPct(parts[i])
    ensures SumPct(parts) == 0
    decreases |parts|
  {
    if parts != [] {
      SumPctZero(parts[..|parts| - 1]);
    }
  }

  lemma {:induction false} SumPctRepeat(n: nat)
    ensures SumPct(Repeat("%s", n)) == n
    decreases n
  {
    if n > 0 {
      assert Repeat("%s", n)[..n - 1] == Repeat("%s", n - 1);
      SumPctRepeat(n - 1);
      PctPlaceholders();
    }
  }

  lemma {:induction false} PctUpper(s: string)
    ensures Pct(Upper(s)) == Pct(s)
    decreases |s|
  {
    if s != [] {
      var init := s[..|s| - 1];
      assert Upper(s) == Upper(init) + [UpperChar(s[|s| - 1])];
      assert s == init + [s[|s| - 1]];
      PctUpper(init);
    }
  }

  /** Text between two placeholder-free literals has the placeholders of the text. */
  lemma PctWrap(a: string, x: string, b: string)
    requires '%' !in a && '%' !in b
    ensures Pct(a + x + b) == Pct(x)
  {
    PctFree(a);
    PctFree(b);
    PctCat(a, x);
    PctCat(a + x, b);
  }

  lemma JoinNoPct(sep: string, parts: seq<string>)
    requires '%' !in sep && forall i :: 0 <= i < |parts| ==> NoPct(parts[i])
    ensures NoPct(Join(sep, parts))
  {
    PctFree(sep);
    PctJoin(sep, parts);
    SumPctZero(parts);
  }

  lemma SectionBalanced(prefix: string, sep: string, suffix: string, rs: seq<Rendered>)
    requires NoPct(prefix) && NoPct(sep) && NoPct(suffix) && AllBalanced(rs)
    ensures Balanced(Section(prefix, sep, suffix, rs))
  {
    var j := Join(sep, Texts(rs));
    PctJoin(sep, Texts(rs));
    SumPctTexts(rs);
    PctCat(prefix, j);
    PctCat(prefix + j, suffix);
  }

  lemma CellBalanced(v: Value)
    requires CellOk(v)
    ensures Balanced(CellSql(v))
  {
    match v {
      case Plain(_) => PctPlaceholders();
      case Raw(_) =>
      case InList(_) => PctFree("Array");
    }
  }

  lemma SetItemBalanced(e: (string, Value))
    requires NoPct(e.0) && CellOk(e.1)
    ensures Balanced(SetItem(e))
  {
    var c := CellSql(e.1);
    CellBalanced(e.1);
    PctWrap("`", e.0, "` = ");
    PctCat("`" + e.0 + "` = ", c.text);
  }

  lemma SetBalanced(m: Entries<Value>)
    requires EntriesOk(m)
    ensures Balanced(SetSection(m))
  {
    var rs := Map(SetItem, m);
    forall i | 0 <= i < |rs| ensures Balanced(rs[i]) {
      SetItemBalanced(m[i]);
    }
    PctFree("SET ");
    PctFree(", ");
    PctFree("");
    SectionBalanced("SET ", ", ", "", rs);
  }

  lemma {:induction false} LookupIn<V>(m: Entries<V>, k: string)
    requires Lookup(m, k).Some?
    ensures exists i :: 0 <= i < |m| && m[i].1 == Lookup(m, k).value
  {
    if m[0].0 != k {
      LookupIn(m[1..], k);
      var i :| 0 <= i < |m[1..]| && m[1..][i].1 == Lookup(m[1..], k).value;
      assert m[i + 1].1 == Lookup(m, k).value;
    }
  }

  lemma {:induction false} RowCellsBalanced(row: Row, columns: seq<string>)
    requires EntriesOk(row)
    ensures AllBalanced(RowCells(row, columns))
    decreases |columns|
  {
    if columns != [] {
      var c := columns[|columns| - 1];
      RowCellsBalanced(row, columns[..|columns| - 1]);
      if Lookup(row, c).Some? {
        LookupIn(row, c);
      }
      CellBalanced(Cell(row, c));
    }
  }

  lemma {:induction false} RowsBalanced(columns: seq<string>, rows: seq<Row>)
    requires forall r :: 0 <= r < |rows| ==> EntriesOk(rows[r])
    ensures AllBalanced(RowsSql(columns, rows))
    decreases |rows|
  {
    if rows != [] {
      var row := rows[|rows| - 1];
      RowsBalanced(columns, rows[..|rows| - 1]);
      RowCellsBalanced(row, columns);
      SectionBalanced("(", ", ", ")", RowCells(row, columns));
    }
  }

  lemma BacktickedNoPct(name: string)
    requires NoPct(name)
    ensures NoPct(Backticked(name))
  {
    PctFree("`");
    PctCat("`", name);
    PctCat("`" + name, "`");
  }

  lemma ValuesWrap(x: string)
    requires NoPct(x)
    ensures NoPct("(" + x + ") VALUES ")
  {
    PctWrap("(", x, ") VALUES ");
  }

  lemma ValuesPrefixBalanced(names: seq<string>)
    requires forall i :: 0 <= i < |names| ==> NoPct(names[i])
    ensures NoPct("(" + Join(", ", names) + ") VALUES ")
  {
    JoinNoPct(", ", names);
    ValuesWrap(Join(", ", names));
  }

  lemma CommaSectionBalanced(prefix: string, rs: seq<Rendered>)
    requires NoPct(prefix) && AllBalanced(rs)
    ensures Balanced(Section(prefix, ", ", "", rs))
  {
    PctFree(", ");
    PctFree("");
    SectionBalanced(prefix, ", ", "", rs);
  }

  lemma ColumnNamesNoPct(row: Row)
    requires EntriesOk(row)
    ensures forall i :: 0 <= i < |row| ==> NoPct(Map(Backticked, Keys(row))[i])
  {
    var columns := Keys(row);
    forall i | 0 <= i < |row| ensures NoPct(Map(Backticked, columns)[i]) {
      assert columns[i] == row[i].0;
      BacktickedNoPct(columns[i]);
    }
  }

  lemma InsertBalanced(rows: seq<Row>)
    requires rows != [] && forall r :: 0 <= r < |rows| ==> EntriesOk(rows[r])
    ensures Balanced(InsertSection(rows))
  {
    var columns := Keys(rows[0]);
    var names := Map(Backticked, columns);
    ColumnNamesNoPct(rows[0]);
    ValuesPrefixBalanced(names);
    RowsBalanced(columns, rows);
    CommaSectionBalanced("(" + Join(", ", names) + ") VALUES ", RowsSql(columns, rows));
  }

  lemma JoinLineBalanced(table: string, j: JoinSpec)
    requires NoPct(table) && JoinOk(j)
    ensures Balanced(JoinLine(table, j))
  {
    PctUpper(j.kind);
    PctFree(" JOIN `");
    PctFree("` ON `");
    PctFree("`.`");
    PctFree("` = `");
    PctFree("`");
    var a := Upper(j.kind) + " JOIN `";
    PctCat(Upper(j.kind), " JOIN `");
    var b := a + j.table;
    PctCat(a, j.table);
    var c := b + "` ON `";
    PctCat(b, "` ON `");
    var d := c + table;
    PctCat(c, table);
    var e := d + "`.`";
    PctCat(d, "`.`");
    var f := e + j.attribute;
    PctCat(e, j.attribute);
    var g := f + "` = `";
    PctCat(f, "` = `");
    var h := g + j.table;
    PctCat(g, j.table);
    var i := h + "`.`";
    PctCat(h, "`.`");
    var k := i + j.joinAttribute;
    PctCat(i, j.joinAttribute);
    PctCat(k, "`");
  }

  lemma {:induction false} JoinLinesBalanced(table: string, joins: seq<JoinSpec>)
    requires NoPct(table) && forall j :: 0 <= j < |joins| ==> JoinOk(joins[j])
    ensures AllBalanced(JoinLines(table, joins))
    decreases |joins|
  {
    if joins != [] {
      JoinLinesBalanced(table, joins[..|joins| - 1]);
      JoinLineBalanced(table, joins[|joins| - 1]);
    }
  }

  lemma ConditionValueBalanced(v: Value)
    requires CellOk(v)
    ensures Balanced(ConditionValue(v))
  {
    match v {
      case Plain(_) => PctPlaceholders();
      case Raw(_) =>
      case InList(vs) =>
        var j := Join(", ", Repeat("%s", |vs|));
        PctFree(", ");
        PctJoin(", ", Repeat("%s", |vs|));
        SumPctRepeat(|vs|);
        PctFree("(");
        PctFree(")");
        PctCat("(", j);
        PctCat("(" + j, ")");
    }
  }

  lemma ColumnNoPct(c: Column)
    requires ColumnOk(c)
    ensures NoPct(ColumnSql(c))
  {
    if c.Name? {
      BacktickedNoPct(c.name);
    }
  }

  lemma ItemBalanced(item: Item)
    requires ItemOk(item)
    ensures Balanced(ItemSql(item))
  {
    match item {
      case RawItem(_, _) =>
      case Cond(c, op, v) =>
        var r := ConditionValue(v);
        ConditionValueBalanced(v);
        ColumnNoPct(c);
        PctFree(" ");
        PctCat(ColumnSql(c), " ");
        PctCat(ColumnSql(c) + " ", op);
        PctCat(ColumnSql(c) + " " + op, " ");
        PctCat(ColumnSql(c) + " " + op + " ", r.text);
    }
  }

  /** A keyword and the space after it carry no placeholder. */
  lemma KeywordNoPct(keyword: string)
    requires '%' !in keyword
    ensures NoPct(keyword + " ")
  {
    PctFree(keyword);
    PctFree(" ");
    PctCat(keyword, " ");
  }

  lemma TreeBalanced(keyword: string, t: Tree)
    requires '%' !in keyword && TreeOk(t)
    ensures Balanced(TreeSql(keyword, t))
  {
    KeywordNoPct(keyword);
    PctFree("");
    var gs := Map(GroupSql, t);
    forall g | 0 <= g < |t| ensures Balanced(gs[g]) {
      var rs := Map(ItemSql, t[g]);
      forall i | 0 <= i < |rs| ensures Balanced(rs[i]) {
        ItemBalanced(t[g][i]);
      }
      PctFree("( ");
      PctFree(" AND ");
      PctFree(" )");
      SectionBalanced("( ", " AND ", " )", rs);
    }
    PctFree(" OR ");
    SectionBalanced(keyword + " ", " OR ", "", gs);
  }

  lemma OrderItemBalanced(item: OrderItem)
    requires match item
             case RawOrder(f, e) => Pct(f) == |e|
             case ColumnOrder(c, o) => NoPct(c) && NoPct(ToStr(o))
    ensures Balanced(OrderItemSql(item))
  {
    if item.ColumnOrder? {
      BacktickedNoPct(item.column);
      PctFree(" ");
      PctCat(Backticked(item.column), " ");
      PctCat(Backticked(item.column) + " ", ToStr(item.order));
    }
  }

  lemma OrderBalanced(keyword: string, items: seq<OrderItem>)
    requires '%' !in keyword && OrderOk(items)
    ensures Balanced(OrderSection(keyword, items))
  {
    KeywordNoPct(keyword);
    PctFree("");
    var rs := Map(OrderItemSql, items);
    forall i | 0 <= i < |rs| ensures Balanced(rs[i]) {
      OrderItemBalanced(items[i]);
    }
    PctFree(", ");
    SectionBalanced(keyword + " ", ", ", "", rs);
  }

  lemma TableLineBalanced(prefix: string, table: string)
    requires '%' !in prefix && NoPct(table)
    ensures Balanced(Rendered(prefix + table + "`", []))
  {
    PctFree(prefix);
    PctFree("`");
    PctCat(prefix, table);
    PctCat(prefix + table, "`");
  }

  lemma SelectWrap(list: string)
    requires NoPct(list)
    ensures Balanced(Rendered("SELECT " + list, []))
  {
    PctWrap("SELECT ", list, "");
    assert "SELECT " + list + "" == "SELECT " + list;
  }

  lemma SelectLineBalanced(select: seq<string>)
    requires forall i :: 0 <= i < |select| ==> NoPct(select[i])
    ensures Balanced(Rendered("SELECT " + (if select == [] then "*" else Join(", ", select)), []))
  {
    if select == [] {
      PctFree("*");
      SelectWrap("*");
    } else {
      JoinNoPct(", ", select);
      SelectWrap(Join(", ", select));
    }
  }

  lemma FromLineBalanced(table: string)
    requires NoPct(table)
    ensures AllBalanced(if Truthy(Str(table)) then [Rendered("FROM `" + table + "`", [])] else [])
  {
    TableLineBalanced("FROM `", table);
  }

  lemma SelectHeadBalanced(select: seq<string>, table: string)
    requires NoPct(table) && forall i :: 0 <= i < |select| ==> NoPct(select[i])
    ensures AllBalanced([Rendered("SELECT " + (if select == [] then "*" else Join(", ", select)), [])]
                        + (if Truthy(Str(table)) then [Rendered("FROM `" + table + "`", [])] else []))
  {
    SelectLineBalanced(select);
    FromLineBalanced(table);
  }

  lemma DeleteHeadBalanced(s: QueryState)
    requires s.kind == Some(Delete) && NoPct(s.table)
    ensures AllBalanced(Head(s))
  {
    TableLineBalanced("DELETE FROM `", s.table);
  }

  lemma UpdateHeadBalanced(s: QueryState)
    requires s.kind == Some(Update) && NoPct(s.table)
    ensures AllBalanced(Head(s))
  {
    assert Head(s) == [Rendered("UPDATE `" + s.table + "`", [])];
    TableLineBalanced("UPDATE `", s.table);
  }

  lemma InsertHeadBalanced(s: QueryState)
    requires s.kind == Some(Insert) && NoPct(s.table)
    ensures AllBalanced(Head(s))
  {
    assert Head(s) == [Rendered("INSERT INTO `" + s.table + "`", [])];
    TableLineBalanced("INSERT INTO `", s.table);
  }

  lemma HeadBalanced(s: QueryState)
    requires NoPct(s.table) && forall i :: 0 <= i < |s.select| ==> NoPct(s.select[i])
    ensures AllBalanced(Head(s))
  {
    match s.kind {
      case Some(Delete) => DeleteHeadBalanced(s);
      case Some(Update) => UpdateHeadBalanced(s);
      case Some(Insert) => InsertHeadBalanced(s);
      case _ => SelectHeadBalanced(s.select, s.table);
    }
  }

  lemma BoundBalanced(keyword: string, b: Bound)
    requires '%' !in keyword && BoundOk(b)
    ensures Balanced(BoundSql(keyword, b))
  {
    match b {
      case Number(_) =>
        PctFree(keyword);
        PctCat(keyword, " %d");
        PctCat(" ", "%d");
        PctCat("%", "d");
        PctFree(" ");
        PctFree("d");
        assert Pct("%") == 1;
      case RawBound(f, _) =>
        PctFree(keyword + " ");
        PctCat(keyword + " ", f);
    }
  }

  lemma ConcatBalanced(a: seq<Rendered>, b: seq<Rendered>)
    requires AllBalanced(a) && AllBalanced(b)
    ensures AllBalanced(a + b)
  {
  }

  lemma SetClauseBalanced(s: QueryState)
    requires EntriesOk(s.assignments)
    ensures AllBalanced(SetClause(s))
  {
    if s.assignments != [] { SetBalanced(s.assignments); }
  }

  lemma InsertClauseBalanced(s: QueryState)
    requires forall r :: 0 <= r < |s.insert| ==> EntriesOk(s.insert[r])
    ensures AllBalanced(InsertClause(s))
  {
    if s.insert != [] { InsertBalanced(s.insert); }
  }

  lemma WhereClauseBalanced(s: QueryState)
    requires TreeOk(s.where)
    ensures AllBalanced(WhereClause(s))
  {
    if s.where != [] { TreeBalanced("WHERE", s.where); }
  }

  lemma GroupByClauseBalanced(s: QueryState)
    requires OrderOk(s.groupBy)
    ensures AllBalanced(GroupByClause(s))
  {
    if s.groupBy != [] { OrderBalanced("GROUP BY", s.groupBy); }
  }

  lemma HavingClauseBalanced(s: QueryState)
    requires TreeOk(s.having)
    ensures AllBalanced(HavingClause(s))
  {
    if s.having != [] { TreeBalanced("HAVING", s.having); }
  }

  lemma OrderByClauseBalanced(s: QueryState)
    requires OrderOk(s.orderBy)
    ensures AllBalanced(OrderByClause(s))
  {
    if s.orderBy != [] { OrderBalanced("ORDER BY", s.orderBy); }
  }

  lemma NoLimitFree()
    ensures NoPct(NoLimit)
  {
    PctFree(NoLimit);
  }

  lemma GivenLimitBalanced(limit: Bound, offset: Bound)
    requires BoundOk(limit) && BoundSet(limit)
    ensures AllBalanced(LimitLine(limit, offset))
  {
    BoundBalanced("LIMIT", limit);
  }

  lemma NoLimitLineBalanced(limit: Bound, offset: Bound)
    requires !BoundSet(limit) && BoundSet(offset)
    ensures AllBalanced(LimitLine(limit, offset))
  {
    NoLimitFree();
  }

  lemma LimitLineBalanced(limit: Bound, offset: Bound)
    requires BoundOk(limit)
    ensures AllBalanced(LimitLine(limit, offset))
  {
    if BoundSet(limit) {
      GivenLimitBalanced(limit, offset);
    } else if BoundSet(offset) {
      NoLimitLineBalanced(limit, offset);
    }
  }

  lemma OffsetLineBalanced(offset: Bound)
    requires BoundOk(offset)
    ensures AllBalanced(OffsetLine(offset))
  {
    BoundBalanced("OFFSET", offset);
  }

  /** The clause list is balanced when each of its parts is. */
  lemma ChainBalanced(s: QueryState)
    requires AllBalanced(Head(s)) && AllBalanced(SetClause(s)) && AllBalanced(InsertClause(s))
    requires AllBalanced(JoinLines(s.table, s.joins)) && AllBalanced(WhereClause(s))
    requires AllBalanced(GroupByClause(s)) && AllBalanced(HavingClause(s)) && AllBalanced(OrderByClause(s))
    requires AllBalanced(LimitLine(s.limit, s.offset)) && AllBalanced(OffsetLine(s.offset))
    ensures AllBalanced(ClauseList(s))
  {
    var c1 := Head(s) + SetClause(s);
    ConcatBalanced(Head(s), SetClause(s));
    var c2 := c1 + InsertClause(s);
    ConcatBalanced(c1, InsertClause(s));
    var c3 := c2 + JoinLines(s.table, s.joins);
    ConcatBalanced(c2, JoinLines(s.table, s.joins));
    var c4 := c3 + WhereClause(s);
    ConcatBalanced(c3, WhereClause(s));
    var c5 := c4 + GroupByClause(s);
    ConcatBalanced(c4, GroupByClause(s));
    var c6 := c5 + HavingClause(s);
    ConcatBalanced(c5, HavingClause(s));
    var c7 := c6 + OrderByClause(s);
    ConcatBalanced(c6, OrderByClause(s));
    var c8 := c7 + LimitLine(s.limit, s.offset);
    ConcatBalanced(c7, LimitLine(s.limit, s.offset));
    ConcatBalanced(c8, OffsetLine(s.offset));
  }

  lemma ClausesBalanced(s: QueryState)
    requires WellFormed(s)
    ensures AllBalanced(ClauseList(s))
  {
    HeadBalanced(s);
    SetClauseBalanced(s);
    InsertClauseBalanced(s);
    JoinLinesBalanced(s.table, s.joins);
    WhereClauseBalanced(s);
    GroupByClauseBalanced(s);
    HavingClauseBalanced(s);
    OrderByClauseBalanced(s);
    LimitLineBalanced(s.limit, s.offset);
    OffsetLineBalanced(s.offset);
    ChainBalanced(s);
  }

  /** Clauses that each carry as many placeholders as arguments join into a statement that does too. */
  lemma BalancedStatement(cs: seq<Rendered>)
    requires AllBalanced(cs)
    ensures Pct(Join(" \n", Texts(cs))) == |AllArgs(cs)|
  {
    PctJoin(" \n", Texts(cs));
    SumPctTexts(cs);
  }

  /**
   * Every `%` placeholder of the prepared statement has exactly one argument, provided the
   * raw fragments the caller wrote carry one placeholder per argument they supply and the
   * names carry none.
   */
  lemma PlaceholdersMatchArguments(s: QueryState)
    requires WellFormed(s)
    ensures Pct(Compile(s).sql) == |Compile(s).vars|
  {
    ClausesBalanced(s);
    BalancedStatement(ClauseList(s));
  }
}
