/**
 * The `prepare_*` helpers of the query builder as loops: each appends its clause to the
 * clause list `sql` and its values to the argument list `args`, as the PHP helpers do with
 * their by-reference arrays, and each is proved to append exactly what the assembler
 * specifies.
 */
module Prepare {
  import opened Php
  import opened Results
  import opened Seqs
  import opened Clauses
  import opened Assembler

  /** The head clause(s): DELETE / UPDATE / INSERT on the table, or SELECT and an optional FROM. */
  method PrepareHead(s: QueryState) returns (sql: seq<string>, args: seq<Scalar>)
    ensures sql == Texts(Head(s)) && args == AllArgs(Head(s))
  {
    args := [];
    if s.kind == Some(Delete) {
      var line := Rendered("DELETE FROM `" + s.table + "`", []);
      sql := [line.text];
      RenderedSingle(line);
    } else if s.kind == Some(Update) {
      var line := Rendered("UPDATE `" + s.table + "`", []);
      sql := [line.text];
      RenderedSingle(line);
    } else if s.kind == Some(Insert) {
      var line := Rendered("INSERT INTO `" + s.table + "`", []);
      sql := [line.text];
      RenderedSingle(line);
    } else {
      var line := Rendered("SELECT " + (if s.select != [] then Join(", ", s.select) else "*"), []);
      sql := [line.text];
      RenderedSingle(line);
      if Truthy(Str(s.table)) {
        var from := Rendered("FROM `" + s.table + "`", []);
        RenderedSnoc([line], from);
        sql := sql + [from.text];
        assert Head(s) == [line] + [from];
      } else {
        assert Head(s) == [line];
      }
    }
  }

  /** A SET / INSERT cell: a raw value is inlined, any other value binds one `%s`. */
  method PrepareCell(args: seq<Scalar>, v: Value) returns (text: string, args': seq<Scalar>)
    ensures text == CellSql(v).text && args' == args + CellSql(v).args
  {
    if v.Raw? {
      text, args' := v.fragment, args;
    } else if v.InList? {
      // an array written into the template: PHP's string form of an array
      text, args' := "Array", args;
    } else {
      text, args' := "%s", args + [v.v];
    }
  }

  /** `prepare_set_condition`: one `` `k` = v `` item per SET entry, in map order. */
  method PrepareSetCondition(sql: seq<string>, args: seq<Scalar>, m: Entries<Value>)
    returns (sql': seq<string>, args': seq<Scalar>)
    ensures sql' == sql + [SetSection(m).text]
    ensures args' == args + SetSection(m).args
  {
    var items: seq<string> := [];
    ghost var done: seq<Rendered> := [];
    args' := args;
    var i := 0;
    while i < |m|
      invariant 0 <= i <= |m|
      invariant done == Map(SetItem, m[..i])
      invariant items == Texts(done) && args' == args + AllArgs(done)
    {
      var cell, a := PrepareCell(args', m[i].1);
      var item := "`" + m[i].0 + "` = " + cell;
      Extend(done, SetItem(m[i]), args, items, args', item, a);
      MapPrefix(SetItem, m, i);
      items, args', done := items + [item], a, done + [SetItem(m[i])];
      i := i + 1;
    }
    assert m[..|m|] == m;
    sql' := sql + [Wrap("SET ", ", ", "", items)];
  }

  /** One more cell rendered keeps the collected texts and arguments those of the columns so far. */
  lemma CellsStep(row: Row, columns: seq<string>, j: nat, base: seq<Scalar>,
                  cells: seq<string>, args: seq<Scalar>, cell: string, args': seq<Scalar>)
    requires j < |columns|
    requires cells == Texts(RowCells(row, columns[..j])) && args == base + AllArgs(RowCells(row, columns[..j]))
    requires cell == CellSql(Cell(row, columns[j])).text && args' == args + CellSql(Cell(row, columns[j])).args
    ensures cells + [cell] == Texts(RowCells(row, columns[..j + 1]))
    ensures args' == base + AllArgs(RowCells(row, columns[..j + 1]))
  {
    Extend(RowCells(row, columns[..j]), CellSql(Cell(row, columns[j])), base, cells, args, cell, args');
    assert columns[..j + 1][..j] == columns[..j];
  }

  /** One more row rendered keeps the collected texts and arguments those of the rows so far. */
  lemma RowsStep(columns: seq<string>, rows: seq<Row>, r: nat, base: seq<Scalar>,
                 values: seq<string>, args: seq<Scalar>, text: string, args': seq<Scalar>)
    requires r < |rows|
    requires values == Texts(RowsSql(columns, rows[..r])) && args == base + AllArgs(RowsSql(columns, rows[..r]))
    requires text == RowSql(columns, rows[r]).text && args' == args + RowSql(columns, rows[r]).args
    ensures values + [text] == Texts(RowsSql(columns, rows[..r + 1]))
    ensures args' == base + AllArgs(RowsSql(columns, rows[..r + 1]))
  {
    Extend(RowsSql(columns, rows[..r]), RowSql(columns, rows[r]), base, values, args, text, args');
    assert rows[..r + 1][..r] == rows[..r];
  }

  /** The cells of one INSERT row in column order; a missing column reads as null. */
  method PrepareRow(args: seq<Scalar>, row: Row, columns: seq<string>)
    returns (text: string, args': seq<Scalar>)
    ensures text == RowSql(columns, row).text
    ensures args' == args + RowSql(columns, row).args
  {
    var cells: seq<string> := [];
    args' := args;
    var j := 0;
    while j < |columns|
      invariant 0 <= j <= |columns|
      invariant cells == Texts(RowCells(row, columns[..j]))
      invariant args' == args + AllArgs(RowCells(row, columns[..j]))
    {
      var cell, a := PrepareCell(args', Cell(row, columns[j]));
      CellsStep(row, columns, j, args, cells, args', cell, a);
      cells, args' := cells + [cell], a;
      j := j + 1;
    }
    assert columns[..|columns|] == columns;
    text := Wrap("(", ", ", ")", cells);
  }

  /** The column names between backticks, in order. */
  method EscapeColumns(columns: seq<string>) returns (escaped: seq<string>)
    ensures escaped == Map(Backticked, columns)
  {
    escaped := [];
    var c := 0;
    while c < |columns|
      invariant 0 <= c <= |columns|
      invariant escaped == Map(Backticked, columns[..c])
    {
      MapPrefix(Backticked, columns, c);
      escaped := escaped + ["`" + columns[c] + "`"];
      c := c + 1;
    }
    assert columns[..|columns|] == columns;
  }

  /** Every row rendered in the given column order, its values collected in row order. */
  method PrepareRows(args: seq<Scalar>, columns: seq<string>, rows: seq<Row>)
    returns (values: seq<string>, args': seq<Scalar>)
    ensures values == Texts(RowsSql(columns, rows))
    ensures args' == args + AllArgs(RowsSql(columns, rows))
  {
    values := [];
    args' := args;
    var r := 0;
    while r < |rows|
      invariant 0 <= r <= |rows|
      invariant values == Texts(RowsSql(columns, rows[..r]))
      invariant args' == args + AllArgs(RowsSql(columns, rows[..r]))
    {
      var text, a := PrepareRow(args', rows[r], columns);
      RowsStep(columns, rows, r, args, values, args', text, a);
      values, args' := values + [text], a;
      r := r + 1;
    }
    assert rows[..|rows|] == rows;
  }

  /** `prepare_insert_condition`: the first row's keys as column list, then every row in that order. */
  method PrepareInsertCondition(sql: seq<string>, args: seq<Scalar>, rows: seq<Row>)
    returns (sql': seq<string>, args': seq<Scalar>)
    requires rows != []
    ensures sql' == sql + [InsertSection(rows).text]
    ensures args' == args + InsertSection(rows).args
  {
    var columns := Keys(rows[0]);
    var escaped := EscapeColumns(columns);
    var values;
    values, args' := PrepareRows(args, columns, rows);
    sql' := sql + [Wrap(Wrap("(", ", ", ") VALUES ", escaped), ", ", "", values)];
  }

  /** `prepare_join_condition`: one line per join, in the order they were added; no arguments. */
  method PrepareJoinCondition(sql: seq<string>, args: seq<Scalar>, table: string, joins: seq<JoinSpec>)
    returns (sql': seq<string>, args': seq<Scalar>)
    ensures sql' == sql + Texts(JoinLines(table, joins))
    ensures args' == args + AllArgs(JoinLines(table, joins))
  {
    var lines: seq<string> := [];
    ghost var done: seq<Rendered> := [];
    args' := args;
    var i := 0;
    while i < |joins|
      invariant 0 <= i <= |joins|
      invariant done == JoinLines(table, joins[..i])
      invariant lines == Texts(done) && args' == args + AllArgs(done)
    {
      var j := joins[i];
      var line := Upper(j.kind) + " JOIN `" + j.table + "` ON `" + table + "`.`" + j.attribute
                  + "` = `" + j.table + "`.`" + j.joinAttribute + "`";
      Extend(done, JoinLine(table, j), args, lines, args', line, args');
      assert joins[..i + 1][..i] == joins[..i];
      lines, done := lines + [line], done + [JoinLine(table, j)];
      i := i + 1;
    }
    assert joins[..|joins|] == joins;
    sql' := sql + lines;
  }

  /** A condition value: `%s` with the value, the raw fragment, or `(%s, ..., %s)` with every list element. */
  method PrepareConditionValue(args: seq<Scalar>, v: Value) returns (text: string, args': seq<Scalar>)
    ensures text == ConditionValue(v).text && args' == args + ConditionValue(v).args
  {
    match v {
      case Plain(x) =>
        text, args' := "%s", args + [x];
      case Raw(f) =>
        text, args' := f, args;
      case InList(vs) =>
        var marks: seq<string> := [];
        args' := args;
        var k := 0;
        while k < |vs|
          invariant 0 <= k <= |vs|
          invariant marks == Repeat("%s", k)
          invariant args' == args + vs[..k]
        {
          marks := marks + ["%s"];
          args' := args' + [vs[k]];
          assert vs[..k + 1] == vs[..k] + [vs[k]];
          k := k + 1;
        }
        assert vs[..|vs|] == vs;
        text := Wrap("(", ", ", ")", marks);
    }
  }

  /** One WHERE / HAVING item: a raw fragment with its extra arguments, or `column OP value`. */
  method PrepareItem(args: seq<Scalar>, item: Item) returns (text: string, args': seq<Scalar>)
    ensures text == ItemSql(item).text && args' == args + ItemSql(item).args
  {
    match item {
      case RawItem(f, extra) =>
        text, args' := f, args + extra;
      case Cond(c, op, v) =>
        var column := if c.RawColumn? then c.fragment else "`" + c.name + "`";
        var value;
        value, args' := PrepareConditionValue(args, v);
        text := column + " " + op + " " + value;
    }
  }

  /** One group: its items joined by AND between parentheses. */
  method PrepareGroup(args: seq<Scalar>, g: Group) returns (text: string, args': seq<Scalar>)
    ensures text == GroupSql(g).text && args' == args + GroupSql(g).args
  {
    var items: seq<string> := [];
    ghost var done: seq<Rendered> := [];
    args' := args;
    var i := 0;
    while i < |g|
      invariant 0 <= i <= |g|
      invariant done == Map(ItemSql, g[..i])
      invariant items == Texts(done) && args' == args + AllArgs(done)
    {
      var t, a := PrepareItem(args', g[i]);
      Extend(done, ItemSql(g[i]), args, items, args', t, a);
      MapPrefix(ItemSql, g, i);
      items, args', done := items + [t], a, done + [ItemSql(g[i])];
      i := i + 1;
    }
    assert g[..|g|] == g;
    text := Wrap("( ", " AND ", " )", items);
  }

  /** `prepare_where_conditions`: the groups joined by OR after the keyword. */
  method PrepareWhereConditions(sql: seq<string>, args: seq<Scalar>, keyword: string, t: Tree)
    returns (sql': seq<string>, args': seq<Scalar>)
    ensures sql' == sql + [TreeSql(keyword, t).text]
    ensures args' == args + TreeSql(keyword, t).args
  {
    var groups: seq<string> := [];
    ghost var done: seq<Rendered> := [];
    args' := args;
    var i := 0;
    while i < |t|
      invariant 0 <= i <= |t|
      invariant done == Map(GroupSql, t[..i])
      invariant groups == Texts(done) && args' == args + AllArgs(done)
    {
      var text, a := PrepareGroup(args', t[i]);
      Extend(done, GroupSql(t[i]), args, groups, args', text, a);
      MapPrefix(GroupSql, t, i);
      groups, args', done := groups + [text], a, done + [GroupSql(t[i])];
      i := i + 1;
    }
    assert t[..|t|] == t;
    sql' := sql + [Wrap(keyword + " ", " OR ", "", groups)];
  }

  /** `prepare_order_conditions`: raw items with their arguments, or `` `c` direction ``, joined by commas. */
  method PrepareOrderConditions(sql: seq<string>, args: seq<Scalar>, keyword: string, items: seq<OrderItem>)
    returns (sql': seq<string>, args': seq<Scalar>)
    ensures sql' == sql + [OrderSection(keyword, items).text]
    ensures args' == args + OrderSection(keyword, items).args
  {
    var parts: seq<string> := [];
    ghost var done: seq<Rendered> := [];
    args' := args;
    var i := 0;
    while i < |items|
      invariant 0 <= i <= |items|
      invariant done == Map(OrderItemSql, items[..i])
      invariant parts == Texts(done) && args' == args + AllArgs(done)
    {
      var part, a;
      match items[i] {
        case RawOrder(f, extra) =>
          part, a := f, args' + extra;
        case ColumnOrder(c, o) =>
          part, a := Backticked(c) + " " + ToStr(o), args';
      }
      Extend(done, OrderItemSql(items[i]), args, parts, args', part, a);
      MapPrefix(OrderItemSql, items, i);
      parts, args', done := parts + [part], a, done + [OrderItemSql(items[i])];
      i := i + 1;
    }
    assert items[..|items|] == items;
    sql' := sql + [Wrap(keyword + " ", ", ", "", parts)];
  }

  /** `prepare_limit_condition`: a raw bound inlined with its arguments, or `%d` with the `(int)` value. */
  method PrepareLimitCondition(sql: seq<string>, args: seq<Scalar>, keyword: string, b: Bound)
    returns (sql': seq<string>, args': seq<Scalar>)
    ensures sql' == sql + [BoundSql(keyword, b).text]
    ensures args' == args + BoundSql(keyword, b).args
  {
    match b {
      case RawBound(f, extra) =>
        sql', args' := sql + [keyword + " " + f], args + extra;
      case Number(v) =>
        args' := args + [Int(ToInt(v))];
        sql' := sql + [keyword + " %d"];
    }
  }

  // ---------------------------------------------------------------------------
  // The guards of `prepare()`: each clause only when its state is non-empty (or set)

  /** `if($this->set)`. */
  method AddSetClause(s: QueryState, sql: seq<string>, args: seq<Scalar>, ghost cs: seq<Rendered>)
    returns (sql': seq<string>, args': seq<Scalar>)
    requires Collected(sql, args, cs)
    ensures Collected(sql', args', cs + SetClause(s))
  {
    sql', args' := sql, args;
    if s.assignments != [] {
      sql', args' := PrepareSetCondition(sql, args, s.assignments);
      RenderedSingle(SetSection(s.assignments));
    }
    Chain(cs, SetClause(s), sql, args, sql', args');
  }

  /** `if($this->insert)`. */
  method AddInsertClause(s: QueryState, sql: seq<string>, args: seq<Scalar>, ghost cs: seq<Rendered>)
    returns (sql': seq<string>, args': seq<Scalar>)
    requires Collected(sql, args, cs)
    ensures Collected(sql', args', cs + InsertClause(s))
  {
    sql', args' := sql, args;
    if s.insert != [] {
      sql', args' := PrepareInsertCondition(sql, args, s.insert);
      RenderedSingle(InsertSection(s.insert));
    }
    Chain(cs, InsertClause(s), sql, args, sql', args');
  }

  /** `if($this->join)`. */
  method AddJoinClauses(s: QueryState, sql: seq<string>, args: seq<Scalar>, ghost cs: seq<Rendered>)
    returns (sql': seq<string>, args': seq<Scalar>)
    requires Collected(sql, args, cs)
    ensures Collected(sql', args', cs + JoinLines(s.table, s.joins))
  {
    sql', args' := sql, args;
    if s.joins != [] {
      sql', args' := PrepareJoinCondition(sql, args, s.table, s.joins);
    }
    Chain(cs, JoinLines(s.table, s.joins), sql, args, sql', args');
  }

  /** `if($this->where)`. */
  method AddWhereClause(s: QueryState, sql: seq<string>, args: seq<Scalar>, ghost cs: seq<Rendered>)
    returns (sql': seq<string>, args': seq<Scalar>)
    requires Collected(sql, args, cs)
    ensures Collected(sql', args', cs + WhereClause(s))
  {
    sql', args' := sql, args;
    if s.where != [] {
      sql', args' := PrepareWhereConditions(sql, args, "WHERE", s.where);
      RenderedSingle(TreeSql("WHERE", s.where));
    }
    Chain(cs, WhereClause(s), sql, args, sql', args');
  }

  /** `if($this->group_by)`. */
  method AddGroupByClause(s: QueryState, sql: seq<string>, args: seq<Scalar>, ghost cs: seq<Rendered>)
    returns (sql': seq<string>, args': seq<Scalar>)
    requires Collected(sql, args, cs)
    ensures Collected(sql', args', cs + GroupByClause(s))
  {
    sql', args' := sql, args;
    if s.groupBy != [] {
      sql', args' := PrepareOrderConditions(sql, args, "GROUP BY", s.groupBy);
      RenderedSingle(OrderSection("GROUP BY", s.groupBy));
    }
    Chain(cs, GroupByClause(s), sql, args, sql', args');
  }

  /** `if($this->having)`. */
  method AddHavingClause(s: QueryState, sql: seq<string>, args: seq<Scalar>, ghost cs: seq<Rendered>)
    returns (sql': seq<string>, args': seq<Scalar>)
    requires Collected(sql, args, cs)
    ensures Collected(sql', args', cs + HavingClause(s))
  {
    sql', args' := sql, args;
    if s.having != [] {
      sql', args' := PrepareWhereConditions(sql, args, "HAVING", s.having);
      RenderedSingle(TreeSql("HAVING", s.having));
    }
    Chain(cs, HavingClause(s), sql, args, sql', args');
  }

  /** `if($this->order_by)`. */
  method AddOrderByClause(s: QueryState, sql: seq<string>, args: seq<Scalar>, ghost cs: seq<Rendered>)
    returns (sql': seq<string>, args': seq<Scalar>)
    requires Collected(sql, args, cs)
    ensures Collected(sql', args', cs + OrderByClause(s))
  {
    sql', args' := sql, args;
    if s.orderBy != [] {
      sql', args' := PrepareOrderConditions(sql, args, "ORDER BY", s.orderBy);
      RenderedSingle(OrderSection("ORDER BY", s.orderBy));
    }
    Chain(cs, OrderByClause(s), sql, args, sql', args');
  }

  /** `if($this->limit) ... elseif($this->offset)`: the limit, or the "no limit" line an offset needs. */
  method AddLimitClause(s: QueryState, sql: seq<string>, args: seq<Scalar>, ghost cs: seq<Rendered>)
    returns (sql': seq<string>, args': seq<Scalar>)
    requires Collected(sql, args, cs)
    ensures Collected(sql', args', cs + LimitLine(s.limit, s.offset))
  {
    sql', args' := sql, args;
    if BoundSet(s.limit) {
      sql', args' := PrepareLimitCondition(sql, args, "LIMIT", s.limit);
      RenderedSingle(BoundSql("LIMIT", s.limit));
    } else if BoundSet(s.offset) {
      sql' := sql + ["LIMIT 18446744073709551615"];
      RenderedSingle(Rendered(NoLimit, []));
    }
    Chain(cs, LimitLine(s.limit, s.offset), sql, args, sql', args');
  }

  /** `if($this->offset)`. */
  method AddOffsetClause(s: QueryState, sql: seq<string>, args: seq<Scalar>, ghost cs: seq<Rendered>)
    returns (sql': seq<string>, args': seq<Scalar>)
    requires Collected(sql, args, cs)
    ensures Collected(sql', args', cs + OffsetLine(s.offset))
  {
    sql', args' := sql, args;
    if BoundSet(s.offset) {
      sql', args' := PrepareLimitCondition(sql, args, "OFFSET", s.offset);
      RenderedSingle(BoundSql("OFFSET", s.offset));
    }
    Chain(cs, OffsetLine(s.offset), sql, args, sql', args');
  }

  /** The whole clause list, in the order of `prepare()`. */
  method PrepareClauses(s: QueryState) returns (sql: seq<string>, args: seq<Scalar>)
    ensures Collected(sql, args, ClauseList(s))
  {
    sql, args := PrepareHead(s);
    ghost var cs := Head(s);
    sql, args := AddSetClause(s, sql, args, cs);
    cs := cs + SetClause(s);
    sql, args := AddInsertClause(s, sql, args, cs);
    cs := cs + InsertClause(s);
    sql, args := AddJoinClauses(s, sql, args, cs);
    cs := cs + JoinLines(s.table, s.joins);
    sql, args := AddWhereClause(s, sql, args, cs);
    cs := cs + WhereClause(s);
    sql, args := AddGroupByClause(s, sql, args, cs);
    cs := cs + GroupByClause(s);
    sql, args := AddHavingClause(s, sql, args, cs);
    cs := cs + HavingClause(s);
    sql, args := AddOrderByClause(s, sql, args, cs);
    cs := cs + OrderByClause(s);
    sql, args := AddLimitClause(s, sql, args, cs);
    cs := cs + LimitLine(s.limit, s.offset);
    sql, args := AddOffsetClause(s, sql, args, cs);
  }
}
