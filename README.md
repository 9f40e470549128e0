# wp-activerecord in Dafny

A model of the core of wp-activerecord. wp-activerecord is a small ActiveRecord layer for WordPress, written in PHP. The model covers four pieces of the library:

- **The query builder `wp_activerecord\Query`.** Its fluent methods (`select`, `delete`, `update`, `set`, `insert`, `where` / `and_where` / `or_where`, `having` / `and_having` / `or_having`, `group_by`, `order_by`, `limit`, `offset`, `join`) accumulate state. `prepare()` turns that state into an SQL template with `%s` / `%d` placeholders and an argument list. `sql()`, `get_col()` and `get_var()` hand that result to a `$wpdb` adapter.
- **The casting helpers of `wp_activerecord\utils\Casting`.**
- **The record base class `wp_activerecord\ActiveRecord`:**
  - its per-column casting dispatch;
  - the cast cache behind `__get` / `__set`;
  - the dynamic finders of `__callStatic` (`get_by_...`, `get_one_by_...`, `get_row_by_...`, `get_results_by_...`, `get_var_..._by_...`, `get_col_..._by_...`).
- **The older `ActiveRecord` class at the repository root.** It stores attributes verbatim and has a finder without `get_col_` and without the `empty()` guard.

## Files

- **Layout.** Each module sits in its own file, and the modules follow the structure of the program.
- **`php.dfy` (`Php`).** PHP values (null, booleans, integers, strings) and the parts of PHP the library leans on:
  - truthiness, `(int)` and string conversion;
  - ASCII `strtoupper` / `strtolower`;
  - `join` / `explode`;
  - counting `%` placeholders.
- **`results.dfy`** holds `Option`, `Result` and `Outcome`. **`seqs.dfy`** holds `Map` / `Flatten` / `Repeat` on sequences.
- **`casting.dfy` (`Casting`)** holds `src/utils/Casting.php`.
- **`record_casting.dfy` (`RecordCasting`)** holds the rule lookup of `_get_casting_value`: a cast table entry is a kind name, resolved through the alias table and lower-cased, or a pair of callables.
- **`clauses.dfy` (`Clauses`).** The state a query accumulates, and what each fluent method does to it, as pure functions:
  - the statement kind;
  - the SET map;
  - the INSERT rows;
  - the condition trees (groups joined by OR, items joined by AND);
  - the ordering items;
  - limit and offset;
  - joins.
- **`assembler.dfy` (`Assembler`).** The specification of `prepare()` as a function `Compile` over that state. It includes the theorem that a well-formed query's template has exactly as many placeholders as arguments.
- **`prepare.dfy` (`Prepare`).** The `prepare_*` helpers as loop methods, each proved equal to its part of `Compile`.
- **`query.dfy` (`QueryBuilder`).**
  - `class Query` has the PHP object's fields. Its fluent methods update them in place, and each states the whole new state.
  - `class Wpdb` is the database adapter. It records the `prepare` / `get_col` / `get_var` calls it receives and answers them through functions given to it.
- **`finder.dfy` (`Finders`).** What both `__callStatic` variants share: the loop that turns the `_and_` / `_or_` pieces of a finder name into `where` / `or_where` calls.
- **`active_record.dfy` (`ActiveRecord`).** The finder parser, `CallStatic`, and the `Record` class with its cast cache.
- **`legacy_record.dfy` (`LegacyRecord`).** The root `ActiveRecord.php`: its finder parser, `LegacyCallStatic`, and the `PlainRecord` class.

## How the model is specified

- **Each imperative operation is a method.** It is proved against a specification function of the state.
  - A fluent method states the new `State()` in terms of the old one. When the source rejects the call, it states the error and the unchanged state.
  - `Query.Prepare` returns exactly `Compile(State())`.
  - `IssueConditions` leaves the WHERE tree equal to `ApplyTargets` of the columns a finder name lists.
- **The specification functions carry the promises, as lemmas.** For example:
  - the kind of a query is fixed once;
  - the last value given for a SET column wins, and the columns keep their order;
  - no stored SET / INSERT value is a bare null;
  - an `or_where` opens its own group;
  - conditions and their arguments come out in the order they were added;
  - a query with no kind compiles as a SELECT;
  - a well-formed `prepare()` result has one argument per placeholder;
  - booleans survive a decast and a cast;
  - a parsed finder name can be put back together from its parts;
  - the k-th condition of a finder takes the k-th argument.

## Model

| member | source | states |
|---|---|---|
| `Php.Upper` | src/Query.php:620 | `strtoupper`: changes only lower-case ASCII letters, keeps the length |
| `Php.LowerIdempotent` | src/ActiveRecord.php:129 | lower-casing a kind name twice is lower-casing it once |
| `Php.JoinExplode` | src/ActiveRecord.php:293-298 | `implode($sep, explode($sep, $s)) == $s` |
| `Php.ExplodePiecesFree` | src/ActiveRecord.php:293-294 | no piece returned by `explode` contains the separator |
| `Php.ExplodeSingle` | src/ActiveRecord.php:293-297 | `explode` returns one piece exactly when the separator does not occur, and that piece is the whole string |
| `Php.PctCat` | src/Query.php:441 | the placeholder count of a concatenation is the sum of the counts |
| `Casting.AliasTargetsAreCanonical` | src/utils/Casting.php:15-19 | an alias maps to `int`, `float` or `boolean`, and no alias target is itself an alias |
| `Casting.CastInt` | src/utils/Casting.php:21-23 | `(int)`: always an integer; integers unchanged; `true`/`false` become 1/0; null becomes 0 |
| `Casting.CastBoolean` | src/utils/Casting.php:29-31 | `(boolean)`: always a boolean, and true exactly for truthy values |
| `Casting.DecastBoolean` | src/utils/Casting.php:32-34 | stores 1 exactly for truthy values, 0 otherwise |
| `Casting.BooleanRoundTrip` | src/utils/Casting.php:29-34 | a boolean decast and then cast is the same boolean |
| `Casting.DecastCastBoolean` | src/utils/Casting.php:29-34 | decasting a cast of a stored value stores the same value again |
| `Php.LeadingInteger` | src/utils/Casting.php:21-23 | `(int)` of a string that starts with an integer's decimal form, followed by anything but another digit, is that integer |
| `Php.IntStringToInt` | src/utils/Casting.php:21-23 | `(int)` of an integer's string form is the integer |
| `Php.LeadingSpaceToInt` | src/utils/Casting.php:21-23 | leading white space does not change `(int)` of a string |
| `Casting.CastIntOfString` | src/utils/Casting.php:21-23 | `cast_int` turns the string form of an integer, as the database returns it, back into that integer |
| `Casting.CastIntIdempotent` | src/utils/Casting.php:21-23 | `cast_int` applied twice is applied once |
| `RecordCasting.CanonicalKind` | src/ActiveRecord.php:129-133 | lower-casing and resolving through the alias table never ends on an alias |
| `RecordCasting.CanonicalKindIdempotent` | src/ActiveRecord.php:129-133 | resolving a resolved kind changes nothing |
| `RecordCasting.CanonicalKindIgnoresCase` | src/ActiveRecord.php:129 | kind names that differ in case resolve alike |
| `RecordCasting.CastingValue` | src/ActiveRecord.php:121-123 | a column without an entry in the cast table keeps its value, in either direction |
| `RecordCasting.CallableRule` | src/ActiveRecord.php:124-127 | a callable rule reads through its `cast` callable and stores through its `decast` callable, each direction keeping the value when its callable is missing |
| `RecordCasting.CastOnlyRule` | src/ActiveRecord.php:124-127 | a rule with only a `cast` callable reads through it and stores values unchanged |
| `RecordCasting.EmptyCallablesIsIdentity` | src/ActiveRecord.php:124-127 | a rule array with no callable converts nothing, either way |
| `RecordCasting.IntRule` | src/ActiveRecord.php:108-141 | an `int` rule (any alias or case) casts with `cast_int` and stores the value unchanged, since there is no `decast_int` |
| `RecordCasting.BooleanRuleRoundTrip` | src/ActiveRecord.php:108-141 | a `boolean` rule stores a boolean as 1/0 and reads the same boolean back |
| `RecordCasting.UnknownKindIsIdentity` | src/ActiveRecord.php:134-137 | a kind the casting table has no method for converts nothing, either way |
| `RecordCasting.KindRuleIgnoresCase` | src/ActiveRecord.php:129 | rules whose kind names differ only in case convert alike |
| `Clauses.SetKind` | src/Query.php:580-586 | the first kind sticks; asking for the same kind again passes; asking for another one fails with a conflict error |
| `Clauses.KindIsFixedOnce` | src/Query.php:580-586 | once a kind is set, the same kind is accepted and any other kind is refused |
| `Clauses.EncodeNull` | src/Query.php:175-178 | a null becomes the raw fragment `NULL`; every other value is unchanged |
| `Clauses.EncodeNullIdempotent` | src/Query.php:175-178 | encoding twice is encoding once |
| `Clauses.Lookup` | src/Query.php:740 | a key is found exactly when it is among the keys |
| `Clauses.AssignKeys` | src/Query.php:179 | assigning an existing key keeps the key order; a new key goes last |
| `Clauses.AssignLookup` | src/Query.php:179 | after `$m[$k] = $v`, `$m[$k]` is `$v` and every other key reads as before |
| `Clauses.AssignUnique` | src/Query.php:179 | assigning keeps the keys unique |
| `Clauses.SetEntriesLookup` | src/Query.php:167-181 | setting a data array: the last value given for a column wins, encoded, and other columns keep theirs |
| `Clauses.SetEntriesKeepsOrder` | src/Query.php:167-181 | setting a data array keeps existing columns in place, appends only new ones, and keeps keys unique |
| `Clauses.SetEntriesNoNulls` | src/Query.php:175-179 | the SET map never holds a bare null, whatever is set |
| `Clauses.InsertRows` | src/Query.php:192-194 | a single row is wrapped into a list; a list of rows is kept; there is always at least one row |
| `Clauses.EncodeRow` | src/Query.php:195-202 | a row keeps its columns in order, and each value gets its null encoded |
| `Clauses.AppendAllShape` | src/Query.php:623-626 | every item a call adds lands in the last group, or in a new first group if there is none |
| `Clauses.AppendAllFlatten` | src/Query.php:623-626 | read in order, the conditions are the old ones followed by the new ones |
| `Clauses.ConditionAppendsInOrder` | src/Query.php:588-628 | a `where` / `having` call adds its items after all earlier ones, in order |
| `Clauses.OrOpensOwnGroup` | src/Query.php:248-253 | `or_where` / `or_having` opens a new group, and everything the call adds lands there |
| `Clauses.DefaultOrderIsAscending` | src/Query.php:323-324 | `order_by($column)` / `group_by($column)` without a direction orders the column `ASC` |
| `Clauses.DirectionValues` | src/Query.php:642-644 | a direction is `DESC` or the given value, a string direction reads as ASC or DESC, and normalising is idempotent |
| `Assembler.JoinStartsWithFirst` | src/Query.php:441 | a joined text starts with its first part |
| `Assembler.CompileStartsWithHead` | src/Query.php:378-390 | the statement starts with its head clause |
| `Assembler.UnsetKindIsSelect` | src/Query.php:385-390 | a query whose kind was never set compiles exactly like a SELECT and starts with `SELECT ` |
| `Assembler.LimitLineCases` | src/Query.php:427-432 | the LIMIT clause is the limit if one is given, otherwise the "no limit" literal exactly when an offset is given, otherwise absent |
| `Assembler.BoundSqlCases` | src/Query.php:703-712 | a numeric bound binds its `(int)` through `%d`; a raw bound inlines its fragment and binds its extra arguments |
| `Assembler.TwoArgConditionSql` | src/Query.php:609-621 | two-argument `where`: `IS NULL` with no argument for null, `= %s` binding the value, or `= <fragment>` for a raw value |
| `Assembler.ThreeArgConditionSql` | src/Query.php:613-621 | three-argument `where`: the operator upper-cased; a null value binds nothing; a list binds its items |
| `Assembler.TreeArgsInItemOrder` | src/Query.php:653-688 | however the conditions are grouped, their arguments come out in the order the conditions were added |
| `Assembler.SetArgsAreBoundValues` | src/Query.php:714-726 | SET binds exactly the plain values, in column order; raw values bind nothing |
| `Assembler.InsertArgsRowMajor` | src/Query.php:728-751 | INSERT binds the plain cells row after row, each row in the first row's column order; a column missing from a later row binds null, raw cells bind nothing |
| `Assembler.InsertMultipleExample` | test/QueryTest.php:212-230 | two rows with their columns in different orders compile to `` (`name`, `age`) VALUES (%s, %s), (%s, %s) `` binding `john, 37, jim, 22` |
| `Assembler.DefaultJoinIsInner` | src/Query.php:361-364 | `join` without a type gives an `INNER JOIN` line that binds nothing |
| `Assembler.PlaceholdersMatchArguments` | src/Query.php:371-445 | in a well-formed query, the template has exactly one `%` placeholder per argument |
| `Prepare.PrepareHead` | src/Query.php:378-390 | the head lines are those of `Head` |
| `Prepare.PrepareCell` | src/Query.php:717-723 | a SET / INSERT cell: a placeholder plus its value, or a raw fragment inlined |
| `Prepare.PrepareSetCondition` | src/Query.php:714-726 | appends the SET line of `SetSection`, and its arguments after the earlier ones |
| `Prepare.PrepareRow` | src/Query.php:738-748 | one row's `(…)` in the column order of the first row, with its arguments |
| `Prepare.EscapeColumns` | src/Query.php:731-734 | the column names, backticked, in order |
| `Prepare.PrepareRows` | src/Query.php:736-749 | the rows' value lists and arguments, row after row |
| `Prepare.PrepareInsertCondition` | src/Query.php:728-751 | appends the `(cols) VALUES …` line of `InsertSection`, with its arguments |
| `Prepare.PrepareJoinCondition` | src/Query.php:753-761 | appends one `TYPE JOIN` line per join, in order |
| `Prepare.PrepareConditionValue` | src/Query.php:668-681 | a condition value: a placeholder binding it, a raw fragment, or a parenthesised list of placeholders binding the items |
| `Prepare.PrepareItem` | src/Query.php:658-683 | one condition item, with its arguments |
| `Prepare.PrepareGroup` | src/Query.php:655-686 | one group `( a AND b )`, with its arguments in item order |
| `Prepare.PrepareWhereConditions` | src/Query.php:653-688 | appends `WHERE` / `HAVING` and the groups joined by `OR`, with their arguments |
| `Prepare.PrepareOrderConditions` | src/Query.php:690-701 | appends `GROUP BY` / `ORDER BY` and the items, with raw items' arguments |
| `Prepare.PrepareLimitCondition` | src/Query.php:703-712 | appends `LIMIT` / `OFFSET` with `%d` and the `(int)` value, or the raw fragment and its arguments |
| `Prepare.AddLimitClause` | src/Query.php:427-432 | adds the LIMIT line when a limit is set, or the "no limit" literal when only an offset is set |
| `Prepare.PrepareClauses` | src/Query.php:378-437 | the lines and arguments collected are those of `ClauseList`, in order |
| `QueryBuilder.KindOutcome` | src/Query.php:580-586 | the kind check passes exactly when no kind is set or the same kind is set; otherwise it fails with a conflict error |
| `QueryBuilder.CastWith` | src/Query.php:779-785 | with no model the value is kept; with a model it is the model's casted value, which keeps a column without a rule unchanged |
| `QueryBuilder.CastAll` | src/Query.php:499-503 | every value is cast for the selected column, in order |
| `QueryBuilder.EncodedRowsEncoded` | src/Query.php:195-203 | appending encoded rows keeps every stored INSERT row free of bare nulls |
| `QueryBuilder.Wpdb.Prepare` | src/Query.php:455-458 | formats the template with the arguments, and logs the call |
| `QueryBuilder.Query.constructor` | src/Query.php:114-117 | a fresh query on a table: no kind, nothing accumulated |
| `QueryBuilder.Query.FixKind` | src/Query.php:580-586 | sets the kind, or fails and leaves the query unchanged |
| `QueryBuilder.Query.Select` | src/Query.php:126-130 | fixes the kind SELECT and appends the columns |
| `QueryBuilder.Query.Delete` | src/Query.php:137-139 | fixes the kind DELETE |
| `QueryBuilder.Query.Set` | src/Query.php:167-181 | fixes the kind UPDATE and sets each column (last value wins, null encoded), keeping SET keys unique and free of bare nulls |
| `QueryBuilder.Query.Update` | src/Query.php:151-157 | with no arguments only fixes the kind UPDATE; otherwise behaves as `set` |
| `QueryBuilder.Query.EncodeRowValues` | src/Query.php:196-201 | a row with its nulls encoded |
| `QueryBuilder.Query.Insert` | src/Query.php:190-205 | fixes the kind INSERT and appends the rows with nulls encoded |
| `QueryBuilder.Query.AppendEntries` | src/Query.php:599-606 | a mapping argument appends one two- or three-argument item per entry, in order |
| `QueryBuilder.Query.WhereCondition` | src/Query.php:588-628 | `where` / `and_where` / `having` / `and_having`: refuses a malformed single argument and leaves the query unchanged; otherwise appends the call's items to the last group of the tree |
| `QueryBuilder.Query.OrWhereCondition` | src/Query.php:248-253 | `or_where` / `or_having`: the call's items form a new group; on a malformed argument, the new empty group stays |
| `QueryBuilder.Query.OrderCondition` | src/Query.php:630-651 | `group_by` / `order_by`: appends the call's items, with their directions normalised |
| `QueryBuilder.Query.Limit` | src/Query.php:334-337 | stores the limit |
| `QueryBuilder.Query.Offset` | src/Query.php:346-349 | stores the offset |
| `QueryBuilder.Query.Join` | src/Query.php:361-364 | appends the join |
| `QueryBuilder.Query.Prepare` | src/Query.php:371-445 | returns exactly `Compile` of the query's state |
| `QueryBuilder.Query.Sql` | src/Query.php:452-464 | the compiled template, formatted by the adapter exactly when there are arguments |
| `QueryBuilder.Query.GetCol` | src/Query.php:492-504 | fails unless exactly one column is selected; otherwise runs the SQL and casts every value for that column |
| `QueryBuilder.Query.GetVar` | src/Query.php:512-520 | fails unless exactly one column is selected; otherwise runs the SQL and casts the value for that column |
| `Finders.Arg` | src/ActiveRecord.php:314-316 | `$arguments[$k]`: the k-th argument, or null once the arguments run out |
| `Finders.OrTargets` | src/ActiveRecord.php:313-317 | the first column of a piece is a `where`, every later one an `or_where` |
| `Finders.ConditionsInOrder` | src/ActiveRecord.php:309-318 | each call adds exactly one condition, after the earlier ones, on its column and with its own argument |
| `Finders.GroupCount` | src/ActiveRecord.php:313-317 | starting from no conditions, there is one group for the first `where` and one per `or_where` |
| `Finders.IssueConditions` | src/ActiveRecord.php:309-319 | the loop leaves the WHERE tree equal to `ApplyTargets` of the pieces' columns with arguments counted from 0, and changes nothing else |
| `ActiveRecord.PrefixesDisjoint` | src/ActiveRecord.php:279-305 | at most one of the six finder prefixes matches a name |
| `ActiveRecord.UnknownNames` | src/ActiveRecord.php:279-308 | a name is refused as unknown exactly when it has none of the six prefixes |
| `ActiveRecord.ColumnOnlyForVarAndCol` | src/ActiveRecord.php:291-305 | only `get_var_` and `get_col_` select a column of their own |
| `ActiveRecord.VarNeedsWhere` | src/ActiveRecord.php:291-297 | `get_var_` is refused exactly when no `_by_` follows the column |
| `ActiveRecord.SplitColumnJoins` | src/ActiveRecord.php:293-304 | the selected column has no `_by_`; column, `_by_` and condition rebuild the text, or without `_by_` the column is all of it |
| `ActiveRecord.FinderNameRoundTrip` | src/ActiveRecord.php:279-308 | the prefix, the column and the condition of a parsed finder spell out the name it came from |
| `ActiveRecord.AndPieces` | src/ActiveRecord.php:310-311 | no pieces for an empty condition (`""` or `"0"`); otherwise pieces that `_and_` joins back into the condition |
| `ActiveRecord.CallStatic` | src/ActiveRecord.php:275-321 | an unknown name or a `get_var_` without `_by_` fails; otherwise a fresh casting query, fixed to SELECT, selecting the column (if there is one), with one condition per named column, plus the query method to run |
| `ActiveRecord.FinderConditionsInOrder` | src/ActiveRecord.php:309-319 | the finder's conditions, read in order, are on the named columns with the arguments in order (null once they run out) |
| `ActiveRecord.EmptyConditionFiltersNothing` | src/ActiveRecord.php:310 | a condition of `""` or `"0"` adds no condition |
| `ActiveRecord.SingleColumnFinder` | src/ActiveRecord.php:310-319 | a one-column condition becomes one `where` on that column with the first argument |
| `ActiveRecord.GetOneById` | test/ActiveRecordTest.php:242-252 | `get_one_by_id(1)` builds a SELECT with the single condition `` `id` = 1 `` |
| `ActiveRecord.GetVarNameById` | test/ActiveRecordTest.php:272-282 | `get_var_name_by_id(2)` selects `name` with the single condition `` `id` = 2 `` |
| `ActiveRecord.Record.constructor` | src/ActiveRecord.php:41-43 | the attributes as given, nothing cast yet |
| `ActiveRecord.Record.Set` | src/ActiveRecord.php:240-246 | stores the decast value, drops only that column's cached cast, and keeps every cached value the cast of its stored value |
| `ActiveRecord.Record.Get` | src/ActiveRecord.php:255-264 | null for an unknown column with nothing cached; otherwise the cast of the stored value, cached for that column only |
| `LegacyRecord.LegacyParseAgrees` | ActiveRecord.php:214-237 | the older parser agrees with the current one except on `get_col_` names, which it refuses as unknown |
| `LegacyRecord.LegacyAndPieces` | ActiveRecord.php:239 | the condition is always split, and pieces agree with the current ones whenever the condition is not empty |
| `LegacyRecord.LegacyCallStatic` | ActiveRecord.php:210-248 | the finder query built from the older parse and split, without casting |
| `LegacyRecord.LegacyEmptyCondition` | ActiveRecord.php:238-246 | with an empty condition, the older loop still issues `where('', $arguments[0])`, where the current one issues nothing |
| `LegacyRecord.LegacyAgreesOnConditions` | ActiveRecord.php:238-246 | on any other condition both variants build the same query |
| `LegacyRecord.PlainRecord.Set` | ActiveRecord.php:186-188 | stores the value unchanged |
| `LegacyRecord.PlainRecord.Get` | ActiveRecord.php:197-199 | the stored value; an unknown column reads as null |

## Left out

- **Running queries against a database.** `get_results`, `get_row`, `get`, `get_one`, `execute`, `get_casted_rows` / `get_casted_row`, `get_raw_results` / `get_raw_row`, and the global `$wpdb`, are left out because they need a real database. `Wpdb` stands in only for `prepare`, `get_col` and `get_var`. It works through functions passed to its constructor, so no SQL is ever executed. The last step of `__callStatic`, `$query->{$type}()`, is represented by the returned `Terminal`. For `get_var` / `get_col` that step is `Query.GetVar` / `Query.GetCol`.
- **`get_table_name` / `set_table_name`, `wpdb()->prefix` and the `$hasModel` switch of `Query`.** The table name is a parameter of the query. The model's casting is an optional value.
- **`save`, `delete`, `create`, `insert`, `update`, `delete_by_id`, `get($id)` and the `*_pre` / `*_post` hooks of both record classes.** These are lifecycle code over the database.
- **`cast_float`, `cast_datetime` and `decast_datetime`.** These use floating point and `DateTime`. They are a function parameter (`RecordCasting.Foreign`) applied by method name.
- **`mb_strtolower`.** It is modelled as ASCII lower-casing only.
- **`(int)` of non-numeric strings.** It follows PHP's rule for a leading decimal number (optional blanks and sign, then digits), as `Php.LeadingInteger` and `Php.LeadingSpaceToInt` state. Exponents, hexadecimal and overflow to `PHP_INT_MAX` are not modelled.
- **Array values.** Only a raw fragment (`['X']`) and a list of values (`[[a, b]]`) are modelled. Trailing elements of a raw value array, which `prepare_where_conditions` ignores, are not represented. A raw condition or ordering array (`['x = %s', a]`) keeps its extra arguments.
- **A list of values in SET / INSERT cells.** PHP renders it through array-to-string conversion. The model uses the same text, `Array`.
- **Calls that the source does not guard further.** A `where` with one argument that is neither a string nor an array is an error (`Malformed`). The exception's message text is not modelled.
- **The test double `test/wpdbMock.php`.** It is not part of this model. `Wpdb` plays its role.
- **`Query.php` at the repository root.** It is required by the older `ActiveRecord.php`, but it is not part of this model. `LegacyCallStatic` builds its query with this model's `Query`. This assumes that the root builder's `select`, `where` and `or_where` do what the modelled builder's do for the calls a finder makes; the assumption is not checked against that file.
- **`LegacyCallStatic`: the query's casting and its `true` flag.** The older `query()` builds `new Query(get_called_class(), true)` (ActiveRecord.php:117-119). The older class has no `get_casted_value`, so the model gives that query no casting (`casting == None`). What the `true` flag means to the root `Query.php` is not modelled.
- **`Assembler.LimitLineCases`: the 64-bit literal.** The "no limit" literal is stated as the exact text `LIMIT 18446744073709551615`. The model does not prove that it is the decimal form of 2^64 - 1.
- **`LegacyRecord.PlainRecord.Get`: the notice.** PHP emits a notice for an unknown column before reading null. The notice is not modelled.
