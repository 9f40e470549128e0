/**
 * The older record base class at the repository root: attributes stored verbatim, and a
 * `__callStatic` without `get_col_` and without the `empty()` guard on the condition.
 */
module LegacyRecord {
  import opened Php
  import opened Results
  import opened Seqs
  import opened Clauses
  import opened Assembler
  import opened QueryBuilder
  import opened Finders
  import ActiveRecord

  /** The prefix tests of the older `__callStatic`: the same as the current ones, minus `get_col_`. */
  function ParseLegacyFinder(name: string): Result<Finder, FinderError> {
    if StartsWith(name, "get_by_") then Ok(Finder(Get, None, name[7..]))
    else if StartsWith(name, "get_one_by_") then Ok(Finder(GetOne, None, name[11..]))
    else if StartsWith(name, "get_row_by_") then Ok(Finder(GetRow, None, name[11..]))
    else if StartsWith(name, "get_results_by_") then Ok(Finder(GetResults, None, name[15..]))
    else if StartsWith(name, "get_var_") then
      if |Explode("_by_", name[8..])| == 1 then Err(MissingWhere)
      else Ok(Finder(GetVar, Some(ActiveRecord.SplitColumn(name[8..]).0), ActiveRecord.SplitColumn(name[8..]).1))
    else Err(NoSuchMethod(name))
  }

  /** The two parsers agree on every name except the `get_col_` ones, which the older one refuses. */
  lemma LegacyParseAgrees(name: string)
    ensures !StartsWith(name, "get_col_") ==> ParseLegacyFinder(name) == ActiveRecord.ParseFinder(name)
    ensures StartsWith(name, "get_col_") ==> ParseLegacyFinder(name) == Err(NoSuchMethod(name))
  {
    if StartsWith(name, "get_col_") {
      assert name[4] == 'c';
    }
  }

  /** The older loop always explodes the condition, even an empty one. */
  function LegacyAndPieces(condition: string): (ands: seq<string>)
    ensures Join("_and_", ands) == condition && |ands| >= 1
    ensures !Empty(condition) ==> ands == ActiveRecord.AndPieces(condition)
  {
    JoinExplode("_and_", condition);
    Explode("_and_", condition)
  }

  /**
   * The older `__callStatic`: the same query as the current one, built from the older parse and
   * split. Its query is built without casting: the older class has no `get_casted_value`, and
   * the second argument of `new Query(get_called_class(), true)` belongs to the root `Query.php`.
   */
  method LegacyCallStatic(table: string, name: string, args: seq<Value>)
    returns (r: Result<(Terminal, Query), FinderError>)
    ensures ParseLegacyFinder(name).Err? ==> r == Err(ParseLegacyFinder(name).error)
    ensures ParseLegacyFinder(name).Ok? ==> r.Ok? && r.value.0 == ParseLegacyFinder(name).value.terminal
    ensures r.Ok? ==> fresh(r.value.1) && r.value.1.casting == None && r.value.1.Valid()
    ensures r.Ok? ==>
              var f := ParseLegacyFinder(name).value;
              r.value.1.State() == FinderState(table, f, LegacyAndPieces(f.condition), args)
  {
    var q := new Query(table, None);
    var ignored := q.Select([]);
    var parsed := ParseLegacyFinder(name);
    if parsed.Err? {
      return Err(parsed.error);
    }
    var f := parsed.value;
    if f.column.Some? {
      ignored := q.Select([f.column.value]);
    }
    var ands := Explode("_and_", f.condition);
    IssueConditions(q, ands, args);
    return Ok((f.terminal, q));
  }

  /**
   * Where the two differ on a parsed name: an empty condition (`get_by_`, or `get_var_x_by_`)
   * still issues `where('', $arguments[0])` in the older loop, and none in the current one.
   */
  lemma LegacyEmptyCondition(table: string, f: Finder, args: seq<Value>)
    requires f.condition == ""
    ensures FinderState(table, f, LegacyAndPieces(f.condition), args).where == [[TwoArgItem(Name(""), Arg(args, 0))]]
    ensures FinderState(table, f, ActiveRecord.AndPieces(f.condition), args).where == []
  {
    assert !Contains("", "_and_") && !Contains("", "_or_");
    ExplodeSingle("_and_", "");
    SinglePieceTargets("");
    OneWhere("", args);
    assert Targets([]) == [];
  }

  /** Any other condition builds the same query in both. */
  lemma LegacyAgreesOnConditions(table: string, f: Finder, args: seq<Value>)
    requires !Empty(f.condition)
    ensures FinderState(table, f, LegacyAndPieces(f.condition), args)
         == FinderState(table, f, ActiveRecord.AndPieces(f.condition), args)
  {
  }

  /** The older record: attributes stored and read back as they are. */
  class PlainRecord {
    var attributes: map<string, Scalar>

    constructor (attributes: map<string, Scalar>)
      ensures this.attributes == attributes
    {
      this.attributes := attributes;
    }

    /** `__set`: the value is stored unchanged. */
    method Set(column: string, value: Scalar)
      modifies this
      ensures attributes == old(attributes)[column := value]
    {
      attributes := attributes[column := value];
    }

    /** `__get`: the stored value; an unknown column reads as null (after a PHP notice). */
    function Get(column: string): (r: Scalar)
      reads this
      ensures column in attributes ==> r == attributes[column]
      ensures column !in attributes ==> r == Null
    {
      if column in attributes then attributes[column] else Null
    }
  }
}
