/**
 * The record base class: the per-column cast cache behind `__get` / `__set`, and the
 * dynamic finders (`get_by_...`, `get_var_..._by_...`, ...) of `__callStatic`.
 */
module ActiveRecord {
  import opened Php
  import opened Results
  import opened Seqs
  import opened Clauses
  import opened Assembler
  import opened QueryBuilder
  import opened Finders
  import RecordCasting

  // ---------------------------------------------------------------------------
  // Finder names

  /** The text a finder name of each kind starts with. */
  function Prefix(t: Terminal): string {
    match t
    case Get => "get_by_"
    case GetOne => "get_one_by_"
    case GetRow => "get_row_by_"
    case GetResults => "get_results_by_"
    case GetVar => "get_var_"
    case GetCol => "get_col_"
  }

  predicate KnownPrefix(name: string) {
    exists t: Terminal :: StartsWith(name, Prefix(t))
  }

  /** `explode('_by_', ...)`, then `array_shift`: the column, and the rest joined back with `_by_`. */
  function SplitColumn(rest: string): (string, string) {
    var props := Explode("_by_", rest);
    (props[0], Join("_by_", props[1..]))
  }

  /** The prefix tests of `__callStatic`, in their order. */
  function ParseFinder(name: string): Result<Finder, FinderError> {
    if StartsWith(name, "get_by_") then Ok(Finder(Get, None, name[7..]))
    else if StartsWith(name, "get_one_by_") then Ok(Finder(GetOne, None, name[11..]))
    else if StartsWith(name, "get_row_by_") then Ok(Finder(GetRow, None, name[11..]))
    else if StartsWith(name, "get_results_by_") then Ok(Finder(GetResults, None, name[15..]))
    else if StartsWith(name, "get_var_") then
      if |Explode("_by_", name[8..])| == 1 then Err(MissingWhere)
      else Ok(Finder(GetVar, Some(SplitColumn(name[8..]).0), SplitColumn(name[8..]).1))
    else if StartsWith(name, "get_col_") then
      Ok(Finder(GetCol, Some(SplitColumn(name[8..]).0), SplitColumn(name[8..]).1))
    else Err(NoSuchMethod(name))
  }

  /** The six prefixes exclude each other. */
  lemma PrefixesDisjoint(name: string, t: Terminal, u: Terminal)
    requires StartsWith(name, Prefix(t)) && StartsWith(name, Prefix(u))
    ensures t == u
  {
    assert name[..|Prefix(t)|][..4] == "get_" && name[..|Prefix(u)|][..4] == "get_";
    assert name[4] == Prefix(t)[4] == Prefix(u)[4];
    assert name[5] == Prefix(t)[5] == Prefix(u)[5];
  }

  /** A name is rejected as unknown exactly when it has none of the six prefixes. */
  lemma UnknownNames(name: string)
    ensures ParseFinder(name) == Err(NoSuchMethod(name)) <==> !KnownPrefix(name)
  {
    if ParseFinder(name) == Err(NoSuchMethod(name)) {
      forall t: Terminal ensures !StartsWith(name, Prefix(t)) {
        match t
        case Get =>
        case GetOne =>
        case GetRow =>
        case GetResults =>
        case GetVar =>
        case GetCol =>
      }
    } else {
      match ParseFinder(name)
      case Ok(f) => assert StartsWith(name, Prefix(f.terminal));
      case Err(_) => assert StartsWith(name, Prefix(GetVar));
    }
  }

  /** Only `get_var_` and `get_col_` select a column of their own. */
  lemma ColumnOnlyForVarAndCol(name: string)
    requires ParseFinder(name).Ok?
    ensures ParseFinder(name).value.column.Some? <==> ParseFinder(name).value.terminal in {GetVar, GetCol}
  {
  }

  /** `get_var_` is refused exactly when no `_by_` follows the column. */
  lemma VarNeedsWhere(name: string)
    ensures ParseFinder(name) == Err(MissingWhere) <==> StartsWith(name, "get_var_") && !Contains(name[8..], "_by_")
  {
    if StartsWith(name, "get_var_") {
      ExplodeSingle("_by_", name[8..]);
      NotBeforeVar(name);
    }
  }

  /** A `get_var_` name passes the four earlier prefix tests. */
  lemma NotBeforeVar(name: string)
    requires StartsWith(name, "get_var_")
    ensures !StartsWith(name, "get_by_") && !StartsWith(name, "get_one_by_")
    ensures !StartsWith(name, "get_row_by_") && !StartsWith(name, "get_results_by_")
  {
    assert name[4] == "get_var_"[4] == 'v';
  }

  /** The column and the condition put back together give the text after the prefix. */
  lemma SplitColumnJoins(rest: string)
    ensures !Contains(SplitColumn(rest).0, "_by_")
    ensures Contains(rest, "_by_") ==> rest == SplitColumn(rest).0 + "_by_" + SplitColumn(rest).1
    ensures !Contains(rest, "_by_") ==> rest == SplitColumn(rest).0 && SplitColumn(rest).1 == ""
  {
    var props := Explode("_by_", rest);
    ExplodePiecesFree("_by_", rest);
    ExplodeSingle("_by_", rest);
    JoinExplode("_by_", rest);
    if |props| > 1 {
      assert props == [props[0]] + props[1..];
      JoinCons("_by_", props[0], props[1..]);
    } else {
      assert props[1..] == [];
    }
  }

  /** What the parse takes from the name, case by case. */
  lemma ParsedParts(name: string)
    requires ParseFinder(name).Ok?
    ensures var f := ParseFinder(name).value;
            StartsWith(name, Prefix(f.terminal)) &&
            (f.column.None? ==> f.condition == name[|Prefix(f.terminal)|..]) &&
            (f.column.Some? ==> |Prefix(f.terminal)| == 8 && (f.column.value, f.condition) == SplitColumn(name[8..])) &&
            (f.terminal == GetVar ==> Contains(name[8..], "_by_"))
  {
    if StartsWith(name, "get_var_") {
      ExplodeSingle("_by_", name[8..]);
    }
  }

  lemma RestAfterPrefix(name: string, p: string)
    requires StartsWith(name, p)
    ensures name == p + name[|p|..]
  {
    assert name == name[..|p|] + name[|p|..];
  }

  /** The parts of a parsed finder spell out the name it was parsed from. */
  lemma FinderNameRoundTrip(name: string)
    requires ParseFinder(name).Ok?
    ensures var f := ParseFinder(name).value;
            match f.column
            case None => name == Prefix(f.terminal) + f.condition
            case Some(c) =>
              !Contains(c, "_by_") &&
              (name == Prefix(f.terminal) + c + "_by_" + f.condition ||
               (f.terminal == GetCol && f.condition == "" && name == Prefix(f.terminal) + c))
  {
    var f := ParseFinder(name).value;
    var p := Prefix(f.terminal);
    ParsedParts(name);
    RestAfterPrefix(name, p);
    if f.column.Some? {
      SplitColumnJoins(name[8..]);
    }
  }

  // ---------------------------------------------------------------------------
  // The query a finder builds

  /** `if(!empty($prop_name)) explode('_and_', $prop_name)`: no condition for `""` and `"0"`. */
  function AndPieces(condition: string): (ands: seq<string>)
    ensures Empty(condition) ==> ands == []
    ensures !Empty(condition) ==> Join("_and_", ands) == condition && |ands| >= 1
  {
    JoinExplode("_and_", condition);
    if Empty(condition) then [] else Explode("_and_", condition)
  }

  /**
   * `__callStatic`: the finder's query (a SELECT of the `get_var_` / `get_col_` column,
   * with one condition per named column), and the query method that runs it.
   */
  method CallStatic(table: string, casting: RecordCasting.Model, name: string, args: seq<Value>)
    returns (r: Result<(Terminal, Query), FinderError>)
    ensures ParseFinder(name).Err? ==> r == Err(ParseFinder(name).error)
    ensures ParseFinder(name).Ok? ==> r.Ok? && r.value.0 == ParseFinder(name).value.terminal
    ensures r.Ok? ==> fresh(r.value.1) && r.value.1.casting == Some(casting) && r.value.1.Valid()
    ensures r.Ok? ==>
              var f := ParseFinder(name).value;
              r.value.1.State() == FinderState(table, f, AndPieces(f.condition), args)
  {
    var q := new Query(table, Some(casting));
    var ignored := q.Select([]);
    var parsed := ParseFinder(name);
    if parsed.Err? {
      return Err(parsed.error);
    }
    var f := parsed.value;
    if f.column.Some? {
      ignored := q.Select([f.column.value]);
    }
    var ands := if Empty(f.condition) then [] else Explode("_and_", f.condition);
    IssueConditions(q, ands, args);
    return Ok((f.terminal, q));
  }

  /** The k-th condition of a finder is on the k-th column it names, with the k-th argument (or null). */
  lemma FinderConditionsInOrder(table: string, f: Finder, args: seq<Value>)
    ensures Flatten(FinderState(table, f, AndPieces(f.condition), args).where)
         == TargetItems(Targets(AndPieces(f.condition)), args, 0)
  {
    ConditionsInOrder([], Targets(AndPieces(f.condition)), args, 0);
    assert Flatten<Item>([]) == [];
  }

  /** A condition of `""` or `"0"` filters nothing. */
  lemma EmptyConditionFiltersNothing(table: string, f: Finder, args: seq<Value>)
    requires Empty(f.condition)
    ensures FinderState(table, f, AndPieces(f.condition), args).where == []
  {
    assert Targets([]) == [];
  }

  /** A condition of one plain column becomes one `where` on it with the first argument. */
  lemma SingleColumnFinder(table: string, f: Finder, args: seq<Value>)
    requires !Empty(f.condition) && !Contains(f.condition, "_and_") && !Contains(f.condition, "_or_")
    ensures FinderState(table, f, AndPieces(f.condition), args).where
         == [[TwoArgItem(Name(f.condition), Arg(args, 0))]]
  {
    var c := f.condition;
    ExplodeSingle("_and_", c);
    assert AndPieces(c) == [c];
    SinglePieceTargets(c);
    OneWhere(c, args);
  }

  /** `get_one_by_id(1)`: a SELECT with the one condition `id = 1`. */
  lemma GetOneById(table: string)
    ensures ParseFinder("get_one_by_id") == Ok(Finder(GetOne, None, "id"))
    ensures var f := Finder(GetOne, None, "id");
            var s := FinderState(table, f, AndPieces(f.condition), [Plain(Int(1))]);
            s.kind == Some(Kind.Select) && s.select == [] &&
            s.where == [[Cond(Name("id"), "=", Plain(Int(1)))]]
  {
    var f := Finder(GetOne, None, "id");
    assert "get_one_by_id"[..11] == "get_one_by_";
    assert !StartsWith("get_one_by_id", "get_by_") by { assert "get_one_by_id"[4] == 'o'; }
    SingleColumnFinder(table, f, [Plain(Int(1))]);
  }

  lemma NameByIdSplits()
    ensures Explode("_by_", "name_by_id") == ["name", "id"]
    ensures SplitColumn("name_by_id") == ("name", "id")
  {
    var rest := "name_by_id";
    assert IndexFrom(rest, "_by_", 4) == 4;
    assert rest[3..7] != "_by_" by { assert rest[3..7][0] == 'e'; }
    assert IndexFrom(rest, "_by_", 3) == 4;
    assert rest[2..6] != "_by_" by { assert rest[2..6][0] == 'm'; }
    assert IndexFrom(rest, "_by_", 2) == 4;
    assert rest[1..5] != "_by_" by { assert rest[1..5][0] == 'a'; }
    assert IndexFrom(rest, "_by_", 1) == 4;
    assert rest[0..4] != "_by_" by { assert rest[0..4][0] == 'n'; }
    assert IndexFrom(rest, "_by_", 0) == 4;
    assert rest[..4] == "name" && rest[8..] == "id";
    assert IndexFrom("id", "_by_", 0) == -1;
    assert Explode("_by_", "id") == ["id"];
  }

  /** `get_var_name_by_id(2)`: a SELECT of `name` with the one condition `id = 2`. */
  lemma GetVarNameById(table: string)
    ensures ParseFinder("get_var_name_by_id") == Ok(Finder(GetVar, Some("name"), "id"))
    ensures var f := Finder(GetVar, Some("name"), "id");
            var s := FinderState(table, f, AndPieces(f.condition), [Plain(Int(2))]);
            s.kind == Some(Kind.Select) && s.select == ["name"] &&
            s.where == [[Cond(Name("id"), "=", Plain(Int(2)))]]
  {
    var name := "get_var_name_by_id";
    assert name[..8] == "get_var_" && name[8..] == "name_by_id";
    NotBeforeVar(name);
    NameByIdSplits();
    SingleColumnFinder(table, Finder(GetVar, Some("name"), "id"), [Plain(Int(2))]);
  }

  // ---------------------------------------------------------------------------
  // Attribute access

  /**
   * A record: its stored attributes and the cast values of those already read, so each
   * column is cast once until it is written again.
   */
  class Record {
    const casting: RecordCasting.Model
    var attributes: map<string, Scalar>
    var castedAttributes: map<string, Scalar>

    /** Every cached value is the cast of the stored one. */
    ghost predicate Valid()
      reads this
    {
      forall c :: c in castedAttributes ==>
        c in attributes && castedAttributes[c] == RecordCasting.CastedValue(casting, c, attributes[c])
    }

    /** `new static($attributes)`: the attributes as given, nothing cast yet. */
    constructor (casting: RecordCasting.Model, attributes: map<string, Scalar>)
      ensures this.casting == casting && this.attributes == attributes && castedAttributes == map[]
      ensures Valid()
    {
      this.casting := casting;
      this.attributes := attributes;
      castedAttributes := map[];
    }

    /** `__set`: the decast value is stored and the column's cached cast is dropped. */
    method Set(column: string, value: Scalar)
      requires Valid()
      modifies this
      ensures Valid()
      ensures attributes == old(attributes)[column := RecordCasting.DecastedValue(casting, column, value)]
      ensures castedAttributes == old(castedAttributes) - {column}
    {
      if column in castedAttributes {
        castedAttributes := castedAttributes - {column};
      }
      attributes := attributes[column := RecordCasting.DecastedValue(casting, column, value)];
    }

    /** `__get`: null for an unknown column, otherwise the cast of the stored value, cached. */
    method Get(column: string) returns (r: Scalar)
      requires Valid()
      modifies this
      ensures Valid()
      ensures attributes == old(attributes)
      ensures column !in attributes ==> r == Null && castedAttributes == old(castedAttributes)
      ensures column in attributes ==>
                r == RecordCasting.CastedValue(casting, column, attributes[column]) &&
                castedAttributes == old(castedAttributes)[column := r]
    {
      if column !in castedAttributes {
        if column !in attributes {
          return Null;
        }
        var value := attributes[column];
        castedAttributes := castedAttributes[column := RecordCasting.CastedValue(casting, column, value)];
      }
      r := castedAttributes[column];
    }
  }
}
