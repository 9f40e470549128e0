/**
 * Per-column casting of a record type: the rule lookup in the record's cast table and
 * the dispatch to a `cast_*`/`decast_*` method of the casting table or to a custom
 * callable.
 */
module RecordCasting {
  import opened Php
  import opened Results
  import Casting

  /** Which way a value is converted: read from storage (`cast`) or written to it (`decast`). */
  datatype Direction = Cast | Decast

  function DirectionName(d: Direction): string {
    match d
    case Cast => "cast"
    case Decast => "decast"
  }

  /**
   * A column's entry in the record type's cast table: a kind name (`'int'`, `'Bool'`, ...)
   * or an array that may hold a `'cast'` and a `'decast'` callable.
   */
  datatype Rule = Kind(name: string) | Callables(cast: Option<Scalar -> Scalar>, decast: Option<Scalar -> Scalar>)

  type Rules = map<string, Rule>

  /**
   * The casting methods this model does not define (`cast_float`, `cast_datetime`,
   * `decast_datetime`), applied by method name.
   */
  type Foreign = (string, Scalar) -> Scalar

  /** A record type's casting: its cast table and the casting methods left abstract. */
  datatype Model = Model(rules: Rules, foreign: Foreign)

  /** The static methods of the casting table. */
  const METHODS: set<string> :=
    {"cast_int", "cast_float", "cast_boolean", "decast_boolean", "cast_datetime", "decast_datetime"}

  /** A kind name lower-cased and then resolved through the alias table once. */
  function CanonicalKind(name: string): (k: string)
    ensures k !in Casting.Alias
  {
    var l := Lower(name);
    Casting.AliasTargetsAreCanonical();
    if l in Casting.Alias then Casting.Alias[l] else l
  }

  /** Resolving a resolved kind changes nothing more. */
  lemma CanonicalKindIdempotent(name: string)
    ensures CanonicalKind(CanonicalKind(name)) == CanonicalKind(name)
  {
    var l := Lower(name);
    LowerIdempotent(name);
    if l in Casting.Alias {
      var t := Casting.Alias[l];
      assert t == "int" || t == "float" || t == "boolean";
      assert Lower("int") == "int" && Lower("float") == "float" && Lower("boolean") == "boolean";
    }
  }

  /** Kind names are case-insensitive. */
  lemma CanonicalKindIgnoresCase(name: string)
    ensures CanonicalKind(Upper(name)) == CanonicalKind(name)
  {
    LowerOfUpper(name);
  }

  /** The name of the method the dispatch looks for. */
  function MethodName(d: Direction, name: string): string {
    DirectionName(d) + "_" + CanonicalKind(name)
  }

  /** A call of a casting method by name. */
  function ApplyMethod(name: string, v: Scalar, foreign: Foreign): Scalar {
    if name == "cast_int" then Casting.CastInt(v)
    else if name == "cast_boolean" then Casting.CastBoolean(v)
    else if name == "decast_boolean" then Casting.DecastBoolean(v)
    else foreign(name, v)
  }

  function Callable(rule: Rule, d: Direction): Option<Scalar -> Scalar>
    requires rule.Callables?
  {
    match d
    case Cast => rule.cast
    case Decast => rule.decast
  }

  /** The value converted by the column's rule, in the given direction. */
  function CastingValue(model: Model, d: Direction, prop: string, v: Scalar): (r: Scalar)
    ensures prop !in model.rules ==> r == v
  {
    if prop !in model.rules then v
    else
      match model.rules[prop]
      case Callables(_, _) =>
        (match Callable(model.rules[prop], d) case None => v case Some(f) => f(v))
      case Kind(name) =>
        var m := MethodName(d, name);
        if m in METHODS then ApplyMethod(m, v, model.foreign) else v
  }

  /** The value read from storage, in native form. */
  function CastedValue(model: Model, prop: string, v: Scalar): Scalar {
    CastingValue(model, Cast, prop, v)
  }

  /** The native value in the form it is stored. */
  function DecastedValue(model: Model, prop: string, v: Scalar): Scalar {
    CastingValue(model, Decast, prop, v)
  }

  /**
   * A column with a callable rule: each direction goes through its own callable when the
   * rule has one and keeps the value when it has none, independently of the other direction.
   */
  lemma CallableRule(model: Model, prop: string, v: Scalar)
    requires prop in model.rules && model.rules[prop].Callables?
    ensures model.rules[prop].cast.Some? ==> CastedValue(model, prop, v) == model.rules[prop].cast.value(v)
    ensures model.rules[prop].cast.None? ==> CastedValue(model, prop, v) == v
    ensures model.rules[prop].decast.Some? ==> DecastedValue(model, prop, v) == model.rules[prop].decast.value(v)
    ensures model.rules[prop].decast.None? ==> DecastedValue(model, prop, v) == v
  {
  }

  /** A rule with only a `cast` callable reads through it and stores values unchanged. */
  lemma CastOnlyRule(model: Model, prop: string, f: Scalar -> Scalar, v: Scalar)
    requires prop in model.rules && model.rules[prop] == Callables(Some(f), None)
    ensures CastedValue(model, prop, v) == f(v)
    ensures DecastedValue(model, prop, v) == v
  {
    CallableRule(model, prop, v);
  }

  /** A rule array with neither callable converts nothing, either way. */
  lemma EmptyCallablesIsIdentity(model: Model, prop: string, v: Scalar)
    requires prop in model.rules && model.rules[prop] == Callables(None, None)
    ensures CastedValue(model, prop, v) == v
    ensures DecastedValue(model, prop, v) == v
  {
    CallableRule(model, prop, v);
  }

  /** A column with an `int` rule (under any alias or case) is cast by `cast_int` and stored unchanged. */
  lemma IntRule(model: Model, prop: string, v: Scalar)
    requires prop in model.rules && model.rules[prop].Kind?
    requires CanonicalKind(model.rules[prop].name) == "int"
    ensures CastedValue(model, prop, v) == Casting.CastInt(v)
    ensures DecastedValue(model, prop, v) == v
    ensures v.Int? ==> CastedValue(model, prop, v) == v
  {
    assert MethodName(Cast, model.rules[prop].name) == "cast_int";
    assert MethodName(Decast, model.rules[prop].name) == "decast_int";
  }

  /** A column with a `boolean` rule reads back the boolean it was given. */
  lemma BooleanRuleRoundTrip(model: Model, prop: string, b: bool)
    requires prop in model.rules && model.rules[prop].Kind?
    requires CanonicalKind(model.rules[prop].name) == "boolean"
    ensures DecastedValue(model, prop, Bool(b)) == Int(if b then 1 else 0)
    ensures CastedValue(model, prop, DecastedValue(model, prop, Bool(b))) == Bool(b)
  {
    assert MethodName(Cast, model.rules[prop].name) == "cast_boolean";
    assert MethodName(Decast, model.rules[prop].name) == "decast_boolean";
  }

  /** A kind the casting table has no method for converts nothing, either way. */
  lemma UnknownKindIsIdentity(model: Model, prop: string, d: Direction, v: Scalar)
    requires prop in model.rules && model.rules[prop].Kind?
    requires CanonicalKind(model.rules[prop].name) !in {"int", "float", "boolean", "datetime"}
    ensures CastingValue(model, d, prop, v) == v
  {
    var k := CanonicalKind(model.rules[prop].name);
    var m := MethodName(d, model.rules[prop].name);
    var p := DirectionName(d) + "_";
    assert m == p + k && m[|p|..] == k && m[0] == p[0];
    assert m !in METHODS;
  }

  /** Rules whose kind names differ only in case convert alike. */
  lemma KindRuleIgnoresCase(model: Model, prop: string, name: string, d: Direction, v: Scalar)
    requires prop in model.rules && model.rules[prop] == Kind(name)
    ensures CastingValue(model, d, prop, v) ==
            CastingValue(Model(model.rules[prop := Kind(Upper(name))], model.foreign), d, prop, v)
  {
    CanonicalKindIgnoresCase(name);
  }
}
