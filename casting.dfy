/**
 * The built-in casting table: kind aliases and the conversions between the stored
 * (database) form of an attribute and its native form.
 */
module Casting {
  import opened Php

  /** Alternative kind names and the kind they stand for. */
  const Alias: map<string, string> := map["integer" := "int", "number" := "float", "bool" := "boolean"]

  /** One alias step already lands on a canonical kind: no alias target is an alias. */
  lemma AliasTargetsAreCanonical()
    ensures forall k :: k in Alias ==> Alias[k] !in Alias
    ensures Alias.Values == {"int", "float", "boolean"}
  {
    assert Alias["integer"] == "int" && Alias["number"] == "float" && Alias["bool"] == "boolean";
  }

  /** `cast_int`: the `(int)` conversion. */
  function CastInt(v: Scalar): (r: Scalar)
    ensures r.Int?
    ensures v.Int? ==> r == v
    ensures v.Bool? ==> r == Int(if v.b then 1 else 0)
    ensures v.Null? ==> r == Int(0)
  {
    Int(ToInt(v))
  }

  /** `cast_boolean`: the `(boolean)` conversion, i.e. truthiness. */
  function CastBoolean(v: Scalar): (r: Scalar)
    ensures r.Bool?
    ensures r.b <==> Truthy(v)
    ensures v.Bool? ==> r == v
  {
    Bool(Truthy(v))
  }

  /** `decast_boolean`: a truthy value is stored as 1, any other as 0. */
  function DecastBoolean(v: Scalar): (r: Scalar)
    ensures r == Int(0) || r == Int(1)
    ensures r == Int(1) <==> Truthy(v)
  {
    if Truthy(v) then Int(1) else Int(0)
  }

  /** A boolean survives being stored and read back. */
  lemma BooleanRoundTrip(b: bool)
    ensures CastBoolean(DecastBoolean(Bool(b))) == Bool(b)
  {
  }

  /** Storing a read-back value stores the same thing again. */
  lemma DecastCastBoolean(v: Scalar)
    ensures DecastBoolean(CastBoolean(DecastBoolean(v))) == DecastBoolean(v)
  {
  }

  /** `cast_int` is idempotent. */
  /**
   * A column value that the database hands back as a string reads as the integer it was
   * written from: `cast_int` of an integer's string form is that integer.
   */
  lemma CastIntOfString(i: int)
    ensures CastInt(Str(ToStr(Int(i)))) == Int(i)
  {
    IntStringToInt(i);
  }

  lemma CastIntIdempotent(v: Scalar)
    ensures CastInt(CastInt(v)) == CastInt(v)
  {
  }
}
