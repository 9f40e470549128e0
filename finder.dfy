/**
 * What both `__callStatic` variants share: the finder kinds, and how the condition part of
 * a finder name becomes `where` / `or_where` calls on a query, the arguments consumed in
 * order.
 */
module Finders {
  import opened Php
  import opened Results
  import opened Seqs
  import opened Clauses
  import opened Assembler
  import opened QueryBuilder

  /** The query method a finder ends with. */
  datatype Terminal = Get | GetOne | GetRow | GetResults | GetVar | GetCol

  /** A parsed finder name: the terminal, the selected column (`get_var_` / `get_col_`) and the condition text. */
  datatype Finder = Finder(terminal: Terminal, column: Option<string>, condition: string)

  datatype FinderError =
    | NoSuchMethod(name: string)  // the name has none of the finder prefixes
    | MissingWhere                // `get_var_` without a `_by_` part

  /** PHP's `empty()` on a string: the empty string and `"0"`. */
  predicate Empty(s: string) {
    s == "" || s == "0"
  }

  /** `$arguments[$k]`: a missing argument reads as null. */
  function Arg(args: seq<Value>, k: nat): (v: Value)
    ensures k < |args| ==> v == args[k]
    ensures k >= |args| ==> v == Plain(Null)
  {
    if k < |args| then args[k] else Plain(Null)
  }

  /** The columns of one `_and_` piece, split on `_or_`: the first one is a `where`, every later one an `or_where`. */
  function GroupTargets(ors: seq<string>): (ts: seq<(string, bool)>)
    ensures |ts| == |ors|
    ensures forall j :: 0 <= j < |ts| ==> ts[j] == (ors[j], j > 0)
  {
    seq(|ors|, j requires 0 <= j < |ors| => (ors[j], j > 0))
  }

  function OrTargets(piece: string): (ts: seq<(string, bool)>)
    ensures |ts| >= 1 && !ts[0].1
    ensures forall j :: 0 < j < |ts| ==> ts[j].1
  {
    GroupTargets(Explode("_or_", piece))
  }

  /** Every column the pieces name, with whether it is an `or_where`, in the order they are issued. */
  function Targets(ands: seq<string>): seq<(string, bool)> {
    Flatten(Map(OrTargets, ands))
  }

  lemma TargetsSnoc(ands: seq<string>, i: nat)
    requires i < |ands|
    ensures Targets(ands[..i + 1]) == Targets(ands[..i]) + OrTargets(ands[i])
  {
    MapPrefix(OrTargets, ands, i);
    FlattenSnoc(Map(OrTargets, ands[..i]), OrTargets(ands[i]));
  }

  /** One call made by the loop: the item it adds, and whether it is an `or_where`. */
  type Call = (Item, bool)

  /** The calls the columns `ts` stand for, the k-th taking argument `from + k`. */
  function Calls(ts: seq<(string, bool)>, args: seq<Value>, from: nat): (cs: seq<Call>)
    ensures |cs| == |ts|
    ensures forall k :: 0 <= k < |ts| ==> cs[k] == (TwoArgItem(Name(ts[k].0), Arg(args, from + k)), ts[k].1)
  {
    seq(|ts|, k requires 0 <= k < |ts| => (TwoArgItem(Name(ts[k].0), Arg(args, from + k)), ts[k].1))
  }

  lemma CallsAppend(a: seq<(string, bool)>, b: seq<(string, bool)>, args: seq<Value>, from: nat)
    ensures Calls(a + b, args, from) == Calls(a, args, from) + Calls(b, args, from + |a|)
  {
    var l, r := Calls(a + b, args, from), Calls(a, args, from) + Calls(b, args, from + |a|);
    forall k | 0 <= k < |l| ensures l[k] == r[k] {
      if k >= |a| {
        assert (a + b)[k] == b[k - |a|];
      }
    }
  }

  /** `where($c, $v)` adds to the last group; `or_where($c, $v)` opens a group of its own. */
  function ApplyCall(t: Tree, c: Call): Tree {
    if c.1 then t + [[c.0]] else AppendItem(t, c.0)
  }

  /** Making the calls in order, each on the tree the previous one left. */
  function FoldLeft<S, C>(f: (S, C) -> S, s: S, cs: seq<C>): S {
    if cs == [] then s else f(FoldLeft(f, s, cs[..|cs| - 1]), cs[|cs| - 1])
  }

  lemma FoldSnoc<S, C>(f: (S, C) -> S, s: S, cs: seq<C>, c: C)
    ensures FoldLeft(f, s, cs + [c]) == f(FoldLeft(f, s, cs), c)
  {
    assert (cs + [c])[..|cs|] == cs;
  }

  lemma {:induction false} FoldAppend<S, C>(f: (S, C) -> S, s: S, a: seq<C>, b: seq<C>)
    ensures FoldLeft(f, s, a + b) == FoldLeft(f, FoldLeft(f, s, a), b)
    decreases |b|
  {
    if b == [] {
      assert a + b == a;
    } else {
      var init, last := b[..|b| - 1], b[|b| - 1];
      FoldAppend(f, s, a, init);
      assert a + b == (a + init) + [last];
      FoldSnoc(f, s, a + init, last);
    }
  }

  /** One call on column `target.0` with value `v`. */
  function ApplyTarget(t: Tree, target: (string, bool), v: Value): Tree {
    ApplyCall(t, (TwoArgItem(Name(target.0), v), target.1))
  }

  /** The calls in order, the k-th taking argument `from + k`. */
  function ApplyTargets(t: Tree, ts: seq<(string, bool)>, args: seq<Value>, from: nat): Tree {
    FoldLeft(ApplyCall, t, Calls(ts, args, from))
  }

  lemma ApplyTargetsSnoc(t: Tree, ts: seq<(string, bool)>, x: (string, bool), args: seq<Value>, from: nat)
    ensures ApplyTargets(t, ts + [x], args, from) == ApplyTarget(ApplyTargets(t, ts, args, from), x, Arg(args, from + |ts|))
  {
    CallsAppend(ts, [x], args, from);
    FoldSnoc(ApplyCall, t, Calls(ts, args, from), Calls([x], args, from + |ts|)[0]);
    assert Calls([x], args, from + |ts|) == [Calls([x], args, from + |ts|)[0]];
  }

  /** Issuing two runs of calls one after the other is issuing their concatenation. */
  lemma ApplyTargetsAppend(t: Tree, a: seq<(string, bool)>, b: seq<(string, bool)>, args: seq<Value>, from: nat)
    ensures ApplyTargets(t, a + b, args, from) == ApplyTargets(ApplyTargets(t, a, args, from), b, args, from + |a|)
  {
    CallsAppend(a, b, args, from);
    FoldAppend(ApplyCall, t, Calls(a, args, from), Calls(b, args, from + |a|));
  }

  /** The items the calls add, the k-th with argument `from + k`. */
  function TargetItems(ts: seq<(string, bool)>, args: seq<Value>, from: nat): (items: seq<Item>)
    ensures |items| == |ts|
    ensures forall k :: 0 <= k < |ts| ==> items[k] == TwoArgItem(Name(ts[k].0), Arg(args, from + k))
  {
    seq(|ts|, k requires 0 <= k < |ts| => TwoArgItem(Name(ts[k].0), Arg(args, from + k)))
  }

  /** Every call adds exactly one condition, after the earlier ones, with its own argument. */
  lemma {:induction false} ConditionsInOrder(t: Tree, ts: seq<(string, bool)>, args: seq<Value>, from: nat)
    ensures Flatten(ApplyTargets(t, ts, args, from)) == Flatten(t) + TargetItems(ts, args, from)
    decreases |ts|
  {
    if ts == [] {
      assert Flatten(t) + [] == Flatten(t);
    } else {
      var init, last := ts[..|ts| - 1], ts[|ts| - 1];
      ConditionsInOrder(t, init, args, from);
      assert init + [last] == ts;
      ConditionsStep(t, init, last, args, from);
    }
  }

  /** The inductive step of `ConditionsInOrder`: one more call. */
  lemma ConditionsStep(t: Tree, init: seq<(string, bool)>, last: (string, bool), args: seq<Value>, from: nat)
    requires Flatten(ApplyTargets(t, init, args, from)) == Flatten(t) + TargetItems(init, args, from)
    ensures Flatten(ApplyTargets(t, init + [last], args, from)) == Flatten(t) + TargetItems(init + [last], args, from)
  {
    var u := ApplyTargets(t, init, args, from);
    ApplyTargetsSnoc(t, init, last, args, from);
    assert TargetItems(init + [last], args, from) == TargetItems(init, args, from) + [TwoArgItem(Name(last.0), Arg(args, from + |init|))];
    FlattenOfTarget(u, last, Arg(args, from + |init|));
  }

  lemma FlattenOfTarget(u: Tree, target: (string, bool), v: Value)
    ensures Flatten(ApplyTarget(u, target, v)) == Flatten(u) + [TwoArgItem(Name(target.0), v)]
  {
    var item := TwoArgItem(Name(target.0), v);
    if target.1 {
      FlattenSnoc(u, [item]);
    } else {
      WhereAppendsOne(u, item);
      AppendAllFlatten(u, [item]);
    }
  }

  /** The number of `or_where` calls. */
  function OrCount(ts: seq<(string, bool)>): nat {
    if ts == [] then 0 else OrCount(ts[..|ts| - 1]) + (if ts[|ts| - 1].1 then 1 else 0)
  }

  /** Starting from no conditions with a `where`, there is one group for it and one per `or_where`. */
  lemma {:induction false} GroupCount(ts: seq<(string, bool)>, args: seq<Value>, from: nat)
    requires ts != [] && !ts[0].1
    ensures |ApplyTargets([], ts, args, from)| == 1 + OrCount(ts)
    decreases |ts|
  {
    var init, last := ts[..|ts| - 1], ts[|ts| - 1];
    var item := TwoArgItem(Name(last.0), Arg(args, from + |init|));
    assert init + [last] == ts;
    ApplyTargetsSnoc([], init, last, args, from);
    if init == [] {
      WhereAppendsOne([], item);
      AppendAllFlatten([], [item]);
      assert OrCount(ts) == OrCount(init);
    } else {
      GroupCount(init, args, from);
      if !last.1 {
        WhereAppendsOne(ApplyTargets([], init, args, from), item);
        AppendAllFlatten(ApplyTargets([], init, args, from), [item]);
      }
    }
  }

  /** `$query->where(...)` adds one item: the same as a single-item `AppendItem`. */
  lemma WhereAppendsOne(t: Tree, item: Item)
    ensures AppendAll(t, [item]) == AppendItem(t, item)
  {
    assert [item][..0] == [];
  }

  /** The `where` on the first column of a piece, as a tree update. */
  lemma FirstStep(w: Tree, ors: seq<string>, args: seq<Value>, counter: nat)
    requires |ors| >= 1
    ensures ApplyTargets(w, GroupTargets(ors)[..1], args, counter)
         == AppendAll(w, [TwoArgItem(Name(ors[0]), Arg(args, counter))])
  {
    var g := GroupTargets(ors);
    WhereAppendsOne(w, TwoArgItem(Name(ors[0]), Arg(args, counter)));
    ApplyTargetsSnoc(w, [], g[0], args, counter);
    assert [] + [g[0]] == g[..1];
  }

  /** An `or_where` on a later column of a piece, as a tree update. */
  lemma LaterStep(w: Tree, ors: seq<string>, args: seq<Value>, counter: nat, index: nat)
    requires 0 < index < |ors|
    ensures ApplyTargets(w, GroupTargets(ors)[..index + 1], args, counter)
         == ApplyTargets(w, GroupTargets(ors)[..index], args, counter)
            + [[TwoArgItem(Name(ors[index]), Arg(args, counter + index))]]
  {
    var g := GroupTargets(ors);
    ApplyTargetsSnoc(w, g[..index], g[index], args, counter);
    assert g[..index] + [g[index]] == g[..index + 1];
  }

  /** One `_and_` piece: `where` on its first `_or_` column, `or_where` on the others, from argument `counter` on. */
  method IssueGroup(q: Query, piece: string, counter: nat, args: seq<Value>) returns (next: nat)
    modifies q
    ensures next == counter + |OrTargets(piece)|
    ensures q.State() == old(q.State()).(where := ApplyTargets(old(q.where), OrTargets(piece), args, counter))
  {
    var ors := Explode("_or_", piece);
    next := IssueOrs(q, ors, counter, args);
  }

  /** The `where` on the first `_or_` column of a piece, then the `or_where` calls on the rest. */
  method IssueOrs(q: Query, ors: seq<string>, counter: nat, args: seq<Value>) returns (next: nat)
    requires |ors| >= 1
    modifies q
    ensures next == counter + |ors|
    ensures q.State() == old(q.State()).(where := ApplyTargets(old(q.where), GroupTargets(ors), args, counter))
  {
    FirstStep(q.where, ors, args, counter);
    var r := q.WhereCondition(WhereTree, Two(Name(ors[0]), Arg(args, counter)));
    next := IssueOrWheres(q, ors, counter, args, old(q.where));
  }

  /** The loop over the `_or_` columns after the first. */
  method IssueOrWheres(q: Query, ors: seq<string>, counter: nat, args: seq<Value>, ghost w: Tree) returns (next: nat)
    requires |ors| >= 1
    requires q.where == ApplyTargets(w, GroupTargets(ors)[..1], args, counter)
    modifies q
    ensures next == counter + |ors|
    ensures q.State() == old(q.State()).(where := ApplyTargets(w, GroupTargets(ors), args, counter))
  {
    next := counter + 1;
    var index := 1;
    while index < |ors|
      invariant 1 <= index <= |ors|
      invariant next == counter + index
      invariant q.State() == old(q.State()).(where := ApplyTargets(w, GroupTargets(ors)[..index], args, counter))
    {
      LaterStep(w, ors, args, counter, index);
      var r := q.OrWhereCondition(WhereTree, Two(Name(ors[index]), Arg(args, next)));
      next := next + 1;
      index := index + 1;
    }
    assert GroupTargets(ors)[..|ors|] == GroupTargets(ors);
  }

  /**
   * The loop of `__callStatic`: every `_and_` piece is split on `_or_`; its first column is
   * a `where`, the later ones `or_where`, each with the next argument.
   */
  method IssueConditions(q: Query, ands: seq<string>, args: seq<Value>)
    modifies q
    ensures q.State() == old(q.State()).(where := ApplyTargets(old(q.where), Targets(ands), args, 0))
  {
    var counter := 0;
    var i := 0;
    while i < |ands|
      invariant 0 <= i <= |ands|
      invariant counter == |Targets(ands[..i])|
      invariant q.State() == old(q.State()).(where := ApplyTargets(old(q.where), Targets(ands[..i]), args, 0))
    {
      ApplyTargetsAppend(old(q.where), Targets(ands[..i]), OrTargets(ands[i]), args, 0);
      TargetsSnoc(ands, i);
      counter := IssueGroup(q, ands[i], counter, args);
      i := i + 1;
    }
    assert ands[..|ands|] == ands;
  }

  /** A piece without `_or_` stands for one `where` on itself. */
  lemma SinglePieceTargets(c: string)
    requires !Contains(c, "_or_")
    ensures Targets([c]) == [(c, false)]
  {
    ExplodeSingle("_or_", c);
    assert OrTargets(c) == [(c, false)];
    assert Map(OrTargets, [c]) == [] + [[(c, false)]];
    FlattenSnoc<(string, bool)>([], [(c, false)]);
  }

  /** One `where` on an empty query: a single group holding its item. */
  lemma OneWhere(c: string, args: seq<Value>)
    ensures ApplyTargets([], [(c, false)], args, 0) == [[TwoArgItem(Name(c), Arg(args, 0))]]
  {
    var item := TwoArgItem(Name(c), Arg(args, 0));
    ApplyTargetsSnoc([], [], (c, false), args, 0);
    assert [] + [(c, false)] == [(c, false)];
    WhereAppendsOne([], item);
    AppendAllShape([], [item]);
  }

  /** The query a finder builds: a SELECT of its column, filtered by its conditions. */
  function FinderState(table: string, f: Finder, ands: seq<string>, args: seq<Value>): QueryState {
    EmptyState(table).(kind := Some(Kind.Select),
                       select := if f.column.Some? then [f.column.value] else [],
                       where := ApplyTargets([], Targets(ands), args, 0))
  }
}
