/**
 * The slice of JavaScript semantics the client composables rely on: dynamic
 * values, property access, truthiness, `??`, `||`, object spread, and the
 * insertion-ordered `Map` built from an array of records.
 *
 * Property access on `null` or `undefined` throws in JavaScript; the model
 * answers `undefined` there, so `a.b` and `a?.b` coincide. Values are compared
 * by content: `===`, `Map` keys and `Set.has` only ever compare ids here,
 * which are strings, where content and identity agree.
 */
module Js {

  datatype Val =
    | Undefined
    | Null
    | Bool(b: bool)
    | Num(n: real)
    | Str(s: string)
    | Obj(fields: map<string, Val>)
    | Arr(items: seq<Val>)

  /** `v.key` (and `v?.key`). */
  function Prop(v: Val, key: string): (r: Val)
    ensures !v.Obj? ==> r == Undefined
    ensures v.Obj? && key !in v.fields ==> r == Undefined
  {
    if v.Obj? && key in v.fields then v.fields[key] else Undefined
  }

  /** What `if (v)` and `!v` test. */
  predicate Truthy(v: Val) {
    match v
    case Undefined => false
    case Null => false
    case Bool(b) => b
    case Num(n) => n != 0.0
    case Str(s) => s != ""
    case Obj(_) => true
    case Arr(_) => true
  }

  predicate Nullish(v: Val) {
    v.Undefined? || v.Null?
  }

  /** `a ?? b`: only `null` and `undefined` fall through; `false` and `0` do not. */
  function Coalesce(a: Val, b: Val): (r: Val)
    ensures !Nullish(a) ==> r == a
    ensures Nullish(a) ==> r == b
  {
    if Nullish(a) then b else a
  }

  /** `a || b`. */
  function Or(a: Val, b: Val): (r: Val)
    ensures Truthy(a) ==> r == a
    ensures !Truthy(a) ==> r == b
  {
    if Truthy(a) then a else b
  }

  /**
   * The own enumerable properties an object spread copies. The model gives
   * every other value none; JavaScript would spread a string's or an array's
   * indices; the client spreads only pet and position records.
   */
  function Fields(v: Val): map<string, Val> {
    if v.Obj? then v.fields else map[]
  }

  /** `{...a, ...b}`: every key of either, the right-hand value winning. */
  function Spread(a: Val, b: Val): (r: Val)
    ensures r.Obj?
    ensures forall k :: Prop(r, k) == if k in Fields(b) then Prop(b, k) else Prop(a, k)
  {
    Obj(Fields(a) + Fields(b))
  }

  /** `{...v}`: a shallow copy, equal by content to an object `v`. */
  function Copy(v: Val): (r: Val)
    ensures v.Obj? ==> r == v
    ensures r.Obj?
  {
    Obj(Fields(v))
  }

  // ---------------------------------------------------------------------------
  // Array.prototype.filter / some / findIndex and order-preserving subsequences

  function Filter(xs: seq<Val>, keep: Val -> bool): seq<Val>
    decreases |xs|
  {
    if xs == [] then [] else (if keep(xs[0]) then [xs[0]] else []) + Filter(xs[1..], keep)
  }

  /** `xs` can be obtained from `ys` by deleting elements, order kept. */
  ghost predicate IsSubsequence(xs: seq<Val>, ys: seq<Val>)
    decreases |ys|
  {
    xs == [] ||
    (ys != [] && ((xs[0] == ys[0] && IsSubsequence(xs[1..], ys[1..])) || IsSubsequence(xs, ys[1..])))
  }

  /** filter keeps exactly the elements its callback accepts, in their order. */
  lemma {:induction false} FilterRule(xs: seq<Val>, keep: Val -> bool)
    ensures forall x :: x in Filter(xs, keep) <==> x in xs && keep(x)
    ensures IsSubsequence(Filter(xs, keep), xs)
    ensures |Filter(xs, keep)| <= |xs|
    decreases |xs|
  {
    if xs != [] {
      FilterRule(xs[1..], keep);
      assert xs == [xs[0]] + xs[1..];
      var f := Filter(xs, keep);
      if keep(xs[0]) {
        assert f == [xs[0]] + Filter(xs[1..], keep);
        assert f[0] == xs[0] && f[1..] == Filter(xs[1..], keep);
        assert IsSubsequence(f[1..], xs[1..]);
      } else {
        assert f == Filter(xs[1..], keep);
        assert IsSubsequence(f, xs[1..]);
      }
    }
  }

  /** filter changes nothing when the callback accepts every element. */
  lemma {:induction false} FilterAll(xs: seq<Val>, keep: Val -> bool)
    requires forall x :: x in xs ==> keep(x)
    ensures Filter(xs, keep) == xs
    decreases |xs|
  {
    if xs != [] {
      assert xs[0] in xs;
      assert forall x :: x in xs[1..] ==> x in xs;
      FilterAll(xs[1..], keep);
    }
  }

  /** `xs.findIndex(pred)`: the first accepted index, or -1. */
  function FindIndex(xs: seq<Val>, pred: Val -> bool): (r: int)
    ensures -1 <= r < |xs|
    ensures r == -1 <==> forall i :: 0 <= i < |xs| ==> !pred(xs[i])
    ensures r >= 0 ==> pred(xs[r]) && forall i :: 0 <= i < r ==> !pred(xs[i])
    decreases |xs|
  {
    if xs == [] then -1
    else if pred(xs[0]) then 0
    else
      var r := FindIndex(xs[1..], pred);
      assert forall i :: 1 <= i < |xs| ==> xs[i] == xs[1..][i - 1];
      if r == -1 then -1 else r + 1
  }

  /** `xs.find(pred)`: the first accepted element, or undefined. */
  function Find(xs: seq<Val>, pred: Val -> bool): (r: Val)
    ensures FindIndex(xs, pred) == -1 ==> r == Undefined
    ensures FindIndex(xs, pred) >= 0 ==> r == xs[FindIndex(xs, pred)]
  {
    var i := FindIndex(xs, pred);
    if i == -1 then Undefined else xs[i]
  }

  // ---------------------------------------------------------------------------
  // Map: keys in first-insertion order; a repeated key overwrites the value in place

  datatype Entry = Entry(key: Val, value: Val)

  ghost predicate UniqueKeys(m: seq<Entry>) {
    forall i, j :: 0 <= i < j < |m| ==> m[i].key != m[j].key
  }

  /** `m.set(k, v)`. */
  function MapSet(m: seq<Entry>, k: Val, v: Val): (r: seq<Entry>)
    ensures UniqueKeys(m) ==> UniqueKeys(r)
    ensures Entry(k, v) in r
    ensures forall e :: e in r ==> e == Entry(k, v) || e in m
    decreases |m|
  {
    if m == [] then [Entry(k, v)]
    else if m[0].key == k then [Entry(k, v)] + m[1..]
    else
      assert UniqueKeys(m) ==> forall e :: e in m[1..] ==> e.key != m[0].key by {
        if UniqueKeys(m) {
          forall e | e in m[1..] ensures e.key != m[0].key {
            var j :| 0 <= j < |m[1..]| && m[1..][j] == e;
            assert m[j + 1] == e;
          }
        }
      }
      [m[0]] + MapSet(m[1..], k, v)
  }

  /** Setting a key keeps the other entries and holds no other entry. */
  lemma {:induction false} MapSetRule(m: seq<Entry>, k: Val, v: Val)
    ensures forall e :: e in m && e.key != k ==> e in MapSet(m, k, v)
    ensures UniqueKeys(m) ==> forall e :: e in MapSet(m, k, v) ==> e == Entry(k, v) || (e in m && e.key != k)
    decreases |m|
  {
    if m != [] {
      if m[0].key == k {
        if UniqueKeys(m) {
          assert forall e :: e in m[1..] ==> e.key != k by {
            forall e | e in m[1..] ensures e.key != k {
              var j :| 0 <= j < |m[1..]| && m[1..][j] == e;
              assert m[j + 1] == e;
            }
          }
        }
      } else {
        MapSetRule(m[1..], k, v);
        if UniqueKeys(m) {
          UniqueTail(m);
        }
      }
    }
  }

  /** `m.get(k)`: undefined when absent. */
  function MapGet(m: seq<Entry>, k: Val): (r: Val)
    ensures (forall e :: e in m ==> e.key != k) ==> r == Undefined
    decreases |m|
  {
    if m == [] then Undefined
    else if m[0].key == k then m[0].value
    else MapGet(m[1..], k)
  }

  /** `new Map(xs.map((x) => [x[field], x]))`. */
  function MapFrom(xs: seq<Val>, field: string): (m: seq<Entry>)
    ensures UniqueKeys(m)
    decreases |xs|
  {
    if xs == [] then []
    else
      var x := xs[|xs| - 1];
      MapSet(MapFrom(xs[..|xs| - 1], field), Prop(x, field), x)
  }

  /** The last element of `xs` whose `field` is `k`, or undefined. */
  function LastWith(xs: seq<Val>, field: string, k: Val): (r: Val)
    ensures r != Undefined ==> r in xs && Prop(r, field) == k
    decreases |xs|
  {
    if xs == [] then Undefined
    else if Prop(xs[|xs| - 1], field) == k then xs[|xs| - 1]
    else LastWith(xs[..|xs| - 1], field, k)
  }

  /** Setting a key changes what get answers for that key only. */
  lemma {:induction false} MapGetSet(m: seq<Entry>, k: Val, v: Val, q: Val)
    requires UniqueKeys(m)
    ensures MapGet(MapSet(m, k, v), q) == if q == k then v else MapGet(m, q)
    decreases |m|
  {
    if m != [] && m[0].key != k {
      UniqueTail(m);
      MapGetSet(m[1..], k, v, q);
      assert MapSet(m, k, v) == [m[0]] + MapSet(m[1..], k, v);
    }
  }

  lemma UniqueTail(m: seq<Entry>)
    requires UniqueKeys(m) && m != []
    ensures UniqueKeys(m[1..])
  {
    forall i, j | 0 <= i < j < |m[1..]| ensures m[1..][i].key != m[1..][j].key {
      assert m[1..][i] == m[i + 1] && m[1..][j] == m[j + 1];
    }
  }

  /**
   * Looking a key up in the map built from `xs` finds the last element whose
   * `field` is that key, and undefined when there is none.
   */
  lemma {:induction false} MapFromGet(xs: seq<Val>, field: string, k: Val)
    ensures MapGet(MapFrom(xs, field), k) == LastWith(xs, field, k)
    decreases |xs|
  {
    if xs != [] {
      var init, x := xs[..|xs| - 1], xs[|xs| - 1];
      MapFromGet(init, field, k);
      MapGetSet(MapFrom(init, field), Prop(x, field), x, k);
    }
  }

  /** No element carries the key exactly when the lookup is undefined (elements are objects). */
  lemma {:induction false} LastWithNone(xs: seq<Val>, field: string, k: Val)
    requires forall x :: x in xs ==> x.Obj?
    ensures LastWith(xs, field, k) == Undefined <==> forall i :: 0 <= i < |xs| ==> Prop(xs[i], field) != k
    decreases |xs|
  {
    if xs != [] {
      var init := xs[..|xs| - 1];
      assert forall x :: x in init ==> x in xs;
      LastWithNone(init, field, k);
      assert forall i :: 0 <= i < |init| ==> init[i] == xs[i];
      assert xs[|xs| - 1] in xs;
    }
  }
}
