/** JSON values as the endpoint hands them to the client, and the handful of Python
    operations the client applies to them: dict lookup, `in`, iteration, subscripting
    and truthiness. */
module Json {
  import opened Results

  /** A parsed JSON value. Objects keep their members in the order of the text, so that
      the dict the client sees (insertion ordered) can be read off them. Numbers are
      integers only. */
  datatype Value =
    | Null
    | Bool(b: bool)
    | Num(n: int)
    | Str(s: string)
    | Arr(items: seq<Value>)
    | Obj(members: seq<(string, Value)>)

  type Members = seq<(string, Value)>

  /** The object holds the key `k`. */
  predicate Has(ms: Members, k: string) {
    exists i | 0 <= i < |ms| :: ms[i].0 == k
  }

  /** No key occurs twice. */
  predicate DistinctKeys(ms: Members) {
    forall i, j | 0 <= i < j < |ms| :: ms[i].0 != ms[j].0
  }

  /** The value the dict built from `ms` holds for `k`: when a key is repeated, the last
      binding wins, as when a dict is filled member by member. */
  function Lookup(ms: Members, k: string): (r: Option<Value>)
    ensures r.Some? <==> Has(ms, k)
    ensures r.Some? ==>
      exists i | 0 <= i < |ms| :: ms[i] == (k, r.value) && forall j | i < j < |ms| :: ms[j].0 != k
  {
    if ms == [] then None
    else if ms[|ms| - 1].0 == k then
      Some(ms[|ms| - 1].1)
    else
      var front := ms[..|ms| - 1];
      var r := Lookup(front, k);
      assert Has(ms, k) ==> Has(front, k) by {
        if Has(ms, k) {
          var i :| 0 <= i < |ms| && ms[i].0 == k;
          assert front[i].0 == k;
        }
      }
      assert r.Some? ==> exists i | 0 <= i < |ms| ::
          ms[i] == (k, r.value) && forall j | i < j < |ms| :: ms[j].0 != k by {
        if r.Some? {
          var i :| 0 <= i < |front| && front[i] == (k, r.value)
            && forall j | i < j < |front| :: front[j].0 != k;
          assert ms[i] == (k, r.value) && forall j | i < j < |ms| :: ms[j].0 != k;
        }
      }
      r
  }

  /** The position where `k` first occurs among the members, or `|ms|` when it does not
      occur at all. */
  function FirstIndex(ms: Members, k: string): (p: nat)
    ensures p <= |ms|
    ensures p < |ms| <==> Has(ms, k)
    ensures p < |ms| ==> ms[p].0 == k
    ensures forall q | 0 <= q < p && q < |ms| :: ms[q].0 != k
  {
    if ms == [] then 0
    else if ms[0].0 == k then 0
    else
      var p := 1 + FirstIndex(ms[1..], k);
      assert forall q | 1 <= q < p && q < |ms| :: ms[q] == ms[1..][q - 1];
      assert Has(ms, k) ==> Has(ms[1..], k) by {
        if Has(ms, k) {
          var i :| 0 <= i < |ms| && ms[i].0 == k;
          assert ms[1..][i - 1].0 == k;
        }
      }
      p
  }

  /** Appending members does not move the first occurrence of a key already present. */
  lemma FirstIndexOfExtension(front: Members, ms: Members, k: string)
    requires |front| <= |ms| && front == ms[..|front|] && Has(front, k)
    ensures FirstIndex(ms, k) == FirstIndex(front, k)
  {
    var p, q := FirstIndex(ms, k), FirstIndex(front, k);
    assert ms[q].0 == k;
    assert forall r | 0 <= r < q :: ms[r].0 != k by {
      forall r | 0 <= r < q ensures ms[r].0 != k {
        assert ms[r] == front[r];
      }
    }
  }

  /** The keys of the dict built from `ms`, in insertion order: each key where it first
      occurs (see KeysInFirstOccurrenceOrder). */
  function Keys(ms: Members): (ks: seq<string>)
    ensures forall k :: k in ks <==> Has(ms, k)
    ensures forall i, j | 0 <= i < j < |ks| :: ks[i] != ks[j]
  {
    if ms == [] then []
    else
      var front := ms[..|ms| - 1];
      var ks := Keys(front);
      assert forall k :: Has(ms, k) <==> Has(front, k) || ms[|ms| - 1].0 == k by {
        forall k | Has(ms, k) && ms[|ms| - 1].0 != k ensures Has(front, k) {
          var i :| 0 <= i < |ms| && ms[i].0 == k;
          assert front[i].0 == k;
        }
        forall k | Has(front, k) ensures Has(ms, k) {
          var i :| 0 <= i < |front| && front[i].0 == k;
          assert ms[i].0 == k;
        }
      }
      if ms[|ms| - 1].0 in ks then ks else ks + [ms[|ms| - 1].0]
  }

  /** A dict's keys come in the order of their first occurrence among the members, for
      any members, repeated keys included. */
  lemma {:induction false} KeysInFirstOccurrenceOrder(ms: Members)
    ensures forall i, j | 0 <= i < j < |Keys(ms)| :: FirstIndex(ms, Keys(ms)[i]) < FirstIndex(ms, Keys(ms)[j])
    decreases |ms|
  {
    if ms != [] {
      var front := ms[..|ms| - 1];
      var last := ms[|ms| - 1].0;
      var ks := Keys(front);
      KeysInFirstOccurrenceOrder(front);
      forall k | Has(front, k) ensures FirstIndex(ms, k) == FirstIndex(front, k) {
        FirstIndexOfExtension(front, ms, k);
      }
      forall i | 0 <= i < |ks| ensures FirstIndex(ms, ks[i]) == FirstIndex(front, ks[i]) < |front| {
        assert ks[i] in ks;
      }
      if last !in ks {
        assert FirstIndex(ms, last) == |front|;
        assert Keys(ms) == ks + [last];
      }
    }
  }

  /** `dict.items()`: each key once, in insertion order, with the value it holds. */
  function Items(ms: Members): (items: Members)
    ensures |items| == |Keys(ms)|
    ensures forall i | 0 <= i < |items| :: items[i].0 == Keys(ms)[i] && Lookup(ms, items[i].0) == Some(items[i].1)
  {
    var ks := Keys(ms);
    seq(|ks|, i requires 0 <= i < |ks| => (ks[i], Lookup(ms, ks[i]).value))
  }

  /** The field read of model validation: the value of field `k`, or null when the field
      is missing; a value that is not an object has no fields, so every field reads as
      null. */
  function Get(v: Value, k: string): (r: Value)
    ensures v.Obj? && Has(v.members, k) ==> Lookup(v.members, k) == Some(r)
    ensures !(v.Obj? && Has(v.members, k)) ==> r == Null
  {
    if v.Obj? then
      match Lookup(v.members, k)
      case Some(x) => x
      case None => Null
    else Null
  }

  /** The value reached by subscripting with each key of `path` in turn. */
  function At(v: Value, path: seq<string>): Option<Value>
    decreases |path|
  {
    if path == [] then Some(v)
    else if v.Obj? then
      match Lookup(v.members, path[0])
      case Some(x) => At(x, path[1..])
      case None => None
    else None
  }

  /** One more subscript after reaching `x` by `path`: the field of `x` when it is a dict
      holding `k`, and nothing otherwise. */
  lemma {:induction false} AtExtend(v: Value, path: seq<string>, k: string, x: Value)
    requires At(v, path) == Some(x)
    ensures At(v, path + [k]) == if x.Obj? && Has(x.members, k) then Some(Get(x, k)) else None
    decreases |path|
  {
    if path == [] {
      assert path + [k] == [k];
    } else {
      assert (path + [k])[0] == path[0];
      assert (path + [k])[1..] == path[1..] + [k];
      var y := Lookup(v.members, path[0]).value;
      AtExtend(y, path[1..], k, x);
    }
  }

  /** Python's truthiness: null, false, 0 and every empty string, list or dict are falsy. */
  predicate Truthy(v: Value)
    ensures !Truthy(v) <==> v in {Null, Bool(false), Num(0), Str(""), Arr([]), Obj([])}
  {
    match v
    case Null => false
    case Bool(b) => b
    case Num(n) => n != 0
    case Str(s) => s != ""
    case Arr(xs) => xs != []
    case Obj(ms) => ms != []
  }

  /** The values Python can iterate over or test with `in`. */
  predicate Iterable(v: Value) {
    v.Arr? || v.Obj? || v.Str?
  }

  /** `s` occurs somewhere in `t`. */
  predicate IsSubstring(s: string, t: string) {
    s <= t || (t != [] && IsSubstring(s, t[1..]))
  }

  /** Python's `s in v`: key presence in a dict, element equality in a list, substring in
      a string, and a TypeError for anything else. */
  function Contains(v: Value, s: string): (r: Result<bool>)
    ensures r.Ok? <==> Iterable(v)
    ensures v.Obj? ==> r == Ok(Has(v.members, s))
    ensures v.Arr? ==> r == Ok(Str(s) in v.items)
  {
    match v
    case Obj(ms) => Ok(Has(ms, s))
    case Arr(xs) => Ok(Str(s) in xs)
    case Str(t) => Ok(IsSubstring(s, t))
    case _ => Err(TypeError("argument is not iterable"))
  }

  /** Python's `for x in v`: the items of a list, the keys of a dict (in insertion order),
      the one-character strings of a string; anything else is not iterable. */
  function Iterate(v: Value): (r: Result<seq<Value>>)
    ensures r.Ok? <==> Iterable(v)
    ensures v.Arr? ==> r == Ok(v.items)
    ensures v.Obj? ==>
      |r.value| == |Keys(v.members)| && forall i | 0 <= i < |r.value| :: r.value[i] == Str(Keys(v.members)[i])
    ensures v.Str? ==> |r.value| == |v.s| && forall i | 0 <= i < |r.value| :: r.value[i] == Str([v.s[i]])
  {
    match v
    case Arr(xs) => Ok(xs)
    case Obj(ms) =>
      var ks := Keys(ms);
      Ok(seq(|ks|, i requires 0 <= i < |ks| => Str(ks[i])))
    case Str(s) => Ok(seq(|s|, i requires 0 <= i < |s| => Str([s[i]])))
    case _ => Err(TypeError("object is not iterable"))
  }

  /** Python's `v[k]` with a string key. */
  function Subscript(v: Value, k: string): (r: Result<Value>)
    ensures r.Ok? <==> v.Obj? && Has(v.members, k)
    ensures r.Ok? ==> At(v, [k]) == Some(r.value)
  {
    match v
    case Obj(ms) =>
      (match Lookup(ms, k)
       case Some(x) => Ok(x)
       case None => Err(KeyError(k)))
    case _ => Err(TypeError("indices must be integers"))
  }

  /** Members appended with other keys do not change what a key looks up: the basis of
      the validators' tolerance of unknown fields. */
  lemma {:induction false} LookupIgnoresOtherKeys(ms: Members, extra: Members, k: string)
    requires !Has(extra, k)
    ensures Lookup(ms + extra, k) == Lookup(ms, k)
    decreases |extra|
  {
    if extra == [] {
      assert ms + extra == ms;
    } else {
      var n := |ms + extra|;
      assert (ms + extra)[n - 1] == extra[|extra| - 1];
      assert (ms + extra)[..n - 1] == ms + extra[..|extra| - 1];
      var init := extra[..|extra| - 1];
      assert !Has(init, k) by {
        forall i | 0 <= i < |init| ensures init[i].0 != k {
          assert init[i] == extra[i];
        }
      }
      LookupIgnoresOtherKeys(ms, init, k);
    }
  }

  /** With distinct keys the dict's keys are the member keys, in order. */
  lemma {:induction false} KeysOfDistinct(ms: Members)
    requires DistinctKeys(ms)
    ensures |Keys(ms)| == |ms|
    ensures forall i | 0 <= i < |ms| :: Keys(ms)[i] == ms[i].0
    decreases |ms|
  {
    if ms != [] {
      var front := ms[..|ms| - 1];
      assert DistinctKeys(front) by {
        forall i, j | 0 <= i < j < |front| ensures front[i].0 != front[j].0 {
          assert front[i] == ms[i] && front[j] == ms[j];
        }
      }
      KeysOfDistinct(front);
      var last := ms[|ms| - 1].0;
      assert !Has(front, last) by {
        forall i | 0 <= i < |front| ensures front[i].0 != last {
          assert front[i] == ms[i];
        }
      }
      assert Keys(ms) == Keys(front) + [last];
      forall i | 0 <= i < |ms| ensures Keys(ms)[i] == ms[i].0 {
        if i < |front| {
          assert Keys(ms)[i] == Keys(front)[i] == front[i].0;
        }
      }
    }
  }

  /** With distinct keys the dict keeps every member, in order: `items()` gives back the
      members themselves. */
  lemma ItemsOfDistinct(ms: Members)
    requires DistinctKeys(ms)
    ensures Items(ms) == ms
  {
    KeysOfDistinct(ms);
    forall i | 0 <= i < |ms| ensures Items(ms)[i] == ms[i] {
      ItemOfDistinct(ms, i);
    }
  }

  lemma ItemOfDistinct(ms: Members, i: nat)
    requires DistinctKeys(ms) && i < |ms|
    ensures |Items(ms)| == |ms| && Items(ms)[i] == ms[i]
  {
    KeysOfDistinct(ms);
    FieldOf(ms, i);
  }

  /** A field of an object with distinct keys reads back as written. */
  lemma FieldOf(ms: Members, i: nat)
    requires DistinctKeys(ms) && i < |ms|
    ensures Get(Obj(ms), ms[i].0) == ms[i].1
  {
    var k := ms[i].0;
    var v := Lookup(ms, k).value;
    var w :| 0 <= w < |ms| && ms[w] == (k, v) && forall j | w < j < |ms| :: ms[j].0 != k;
    assert w == i;
  }

  /** Reading the fields of two-, three- and four-member object literals. */
  lemma Fields2(k0: string, v0: Value, k1: string, v1: Value)
    requires k0 != k1
    ensures var o := Obj([(k0, v0), (k1, v1)]);
      Get(o, k0) == v0 && Get(o, k1) == v1 && forall k | k != k0 && k != k1 :: Get(o, k) == Null
  {
    var ms := [(k0, v0), (k1, v1)];
    FieldOf(ms, 0);
    FieldOf(ms, 1);
  }

  lemma Fields3(k0: string, v0: Value, k1: string, v1: Value, k2: string, v2: Value)
    requires k0 != k1 && k0 != k2 && k1 != k2
    ensures var o := Obj([(k0, v0), (k1, v1), (k2, v2)]);
      && Get(o, k0) == v0 && Get(o, k1) == v1 && Get(o, k2) == v2
      && forall k | k != k0 && k != k1 && k != k2 :: Get(o, k) == Null
  {
    var ms := [(k0, v0), (k1, v1), (k2, v2)];
    FieldOf(ms, 0);
    FieldOf(ms, 1);
    FieldOf(ms, 2);
  }

  lemma Fields4(k0: string, v0: Value, k1: string, v1: Value, k2: string, v2: Value, k3: string, v3: Value)
    requires k0 != k1 && k0 != k2 && k0 != k3 && k1 != k2 && k1 != k3 && k2 != k3
    ensures var o := Obj([(k0, v0), (k1, v1), (k2, v2), (k3, v3)]);
      && Get(o, k0) == v0 && Get(o, k1) == v1 && Get(o, k2) == v2 && Get(o, k3) == v3
      && forall k | k != k0 && k != k1 && k != k2 && k != k3 :: Get(o, k) == Null
  {
    var ms := [(k0, v0), (k1, v1), (k2, v2), (k3, v3)];
    FieldOf(ms, 0);
    FieldOf(ms, 1);
    FieldOf(ms, 2);
    FieldOf(ms, 3);
  }
}
