/**
  What the spec fixer (scripts/openapi-spec.js) needs of JavaScript objects.
  The fixer works on the deep copy `JSON.parse(JSON.stringify(spec))`, so no
  two places of the tree share an object and rewriting it in place is the
  same as computing the rewritten value. `Object.entries` of an array lists
  its elements under their index strings; an array is mutated in place by
  index, so only its elements can change.
 */
module OpenApiTree {
  import opened Wrappers
  import opened Text
  import opened Json

  /** The combinators whose schema lists the walks descend into. */
  const Keywords: seq<string> := ["allOf", "oneOf", "anyOf"]

  /** The operations a path item is searched for, in the order the fixes visit them. */
  const Methods: seq<string> := ["get", "post", "put", "patch", "delete"]

  /** The TypeError of reading `property` of null. */
  function NullRead(property: string): string {
    "TypeError: Cannot read properties of null (reading '" + property + "')"
  }

  /** The TypeError of a `for...of` over a value that is not iterable. */
  function NotIterable(expression: string): string {
    "TypeError: " + expression + " is not iterable"
  }

  /** The TypeError of calling a method a value does not have. */
  function NotAFunction(expression: string): string {
    "TypeError: " + expression + " is not a function"
  }

  /** `typeof` of a primitive that is not null. */
  function TypeOf(j: Json): string {
    match j
    case Bool(_) => "boolean"
    case Num(_) => "number"
    case Str(_) => "string"
    case _ => "object"
  }

  /** The TypeError strict-mode code raises when it assigns a property of a primitive. */
  function CannotCreate(property: string, j: Json): string {
    "TypeError: Cannot create property '" + property + "' on " + TypeOf(j) + " '" + JsString(j) + "'"
  }

  /** `obj[key]` is truthy. */
  predicate TruthyAt(ms: seq<Member>, key: string) {
    Get(ms, key).Some? && Truthy(Get(ms, key).value)
  }

  /** `v && typeof v === "object"`: an object or an array. */
  predicate IsObject(v: Json) {
    v.Obj? || v.Arr?
  }

  /**
    The values `Object.entries(v)` lists, for the values whose entries can
    be rewritten: an object's member values and an array's elements. A
    string's entries are its one-character strings, which none of the fixes
    change, so strings (like the other primitives) list nothing here.
   */
  function Children(v: Json): (r: seq<Json>)
    ensures forall i :: 0 <= i < |r| ==> r[i] < v
  {
    match v
    case Obj(ms) => seq(|ms|, i requires 0 <= i < |ms| => ms[i].value)
    case Arr(es) => es
    case _ => []
  }

  /** The keys `Object.entries(v)` pairs with `Children(v)`: member keys, or index strings. */
  function EntryKeys(v: Json): (r: seq<string>)
    ensures |r| == |Children(v)|
  {
    match v
    case Obj(ms) => seq(|ms|, i requires 0 <= i < |ms| => ms[i].key)
    case Arr(es) => seq(|es|, i requires 0 <= i < |es| => NatToString(i))
    case _ => []
  }

  /** `v` with its entry values replaced, in place, by `vs`. */
  function WithChildren(v: Json, vs: seq<Json>): (r: Json)
    requires |vs| == |Children(v)|
    ensures Children(r) == vs && EntryKeys(r) == EntryKeys(v)
    ensures r.Obj? == v.Obj? && r.Arr? == v.Arr?
  {
    match v
    case Obj(ms) => Obj(seq(|ms|, i requires 0 <= i < |ms| => Member(ms[i].key, vs[i])))
    case Arr(_) => Arr(vs)
    case _ => v
  }

  /** Rewriting nothing leaves the value as it was. */
  lemma WithOwnChildren(v: Json)
    ensures WithChildren(v, Children(v)) == v
  {
    if v.Obj? {
      assert WithChildren(v, Children(v)).members == v.members;
    }
  }

  /** `obj[key]` is a part of `obj`. */
  lemma GetSmaller(v: Json, key: string)
    requires v.Obj? && Get(v.members, key).Some?
    ensures Get(v.members, key).value < v
  {
    var i :| 0 <= i < |v.members| && v.members[i] == Member(key, Get(v.members, key).value);
    assert v.members[i] in v.members;
  }

  /**
    SameValueZero between two values of the copied tree: primitives compare
    by value, and objects and arrays by identity, which after the deep copy
    no two positions share.
   */
  predicate SameValueZero(a: Json, b: Json) {
    IsPrimitive(a) && a == b
  }

  /** `[...new Set(xs)]`: the first occurrence of each primitive, and every object and array. */
  function Dedup(xs: seq<Json>): (r: seq<Json>)
    ensures |r| <= |xs|
    ensures NoDuplicatePrimitives(r)
    decreases |xs|
  {
    if xs == [] then []
    else
      var d := Dedup(xs[..|xs| - 1]);
      var last := xs[|xs| - 1];
      if IsPrimitive(last) && last in d then d else d + [last]
  }

  /** No primitive occurs twice. */
  predicate NoDuplicatePrimitives(xs: seq<Json>) {
    forall i, j :: 0 <= i < j < |xs| && IsPrimitive(xs[i]) ==> xs[i] != xs[j]
  }

  /** A Set keeps exactly the values it was given, no primitive twice. */
  lemma {:induction false} DedupContents(xs: seq<Json>)
    ensures forall x :: x in Dedup(xs) <==> x in xs
    ensures NoDuplicatePrimitives(Dedup(xs))
    decreases |xs|
  {
    if xs != [] {
      var init := xs[..|xs| - 1];
      DedupContents(init);
      assert xs == init + [xs[|xs| - 1]];
    }
  }

  /** A list without repeated primitives comes out of the Set unchanged, and stays first when more is added. */
  lemma {:induction false} DedupKeepsPrefix(xs: seq<Json>, ys: seq<Json>)
    requires NoDuplicatePrimitives(xs)
    ensures |Dedup(xs + ys)| >= |xs| && Dedup(xs + ys)[..|xs|] == xs
    decreases |ys|
  {
    if ys == [] {
      assert xs + ys == xs;
      DedupOfDistinct(xs);
    } else {
      var init := ys[..|ys| - 1];
      assert (xs + ys)[..|xs + ys| - 1] == xs + init;
      DedupKeepsPrefix(xs, init);
    }
  }

  lemma {:induction false} DedupOfDistinct(xs: seq<Json>)
    requires NoDuplicatePrimitives(xs)
    ensures Dedup(xs) == xs
    decreases |xs|
  {
    if xs != [] {
      var init, last := xs[..|xs| - 1], xs[|xs| - 1];
      DedupOfDistinct(init);
      assert xs == init + [last];
    }
  }

  /** Collects the values of a series of steps, stopping at the first that fails. */
  function Collect(rs: seq<Result<Json>>): (r: Result<seq<Json>>)
    ensures r.Success? <==> forall i :: 0 <= i < |rs| ==> rs[i].Success?
    ensures r.Success? ==> |r.value| == |rs| && forall i :: 0 <= i < |rs| ==> r.value[i] == rs[i].value
    ensures r.Failure? ==> exists i :: 0 <= i < |rs| && rs[i] == Failure(r.error)
    decreases |rs|
  {
    if rs == [] then Success([])
    else if rs[|rs| - 1].Failure? then
      var init := Collect(rs[..|rs| - 1]);
      if init.Failure? then init else rs[|rs| - 1].PropagateFailure()
    else
      var init :- Collect(rs[..|rs| - 1]);
      Success(init + [rs[|rs| - 1].value])
  }

  /** Strs(["a", "b"]) is `["a", "b"]` as JSON strings. */
  function Strs(ss: seq<string>): (r: seq<Json>)
    ensures |r| == |ss| && forall i :: 0 <= i < |ss| ==> r[i] == Str(ss[i])
  {
    seq(|ss|, i requires 0 <= i < |ss| => Str(ss[i]))
  }

  /** Reading `v.k1.k2...` with optional chaining: None as soon as a step is not an object or lacks the key. */
  function At(v: Json, path: seq<string>): Option<Json>
    decreases |path|
  {
    if path == [] then Some(v)
    else match Prop(v, path[0])
      case None => None
      case Some(w) => At(w, path[1..])
  }

  /** `v.k1.k2... = w` along a path that exists, each object keeping its members' order. */
  function ReplaceAt(v: Json, path: seq<string>, w: Json): (r: Json)
    requires At(v, path).Some?
    ensures At(r, path) == Some(w)
    decreases |path|
  {
    if path == [] then w
    else Obj(Put(v.members, path[0], ReplaceAt(Get(v.members, path[0]).value, path[1..], w)))
  }

  /** Writing along one path leaves what a path through another member reads. */
  lemma ReplaceAtFrame(v: Json, path: seq<string>, w: Json, other: seq<string>)
    requires At(v, path).Some? && path != [] && other != [] && path[0] != other[0]
    ensures At(ReplaceAt(v, path, w), other) == At(v, other)
  {
    var r := ReplaceAt(v, path, w);
    assert Prop(r, other[0]) == Prop(v, other[0]);
  }

  /** Two lists with the same elements at every index are the same list. */
  lemma SamePointwise(a: seq<Json>, b: seq<Json>)
    requires |a| == |b| && forall j :: 0 <= j < |a| ==> a[j] == b[j]
    ensures a == b
  {
  }

  /** A step that succeeds after a run of successes extends the collected values. */
  lemma CollectStep(rs: seq<Result<Json>>, i: nat, values: seq<Json>)
    requires i < |rs| && Collect(rs[..i]) == Success(values) && rs[i].Success?
    ensures Collect(rs[..i + 1]) == Success(values + [rs[i].value])
  {
    assert rs[..i + 1][..i] == rs[..i];
  }

  /** One turn of a loop over the steps: the value is added, or the step's error ends the loop. */
  lemma CollectTurn(rs: seq<Result<Json>>, i: nat, values: seq<Json>, x: Result<Json>)
    requires i < |rs| && Collect(rs[..i]) == Success(values) && rs[i] == x
    ensures x.Success? ==> Collect(rs[..i + 1]) == Success(values + [x.value])
    ensures x.Failure? ==> Collect(rs) == Failure(x.error)
  {
    if x.Success? {
      CollectStep(rs, i, values);
    } else {
      CollectStopsAt(rs, i, |rs|);
      assert rs[..|rs|] == rs;
    }
  }

  /** The first step that fails decides the error of the whole series. */
  lemma {:induction false} CollectStopsAt(rs: seq<Result<Json>>, i: nat, n: nat)
    requires i < n <= |rs| && Collect(rs[..i]).Success? && rs[i].Failure?
    ensures Collect(rs[..n]) == Failure(rs[i].error)
  {
    var p := rs[..n];
    assert p[..i] == rs[..i] && p[i] == rs[i];
    CollectFirstFailure(p, i);
  }

  /** The same, on the whole of a series. */
  lemma {:induction false} CollectFirstFailure(p: seq<Result<Json>>, i: nat)
    requires i < |p| && Collect(p[..i]).Success? && p[i].Failure?
    ensures Collect(p) == Failure(p[i].error)
    decreases |p|
  {
    var q := p[..|p| - 1];
    if i == |p| - 1 {
      CollectLastFails(p);
    } else {
      assert q[..i] == p[..i] && q[i] == p[i];
      CollectFirstFailure(q, i);
      CollectKeepsFailure(p);
    }
  }

  /** A failing last step after a run of successes is the error. */
  lemma CollectLastFails(p: seq<Result<Json>>)
    requires |p| > 0 && Collect(p[..|p| - 1]).Success? && p[|p| - 1].Failure?
    ensures Collect(p) == Failure(p[|p| - 1].error)
  {
  }

  /** A failure before the last step is kept whatever the last step does. */
  lemma CollectKeepsFailure(p: seq<Result<Json>>)
    requires |p| > 0 && Collect(p[..|p| - 1]).Failure?
    ensures Collect(p) == Collect(p[..|p| - 1])
  {
  }

  /** The member a key reads first. */
  function KeyIndex(ms: seq<Member>, key: string): (i: nat)
    requires HasKey(ms, key)
    ensures i < |ms| && ms[i].key == key && Get(ms, key) == Some(ms[i].value)
    ensures forall j :: 0 <= j < i ==> ms[j].key != key
  {
    if ms[0].key == key then 0
    else
      assert HasKey(ms[1..], key) by {
        var i :| 0 <= i < |ms| && ms[i].key == key;
        assert ms[1..][i - 1].key == key;
      }
      1 + KeyIndex(ms[1..], key)
  }

  /** Reading a key of an object whose values were replaced reads the replacement of the same member. */
  lemma {:induction false} GetRekeyed(v: Json, vs: seq<Json>, key: string)
    requires v.Obj? && |vs| == |Children(v)|
    ensures HasKey(v.members, key) <==> Get(WithChildren(v, vs).members, key).Some?
    ensures HasKey(v.members, key) ==> Get(WithChildren(v, vs).members, key) == Some(vs[KeyIndex(v.members, key)])
  {
    var w := WithChildren(v, vs).members;
    GetSameKeys(v.members, w, key);
  }

  lemma {:induction false} GetSameKeys(a: seq<Member>, b: seq<Member>, key: string)
    requires |a| == |b| && forall j :: 0 <= j < |a| ==> a[j].key == b[j].key
    ensures HasKey(a, key) <==> HasKey(b, key)
    ensures HasKey(a, key) ==> Get(b, key) == Some(b[KeyIndex(a, key)].value)
  {
    if a == [] {
    } else if a[0].key == key {
      assert b[0].key == key;
    } else {
      var a', b' := a[1..], b[1..];
      assert forall j :: 0 <= j < |a'| ==> a'[j].key == b'[j].key by {
        forall j | 0 <= j < |a'| ensures a'[j].key == b'[j].key {
          assert a'[j] == a[j + 1] && b'[j] == b[j + 1];
        }
      }
      GetSameKeys(a', b', key);
      assert Get(a, key) == Get(a', key) && Get(b, key) == Get(b', key);
    }
  }

  /** An assignment only adds the member it writes. */
  lemma {:induction false} PutMembers(ms: seq<Member>, key: string, v: Json)
    ensures forall m :: m in Put(ms, key, v) ==> m in ms || m == Member(key, v)
  {
    if ms != [] && ms[0].key != key {
      PutMembers(ms[1..], key, v);
    }
  }

  /** A deletion only drops members. */
  lemma {:induction false} RemoveMembers(ms: seq<Member>, key: string)
    ensures forall m :: m in Remove(ms, key) ==> m in ms
  {
    if ms != [] {
      RemoveMembers(ms[1..], key);
    }
  }
}
