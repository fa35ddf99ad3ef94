/**
  generateOperationIds (scripts/openapi-spec.js): every operation without a
  truthy `operationId` gets one derived from its method and path, in the
  form the generated client expects: `GET /v1/workouts/{workoutId}` gives
  `getV1WorkoutsWorkoutid`.

  The derivation drops one leading "/", lower-cases the contents of every
  `{word}`, splits at "/", turns each `_x` (x a word character) into the
  upper case of x, capitalises every part after the first, joins the parts
  and capitalises the result after the method. `\w` is ASCII, so the case
  mappings of the regular expressions are ASCII ones.
 */
module OpenApiOperationIds {
  import opened Wrappers
  import opened Text
  import opened Json
  import opened OpenApiTree

  /** `\w`: an ASCII letter, digit or underscore. */
  predicate IsWordChar(c: char) {
    ('a' <= c <= 'z') || ('A' <= c <= 'Z') || ('0' <= c <= '9') || c == '_'
  }

  /** `.replace(/^\//, "")`. */
  function StripSlash(s: string): (r: string)
    ensures s != [] && s[0] == '/' ==> r == s[1..]
    ensures !(s != [] && s[0] == '/') ==> r == s
  {
    if s != [] && s[0] == '/' then s[1..] else s
  }

  /** The length of the run of word characters `s` starts with. */
  function WordRun(s: string): (n: nat)
    ensures n <= |s| && (forall i :: 0 <= i < n ==> IsWordChar(s[i])) && (n < |s| ==> !IsWordChar(s[n]))
  {
    if s != [] && IsWordChar(s[0]) then 1 + WordRun(s[1..]) else 0
  }

  /** Whether `s` starts with `{`, a run of word characters and `}`: the run's length. */
  function BracedWord(s: string): (n: nat)
    ensures n > 0 ==> 2 + n <= |s| && s[0] == '{' && s[n + 1] == '}'
    ensures n > 0 ==> forall i :: 1 <= i <= n ==> IsWordChar(s[i])
  {
    if s != [] && s[0] == '{' && WordRun(s[1..]) > 0 && 1 + WordRun(s[1..]) < |s| && s[1 + WordRun(s[1..])] == '}'
    then WordRun(s[1..]) else 0
  }

  /** `.replace(/\{(\w+)\}/g, (_, param) => param.toLowerCase())`, scanning left to right. */
  function LowerParams(s: string): (r: string)
    ensures |r| <= |s|
    ensures (forall i :: 0 <= i < |s| ==> s[i] != '{') ==> r == s
    decreases |s|
  {
    if s == [] then []
    else if BracedWord(s) > 0 then
      var n := BracedWord(s);
      Lower(s[1..n + 1]) + LowerParams(s[n + 2..])
    else [s[0]] + LowerParams(s[1..])
  }

  /** `.split("/")`. */
  function Split(s: string): (r: seq<string>)
    ensures |r| >= 1
    ensures forall i, j :: 0 <= i < |r| && 0 <= j < |r[i]| ==> r[i][j] != '/'
    decreases |s|
  {
    if s == [] then [""]
    else
      var rest := Split(s[1..]);
      if s[0] == '/' then [""] + rest else [[s[0]] + rest[0]] + rest[1..]
  }

  /** `part.replace(/_(\w)/g, (_, c) => c.toUpperCase())`. */
  function Camel(s: string): (r: string)
    ensures |r| <= |s|
    ensures (forall i :: 0 <= i < |s| ==> s[i] != '_') ==> r == s
    ensures (forall i :: 0 <= i < |s| ==> s[i] != '/') ==> forall i :: 0 <= i < |r| ==> r[i] != '/'
    decreases |s|
  {
    if |s| >= 2 && s[0] == '_' && IsWordChar(s[1]) then [UpperChar(s[1])] + Camel(s[2..])
    else if s == [] then []
    else [s[0]] + Camel(s[1..])
  }

  /** `s.charAt(0).toUpperCase() + s.slice(1)`. */
  function Capitalize(s: string): (r: string)
    ensures |r| == |s|
    ensures s != [] ==> r[0] == UpperChar(s[0]) && r[1..] == s[1..]
  {
    if s == [] then [] else [UpperChar(s[0])] + s[1..]
  }

  /** The parts after the first, camel-cased, capitalised and joined. */
  function CapitalizedParts(parts: seq<string>): (r: string)
    ensures (forall i, j :: 0 <= i < |parts| && 0 <= j < |parts[i]| ==> parts[i][j] != '/') ==>
      forall j :: 0 <= j < |r| ==> r[j] != '/'
    decreases |parts|
  {
    if parts == [] then "" else Capitalize(Camel(parts[0])) + CapitalizedParts(parts[1..])
  }

  /** The operationId generated for `verb` on the path `pathName`. */
  function OperationId(verb: string, pathName: string): (r: string)
    ensures |r| >= |verb| && r[..|verb|] == verb
  {
    var parts := Split(LowerParams(StripSlash(pathName)));
    verb + Capitalize(Camel(parts[0]) + CapitalizedParts(parts[1..]))
  }

  /** A text with none of the characters "/", "{" and "_". */
  predicate Plain(a: string) {
    forall i :: 0 <= i < |a| ==> a[i] != '/' && a[i] != '{' && a[i] != '_'
  }

  /**
    The shape of the paths of the API: `/a/b/{c}` gives the method, then
    A, B and the lower-cased c, each with its first letter in upper case.
   */
  lemma ParameterPathId(verb: string, a: string, b: string, c: string)
    requires a != [] && Plain(a) && Plain(b)
    requires c != [] && forall i :: 0 <= i < |c| ==> IsWordChar(c[i]) && c[i] != '_'
    ensures OperationId(verb, "/" + a + "/" + b + "/{" + c + "}") ==
      verb + (Capitalize(a) + Capitalize(b) + Capitalize(Lower(c)))
  {
    ParameterPathParts(a, b, c);
    IdOfParts(verb, "/" + a + "/" + b + "/{" + c + "}", a, b, Lower(c));
  }

  /** A path whose parts are a, b and c, none with "_", gives the method and each part capitalised. */
  lemma IdOfParts(verb: string, path: string, a: string, b: string, c: string)
    requires a != [] && Plain(a) && Plain(b) && Plain(c)
    requires Split(LowerParams(StripSlash(path))) == [a, b, c]
    ensures OperationId(verb, path) == verb + (Capitalize(a) + Capitalize(b) + Capitalize(c))
  {
    var parts := Split(LowerParams(StripSlash(path)));
    assert parts[0] == a && parts[1..] == [b, c];
    ThreePartsId(a, b, c);
  }

  /** `/a/b/{c}` splits into a, b and the lower-cased c. */
  lemma ParameterPathParts(a: string, b: string, c: string)
    requires Plain(a) && Plain(b)
    requires c != [] && forall i :: 0 <= i < |c| ==> IsWordChar(c[i]) && c[i] != '_'
    ensures Split(LowerParams(StripSlash("/" + a + "/" + b + "/{" + c + "}"))) == [a, b, Lower(c)]
    ensures Plain(Lower(c))
  {
    LoweredPath(a, b, c);
    var lc := Lower(c);
    LowerIsPlain(c);
    SplitAt(a, b + "/" + lc);
    SplitAt(b, lc);
    SplitPlain(lc);
    assert a + "/" + (b + "/" + lc) == a + "/" + b + "/" + lc;
  }

  /** Lower-casing a word without "_" keeps it plain. */
  lemma LowerIsPlain(c: string)
    requires forall i :: 0 <= i < |c| ==> IsWordChar(c[i]) && c[i] != '_'
    ensures Plain(Lower(c))
  {
    var lc := Lower(c);
    forall i | 0 <= i < |lc| ensures lc[i] != '/' && lc[i] != '{' && lc[i] != '_' {
      assert lc[i] == LowerChar(c[i]);
    }
  }

  /** `/a/b/{c}` loses its slash and its braces, and c is lower-cased. */
  lemma LoweredPath(a: string, b: string, c: string)
    requires Plain(a) && Plain(b)
    requires c != [] && forall i :: 0 <= i < |c| ==> IsWordChar(c[i])
    ensures LowerParams(StripSlash("/" + a + "/" + b + "/{" + c + "}")) == a + "/" + (b + "/" + Lower(c))
  {
    var head := a + "/" + b + "/";
    assert StripSlash("/" + a + "/" + b + "/{" + c + "}") == head + ("{" + c + "}" + "");
    HeadHasNoBrace(a, b);
    BracedAfterPlain(head, c);
    assert head + Lower(c) == a + "/" + (b + "/" + Lower(c));
  }

  lemma BracedAfterPlain(head: string, c: string)
    requires forall i :: 0 <= i < |head| ==> head[i] != '{'
    requires c != [] && forall i :: 0 <= i < |c| ==> IsWordChar(c[i])
    ensures LowerParams(head + ("{" + c + "}" + "")) == head + Lower(c)
  {
    LowerParamsPlain(head, "{" + c + "}" + "");
    BracedIsLowered(c, "");
    assert Lower(c) + LowerParams("") == Lower(c);
  }

  lemma HeadHasNoBrace(a: string, b: string)
    requires Plain(a) && Plain(b)
    ensures forall i :: 0 <= i < |a + "/" + b + "/"| ==> (a + "/" + b + "/")[i] != '{'
  {
    var head := a + "/" + b + "/";
    forall i | 0 <= i < |head| ensures head[i] != '{' {
      if i < |a| { assert head[i] == a[i]; }
      else if |a| < i < |a| + 1 + |b| { assert head[i] == b[i - |a| - 1]; }
    }
  }

  /** The three parts a, b and c, none with "_", give each part capitalised. */
  lemma ThreePartsId(a: string, b: string, c: string)
    requires a != [] && Plain(a) && Plain(b) && Plain(c)
    ensures Capitalize(Camel(a) + CapitalizedParts([b, c])) == Capitalize(a) + Capitalize(b) + Capitalize(c)
  {
    CamelPlain(a);
    TwoParts(b, c);
    CapitalizeHead(a, Capitalize(b) + Capitalize(c));
  }

  lemma TwoParts(b: string, c: string)
    requires Plain(b) && Plain(c)
    ensures CapitalizedParts([b, c]) == Capitalize(b) + Capitalize(c)
  {
    CamelPlain(b);
    CamelPlain(c);
    assert [b, c][0] == b && [b, c][1..] == [c] && [c][0] == c && [c][1..] == [];
    assert CapitalizedParts([c]) == Capitalize(c) + CapitalizedParts([]);
    assert CapitalizedParts([b, c]) == Capitalize(b) + CapitalizedParts([c]);
  }

  /** Capitalising touches only the first character. */
  lemma CapitalizeHead(a: string, t: string)
    requires a != []
    ensures Capitalize(a + t) == Capitalize(a) + t
  {
    assert (a + t)[1..] == a[1..] + t;
  }

  /** The example the source documents: `GET /v1/workouts/{workoutId}`. */
  lemma OperationIdExample(a: string, b: string, c: string)
    requires a == "v1" && b == "workouts" && c == "workoutId"
    ensures OperationId("get", "/" + a + "/" + b + "/{" + c + "}") == "get" + ("V1" + "Workouts" + "Workoutid")
  {
    ParameterPathId("get", a, b, c);
    CapitalizeFirst(a, "V1");
    CapitalizeFirst(b, "Workouts");
    LowerCapitals(c, "workoutid");
    CapitalizeFirst(Lower(c), "Workoutid");
  }

  /** Capitalising a text that starts with a lower-case ASCII letter shifts that letter by 32 and keeps the rest. */
  lemma CapitalizeFirst(x: string, y: string)
    requires x != [] && y != [] && 'a' <= x[0] <= 'z'
    requires y[0] as int == x[0] as int - 32 && y[1..] == x[1..]
    ensures Capitalize(x) == y
  {
  }

  /** Lower-casing shifts each upper-case ASCII letter by 32 and keeps every other character. */
  lemma LowerCapitals(c: string, d: string)
    requires |c| == |d|
    requires forall i :: 0 <= i < |c| ==> if 'A' <= c[i] <= 'Z' then d[i] as int == c[i] as int + 32 else d[i] == c[i]
    ensures Lower(c) == d
  {
  }

  /** A text without "/" is one part. */
  lemma {:induction false} SplitPlain(a: string)
    requires forall i :: 0 <= i < |a| ==> a[i] != '/'
    ensures Split(a) == [a]
    decreases |a|
  {
    if a != [] {
      SplitPlain(a[1..]);
      assert [a[0]] + a[1..] == a;
    }
  }

  /** A text without "/" before the first "/" is the first part. */
  lemma {:induction false} SplitAt(a: string, b: string)
    requires forall i :: 0 <= i < |a| ==> a[i] != '/'
    ensures Split(a + "/" + b) == [a] + Split(b)
    decreases |a|
  {
    if a == [] {
      assert a + "/" + b == "/" + b;
      assert ("/" + b)[1..] == b;
    } else {
      assert (a + "/" + b)[1..] == a[1..] + "/" + b;
      SplitAt(a[1..], b);
      assert [a[0]] + a[1..] == a;
    }
  }

  /** A part without "_" is not changed by camel-casing. */
  lemma {:induction false} CamelPlain(a: string)
    requires forall i :: 0 <= i < |a| ==> a[i] != '_'
    ensures Camel(a) == a
    decreases |a|
  {
    if a != [] {
      CamelPlain(a[1..]);
    }
  }

  /** A text with no `{` is left as it is before a braced word. */
  lemma {:induction false} LowerParamsPlain(a: string, b: string)
    requires forall i :: 0 <= i < |a| ==> a[i] != '{'
    ensures LowerParams(a + b) == a + LowerParams(b)
    decreases |a|
  {
    if a != [] {
      assert (a + b)[1..] == a[1..] + b;
      LowerParamsPlain(a[1..], b);
    } else {
      assert a + b == b;
    }
  }

  /** A braced parameter name loses its braces and is lower-cased. */
  lemma BracedIsLowered(w: string, rest: string)
    requires w != [] && forall i :: 0 <= i < |w| ==> IsWordChar(w[i])
    ensures LowerParams("{" + w + "}" + rest) == Lower(w) + LowerParams(rest)
  {
    var s := "{" + w + "}" + rest;
    assert s[1..][..|w|] == w && s[1..][|w|] == '}';
    WordRunOfWord(w, "}" + rest);
    assert s[1..] == w + ("}" + rest);
    assert BracedWord(s) == |w|;
    assert s[1..|w| + 1] == w && s[|w| + 2..] == rest;
  }

  lemma {:induction false} WordRunOfWord(w: string, rest: string)
    requires forall i :: 0 <= i < |w| ==> IsWordChar(w[i])
    requires rest != [] && !IsWordChar(rest[0])
    ensures WordRun(w + rest) == |w|
    decreases |w|
  {
    if w == [] {
      assert w + rest == rest;
    } else {
      assert (w + rest)[1..] == w[1..] + rest;
      WordRunOfWord(w[1..], rest);
    }
  }

  /** `_x` becomes the upper case of x. */
  lemma UnderscoreIsCapitalized(c: char, rest: string)
    requires IsWordChar(c)
    ensures Camel(['_', c] + rest) == [UpperChar(c)] + Camel(rest)
  {
    assert (['_', c] + rest)[2..] == rest;
  }

  /** Splitting and joining again with "/" gives the text back. */
  lemma {:induction false} SplitJoin(s: string)
    ensures Join(Split(s), "/") == s
    decreases |s|
  {
    if s != [] {
      SplitJoin(s[1..]);
      var rest := Split(s[1..]);
      if s[0] == '/' {
        JoinCons("", rest, "/");
        assert s == "/" + s[1..];
      } else {
        JoinPrepend(s[0], rest, "/");
        assert s == [s[0]] + s[1..];
      }
    }
  }

  /** A character put before the first part is put before the joined text. */
  lemma JoinPrepend(c: char, ps: seq<string>, sep: string)
    requires |ps| >= 1
    ensures Join([[c] + ps[0]] + ps[1..], sep) == [c] + Join(ps, sep)
  {
    JoinCons([c] + ps[0], ps[1..], sep);
    JoinCons(ps[0], ps[1..], sep);
    assert ps == [ps[0]] + ps[1..];
    if ps[1..] != [] {
      assert [c] + ps[0] + sep + Join(ps[1..], sep) == [c] + (ps[0] + sep + Join(ps[1..], sep));
    }
  }

  /** Joining a first part and the rest. */
  lemma JoinCons(p: string, ps: seq<string>, sep: string)
    ensures Join([p] + ps, sep) == if ps == [] then p else p + sep + Join(ps, sep)
  {
    if ps != [] {
      assert ([p] + ps)[1..] == ps;
    }
  }

  /** An operationId is the method followed by text without a "/". */
  lemma OperationIdShape(verb: string, pathName: string)
    ensures var id := OperationId(verb, pathName);
      |id| >= |verb| && id[..|verb|] == verb && forall j :: |verb| <= j < |id| ==> id[j] != '/'
  {
    var parts := Split(LowerParams(StripSlash(pathName)));
    var body := Camel(parts[0]) + CapitalizedParts(parts[1..]);
    var tail := Capitalize(body);
    assert forall j :: 0 <= j < |tail| ==> tail[j] != '/';
    var id := OperationId(verb, pathName);
    assert id == verb + tail;
    assert forall j :: |verb| <= j < |id| ==> id[j] == tail[j - |verb|];
  }

  /** An operation the loop skips: absent or falsy, or carrying a truthy `operationId`. */
  predicate Skipped(op: Option<Json>) {
    op.None? || !Truthy(op.value) || (op.value.Obj? && TruthyAt(op.value.members, "operationId"))
  }

  /** One method of a path item: `operation.operationId = ...` unless the operation is skipped. */
  function IdAssigned(ms: seq<Member>, verb: string, pathName: string): (r: Result<seq<Member>>)
    ensures Skipped(Get(ms, verb)) ==> r == Success(ms)
    ensures !Skipped(Get(ms, verb)) && Get(ms, verb).value.Obj? ==>
      r == Success(Put(ms, verb, Obj(Put(Get(ms, verb).value.members, "operationId", Str(OperationId(verb, pathName))))))
    ensures !Skipped(Get(ms, verb)) && Get(ms, verb).value.Arr? ==> r == Success(ms)
    ensures !Skipped(Get(ms, verb)) && IsPrimitive(Get(ms, verb).value) ==>
      r == Failure(CannotCreate("operationId", Get(ms, verb).value))
    ensures r.Success? ==> forall k :: k != verb ==> Get(r.value, k) == Get(ms, k)
  {
    var op := Get(ms, verb);
    if Skipped(op) then Success(ms)
    else if op.value.Obj? then
      Success(Put(ms, verb, Obj(Put(op.value.members, "operationId", Str(OperationId(verb, pathName))))))
    else if op.value.Arr? then Success(ms)
    else Failure(CannotCreate("operationId", op.value))
  }

  /** The methods of a path item's members, first to last. */
  function IdsAssigned(ms: seq<Member>, methods: seq<string>, pathName: string): Result<seq<Member>>
    decreases |methods|
  {
    if methods == [] then Success(ms)
    else
      var next :- IdAssigned(ms, methods[0], pathName);
      IdsAssigned(next, methods[1..], pathName)
  }

  /** The methods of the loop, each once. */
  predicate Distinct(xs: seq<string>) {
    forall i, j :: 0 <= i < j < |xs| ==> xs[i] != xs[j]
  }

  /** What one step does at its method depends only on the operation found there. */
  lemma IdAssignedLocal(ms: seq<Member>, ns: seq<Member>, verb: string, pathName: string)
    requires Get(ms, verb) == Get(ns, verb)
    ensures IdAssigned(ms, verb, pathName).Success? == IdAssigned(ns, verb, pathName).Success?
    ensures IdAssigned(ms, verb, pathName).Success? ==>
      Get(IdAssigned(ms, verb, pathName).value, verb) == Get(IdAssigned(ns, verb, pathName).value, verb)
  {
  }

  /**
    After the loop over distinct methods, the operation of each visited method
    is what its own step makes of the operation it had, and every other member
    is as it was; a step that throws makes the whole loop throw.
   */
  lemma {:induction false} IdsAssignedAt(ms: seq<Member>, methods: seq<string>, pathName: string, m: string)
    requires Distinct(methods)
    ensures IdsAssigned(ms, methods, pathName).Success? && m in methods ==>
      && IdAssigned(ms, m, pathName).Success?
      && Get(IdsAssigned(ms, methods, pathName).value, m) == Get(IdAssigned(ms, m, pathName).value, m)
    ensures IdsAssigned(ms, methods, pathName).Success? && m !in methods ==>
      Get(IdsAssigned(ms, methods, pathName).value, m) == Get(ms, m)
    ensures m in methods && IdAssigned(ms, m, pathName).Failure? ==> IdsAssigned(ms, methods, pathName).Failure?
    decreases |methods|
  {
    if methods != [] {
      var v := methods[0];
      if IdAssigned(ms, v, pathName).Success? {
        var next := IdAssigned(ms, v, pathName).value;
        assert Distinct(methods[1..]);
        IdsAssignedAt(next, methods[1..], pathName, m);
        if m == v {
          assert m !in methods[1..] by {
            forall j | 0 <= j < |methods[1..]| ensures methods[1..][j] != m {
              assert methods[1..][j] == methods[j + 1];
            }
          }
        } else {
          assert m in methods ==> m in methods[1..] by {
            if m in methods {
              var j :| 0 <= j < |methods| && methods[j] == m;
              assert methods[1..][j - 1] == m;
            }
          }
          IdAssignedLocal(next, ms, m, pathName);
        }
      }
    }
  }

  /** The loop completes when every step on the operations it started with does. */
  lemma {:induction false} IdsAssignedSucceeds(ms: seq<Member>, methods: seq<string>, pathName: string)
    requires Distinct(methods)
    requires forall i :: 0 <= i < |methods| ==> IdAssigned(ms, methods[i], pathName).Success?
    ensures IdsAssigned(ms, methods, pathName).Success?
    decreases |methods|
  {
    if methods != [] {
      var next := IdAssigned(ms, methods[0], pathName).value;
      forall i | 0 <= i < |methods[1..]| ensures IdAssigned(next, methods[1..][i], pathName).Success? {
        assert methods[1..][i] == methods[i + 1] != methods[0];
        IdAssignedLocal(next, ms, methods[i + 1], pathName);
      }
      assert Distinct(methods[1..]);
      IdsAssignedSucceeds(next, methods[1..], pathName);
    }
  }

  /** The loop over the five methods, on the path item of `pathName`. */
  function PathItemIds(pathName: string, item: Json): (r: Result<Json>)
    ensures item.Null? ==> r == Failure(NullRead("get"))
    ensures !item.Null? && !item.Obj? ==> r == Success(item)
    ensures r.Success? && item.Obj? ==> r.value.Obj?
  {
    match item
    case Null => Failure(NullRead("get"))
    case Obj(ms) =>
      var withIds :- IdsAssigned(ms, Methods, pathName);
      Success(Obj(withIds))
    case _ => Success(item)
  }

  /** The path items of `paths`, each with its own path name. */
  function IdSteps(paths: Json): (r: seq<Result<Json>>)
    ensures |r| == |Children(paths)|
    ensures forall i :: 0 <= i < |r| ==> r[i] == PathItemIds(EntryKeys(paths)[i], Children(paths)[i])
  {
    var names, items := EntryKeys(paths), Children(paths);
    seq(|items|, i requires 0 <= i < |items| => PathItemIds(names[i], items[i]))
  }

  /** generateOperationIds on `paths`. */
  function PathsIds(paths: Json): (r: Result<Json>)
    ensures r.Success? ==> Truthy(r.value) == Truthy(paths)
  {
    var withIds :- Collect(IdSteps(paths));
    Success(WithChildren(paths, withIds))
  }

  lemma MethodsDistinct()
    ensures Distinct(Methods)
  {
  }

  /**
    The outcome for one operation of a path item: one without a truthy
    `operationId` receives the id of its method and path, and every other
    one is left as it was.
   */
  lemma OperationIdGenerated(paths: Json, i: nat, verb: string)
    requires PathsIds(paths).Success? && verb in Methods
    requires i < |Children(paths)| && Children(paths)[i].Obj?
    ensures var op := Get(Children(paths)[i].members, verb);
      var after := Get(Children(PathsIds(paths).value)[i].members, verb);
      && (Skipped(op) || op.value.Arr? ==> after == op)
      && (!Skipped(op) && op.value.Obj? ==>
            after == Some(Obj(Put(op.value.members, "operationId", Str(OperationId(verb, EntryKeys(paths)[i]))))))
      && !(!Skipped(op) && IsPrimitive(op.value))
  {
    var cs, ks := Children(paths), EntryKeys(paths);
    var withIds := Collect(IdSteps(paths)).value;
    assert Children(PathsIds(paths).value)[i] == withIds[i];
    assert withIds[i] == PathItemIds(ks[i], cs[i]).value;
    MethodsDistinct();
    IdsAssignedAt(cs[i].members, Methods, ks[i], verb);
  }

  /**
    generateOperationIds throws exactly when a path item is `null` or an
    operation without a truthy `operationId` is a primitive.
   */
  lemma PathItemIdsFails(pathName: string, item: Json)
    ensures PathItemIds(pathName, item).Success? <==>
      && !item.Null?
      && (item.Obj? ==> forall i :: 0 <= i < |Methods| ==>
            !(!Skipped(Get(item.members, Methods[i])) && IsPrimitive(Get(item.members, Methods[i]).value)))
  {
    if item.Obj? {
      MethodsDistinct();
      if forall i :: 0 <= i < |Methods| ==> IdAssigned(item.members, Methods[i], pathName).Success? {
        IdsAssignedSucceeds(item.members, Methods, pathName);
      }
      forall i | 0 <= i < |Methods| && !Skipped(Get(item.members, Methods[i])) && IsPrimitive(Get(item.members, Methods[i]).value)
        ensures IdsAssigned(item.members, Methods, pathName).Failure?
      {
        IdsAssignedAt(item.members, Methods, pathName, Methods[i]);
      }
    }
  }

  /** The loop over the five methods of one path item. */
  method AssignOperationIds(pathName: string, item: Json) returns (r: Result<Json>)
    ensures r == PathItemIds(pathName, item)
  {
    if item.Null? {
      return Failure(NullRead("get"));
    } else if !item.Obj? {
      return Success(item);
    }
    var ms := item.members;
    var k := 0;
    while k < |Methods|
      invariant 0 <= k <= |Methods|
      invariant IdsAssigned(item.members, Methods, pathName) == IdsAssigned(ms, Methods[k..], pathName)
    {
      var verb := Methods[k];
      var op := Get(ms, verb);
      if !Skipped(op) {
        if op.value.Obj? {
          ms := Put(ms, verb, Obj(Put(op.value.members, "operationId", Str(OperationId(verb, pathName)))));
        } else if !op.value.Arr? {
          return Failure(CannotCreate("operationId", op.value));
        }
      }
      k := k + 1;
    }
    return Success(Obj(ms));
  }

  /** generateOperationIds: the loop over the entries of `paths`. */
  method GenerateOperationIds(paths: Json) returns (r: Result<Json>)
    ensures r == PathsIds(paths)
  {
    var cs := Children(paths);
    ghost var rs := IdSteps(paths);
    var values: seq<Json> := [];
    var i := 0;
    while i < |cs|
      invariant 0 <= i <= |cs|
      invariant Collect(rs[..i]) == Success(values)
    {
      var f := AssignEntryIds(paths, i);
      if f.Failure? {
        CollectStopsAt(rs, i, |cs|);
        assert rs[..|cs|] == rs;
        return Failure(f.error);
      }
      CollectStep(rs, i, values);
      values := values + [f.value];
      i := i + 1;
    }
    assert rs[..|cs|] == rs;
    return Success(WithChildren(paths, values));
  }

  /** The step of the loop over the entries of `paths` at entry `i`. */
  method AssignEntryIds(paths: Json, i: nat) returns (r: Result<Json>)
    requires i < |Children(paths)|
    ensures r == IdSteps(paths)[i]
  {
    r := AssignOperationIds(EntryKeys(paths)[i], Children(paths)[i]);
  }
}
