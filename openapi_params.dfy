/**
  fixMissingParameterSchemas (scripts/openapi-spec.js): every parameter of
  the five operations of every path item that has neither a truthy `schema`
  nor a truthy `content` gets `{type: "string", format: "uuid"}` when it is
  a header parameter and `{type: "string"}` otherwise.

  The script runs in strict mode, so the TypeErrors it raises are part of
  the model: reading an operation of a null path item, reading `schema` of
  a null parameter, iterating a `parameters` value that is not iterable,
  and assigning `schema` on a primitive parameter. A string `parameters`
  is iterated one character at a time, and its first character already
  cannot take a property. A parameter that is an array takes the property,
  which JSON does not keep, so it is left as it was.
 */
module OpenApiParams {
  import opened Wrappers
  import opened Json
  import opened OpenApiTree

  /** `{ type: "string", format: "uuid" }` for a header, `{ type: "string" }` for anything else. */
  function DefaultSchema(header: bool): (r: Json)
    ensures r.Obj? && Get(r.members, "type") == Some(Str("string"))
    ensures Get(r.members, "format") == (if header then Some(Str("uuid")) else None)
  {
    if header then Obj([Member("type", Str("string")), Member("format", Str("uuid"))])
    else Obj([Member("type", Str("string"))])
  }

  /** `param.in === "header"`. */
  predicate IsHeader(ms: seq<Member>) {
    Get(ms, "in") == Some(Str("header"))
  }

  /** A parameter with neither a truthy `schema` nor a truthy `content`. */
  predicate LacksSchema(p: Json) {
    p.Obj? && !TruthyAt(p.members, "schema") && !TruthyAt(p.members, "content")
  }

  /** The body of the loop over the parameters, on one parameter. */
  function ParamFixed(p: Json): (r: Result<Json>)
    ensures p.Null? ==> r == Failure(NullRead("schema"))
    ensures (p.Bool? || p.Num? || p.Str?) ==> r == Failure(CannotCreate("schema", p))
    ensures LacksSchema(p) ==>
      && r.Success? && r.value.Obj?
      && Get(r.value.members, "schema") == Some(DefaultSchema(IsHeader(p.members)))
      && forall k :: k != "schema" ==> Get(r.value.members, k) == Get(p.members, k)
    ensures (p.Arr? || (p.Obj? && !LacksSchema(p))) ==> r == Success(p)
  {
    match p
    case Null => Failure(NullRead("schema"))
    case Obj(ms) =>
      if LacksSchema(p) then Success(Obj(Put(ms, "schema", DefaultSchema(IsHeader(ms))))) else Success(p)
    case Arr(_) => Success(p)
    case _ => Failure(CannotCreate("schema", p))
  }

  /** The parameters, each fixed. */
  function ParamSteps(es: seq<Json>): (r: seq<Result<Json>>)
    ensures |r| == |es| && forall i :: 0 <= i < |es| ==> r[i] == ParamFixed(es[i])
  {
    seq(|es|, i requires 0 <= i < |es| => ParamFixed(es[i]))
  }

  /** `for (const param of operation.parameters)` over a truthy value. */
  function ParamsFixed(params: Json): (r: Result<Json>)
    requires Truthy(params)
    ensures params.Arr? && r.Success? ==>
      && r.value.Arr? && |r.value.elems| == |params.elems|
      && forall i :: 0 <= i < |params.elems| ==> ParamFixed(params.elems[i]) == Success(r.value.elems[i])
    ensures params.Arr? ==> (r.Success? <==> forall i :: 0 <= i < |params.elems| ==> ParamFixed(params.elems[i]).Success?)
    ensures params.Str? ==> r == Failure(CannotCreate("schema", Str([params.s[0]])))
    ensures (params.Obj? || params.Num? || params.Bool?) ==> r == Failure(NotIterable("operation.parameters"))
  {
    if params.Arr? then
      var values :- Collect(ParamSteps(params.elems));
      Success(Arr(values))
    else if params.Str? then Failure(CannotCreate("schema", Str([params.s[0]])))
    else Failure(NotIterable("operation.parameters"))
  }

  /** An operation whose parameters the loop visits: an object with truthy `parameters`. */
  predicate HasParameters(op: Option<Json>) {
    op.Some? && op.value.Obj? && TruthyAt(op.value.members, "parameters")
  }

  /** One method of a path item: its operation's `parameters` fixed when it has any. */
  function OperationFixed(ms: seq<Member>, verb: string): (r: Result<seq<Member>>)
    ensures !HasParameters(Get(ms, verb)) ==> r == Success(ms)
    ensures r.Success? ==> forall k :: k != verb ==> Get(r.value, k) == Get(ms, k)
  {
    var op := Get(ms, verb);
    if !HasParameters(op) then Success(ms)
    else
      var params :- ParamsFixed(Get(op.value.members, "parameters").value);
      Success(Put(ms, verb, Obj(Put(op.value.members, "parameters", params))))
  }

  /** The methods of a path item's members, first to last. */
  function OperationsFixed(ms: seq<Member>, methods: seq<string>): Result<seq<Member>>
    decreases |methods|
  {
    if methods == [] then Success(ms)
    else
      var next :- OperationFixed(ms, methods[0]);
      OperationsFixed(next, methods[1..])
  }

  /** The loop over the five methods, on one path item. */
  function PathItemFixed(item: Json): (r: Result<Json>)
    ensures item.Null? ==> r == Failure(NullRead("get"))
    ensures !item.Null? && !item.Obj? ==> r == Success(item)
    ensures r.Success? && item.Obj? ==> r.value.Obj?
  {
    match item
    case Null => Failure(NullRead("get"))
    case Obj(ms) =>
      var fixed :- OperationsFixed(ms, Methods);
      Success(Obj(fixed))
    case _ => Success(item)
  }

  /** The path items, each fixed. */
  function PathSteps(cs: seq<Json>): (r: seq<Result<Json>>)
    ensures |r| == |cs| && forall i :: 0 <= i < |cs| ==> r[i] == PathItemFixed(cs[i])
  {
    seq(|cs|, i requires 0 <= i < |cs| => PathItemFixed(cs[i]))
  }

  /** fixMissingParameterSchemas on `paths`. */
  function PathsFixed(paths: Json): (r: Result<Json>)
    ensures r.Success? ==> Truthy(r.value) == Truthy(paths)
  {
    var fixed :- Collect(PathSteps(Children(paths)));
    Success(WithChildren(paths, fixed))
  }

  /** Every parameter the loop reaches has a truthy `schema` or `content` afterwards. */
  predicate ParamsHaveSchemas(params: Json) {
    params.Arr? ==> forall i :: 0 <= i < |params.elems| ==> !LacksSchema(params.elems[i])
  }

  /** The `parameters` of the operation under `verb`, if it has any, have schemas. */
  predicate OperationHasSchemas(ms: seq<Member>, verb: string) {
    HasParameters(Get(ms, verb)) ==> ParamsHaveSchemas(Get(Get(ms, verb).value.members, "parameters").value)
  }

  /** A fixed parameter list leaves no parameter without a schema. */
  lemma ParamsFixedHaveSchemas(params: Json)
    requires Truthy(params) && ParamsFixed(params).Success?
    ensures ParamsHaveSchemas(ParamsFixed(params).value)
  {
    var r := ParamsFixed(params).value;
    forall i | 0 <= i < |r.elems| ensures !LacksSchema(r.elems[i]) {
      var p := params.elems[i];
      assert ParamFixed(p) == Success(r.elems[i]);
      if LacksSchema(p) {
        assert Truthy(DefaultSchema(IsHeader(p.members)));
      }
    }
  }

  /** Fixing one method gives its operation schemas and keeps those of the others. */
  lemma OperationFixedSchemas(ms: seq<Member>, verb: string, m: string)
    requires OperationFixed(ms, verb).Success?
    requires m == verb || OperationHasSchemas(ms, m)
    ensures OperationHasSchemas(OperationFixed(ms, verb).value, m)
  {
    var r := OperationFixed(ms, verb).value;
    var op := Get(ms, verb);
    if m == verb && HasParameters(op) {
      var params := Get(op.value.members, "parameters").value;
      ParamsFixedHaveSchemas(params);
      var fixed := ParamsFixed(params).value;
      assert Get(r, verb) == Some(Obj(Put(op.value.members, "parameters", fixed)));
    }
  }

  /** After the loop over the methods, the operation of each method it visited has schemas. */
  lemma {:induction false} OperationsFixedSchemas(ms: seq<Member>, methods: seq<string>, m: string)
    requires OperationsFixed(ms, methods).Success?
    requires m in methods || OperationHasSchemas(ms, m)
    ensures OperationHasSchemas(OperationsFixed(ms, methods).value, m)
    decreases |methods|
  {
    if methods != [] {
      var next := OperationFixed(ms, methods[0]).value;
      if m == methods[0] || OperationHasSchemas(ms, m) {
        OperationFixedSchemas(ms, methods[0], m);
      }
      OperationsFixedSchemas(next, methods[1..], m);
    }
  }

  /** After fixMissingParameterSchemas every parameter of every operation it visits has a schema. */
  lemma PathsFixedHaveSchemas(paths: Json, i: nat, verb: string)
    requires PathsFixed(paths).Success? && verb in Methods
    requires i < |Children(PathsFixed(paths).value)| && Children(PathsFixed(paths).value)[i].Obj?
    ensures OperationHasSchemas(Children(PathsFixed(paths).value)[i].members, verb)
  {
    var cs := Children(paths);
    var fixed := Collect(PathSteps(cs)).value;
    assert Children(PathsFixed(paths).value)[i] == fixed[i];
    assert fixed[i] == PathItemFixed(cs[i]).value;
    OperationsFixedSchemas(cs[i].members, Methods, verb);
  }

  /** The body of one step of the loop over the parameters. */
  method FixParameter(p: Json) returns (r: Result<Json>)
    ensures r == ParamFixed(p)
  {
    match p {
      case Null => r := Failure(NullRead("schema"));
      case Obj(ms) =>
        if !TruthyAt(ms, "schema") && !TruthyAt(ms, "content") {
          if IsHeader(ms) {
            r := Success(Obj(Put(ms, "schema", DefaultSchema(true))));
          } else {
            r := Success(Obj(Put(ms, "schema", DefaultSchema(false))));
          }
        } else {
          r := Success(p);
        }
      case Arr(_) => r := Success(p);
      case _ => r := Failure(CannotCreate("schema", p));
    }
  }

  /** `for (const param of operation.parameters)`, stopping at the first TypeError. */
  method FixParameters(params: Json) returns (r: Result<Json>)
    requires Truthy(params)
    ensures r == ParamsFixed(params)
  {
    if params.Str? {
      return Failure(CannotCreate("schema", Str([params.s[0]])));
    } else if !params.Arr? {
      return Failure(NotIterable("operation.parameters"));
    }
    var values := FixParameterList(params.elems);
    if values.Failure? {
      return Failure(values.error);
    }
    return Success(Arr(values.value));
  }

  /** The loop over an array of parameters. */
  method FixParameterList(es: seq<Json>) returns (r: Result<seq<Json>>)
    ensures r == Collect(ParamSteps(es))
  {
    ghost var rs := ParamSteps(es);
    var values: seq<Json> := [];
    var i := 0;
    while i < |es|
      invariant 0 <= i <= |es|
      invariant Collect(rs[..i]) == Success(values)
    {
      var f := FixParameter(es[i]);
      CollectTurn(rs, i, values, f);
      if f.Failure? {
        return Failure(f.error);
      }
      values := values + [f.value];
      i := i + 1;
    }
    assert rs[..|es|] == rs;
    return Success(values);
  }

  /** The parameters of the operation under `verb` fixed, when it has any. */
  method FixOperation(ms: seq<Member>, verb: string) returns (r: Result<seq<Member>>)
    ensures r == OperationFixed(ms, verb)
  {
    var op := Get(ms, verb);
    if !HasParameters(op) {
      return Success(ms);
    }
    var params := FixParameters(Get(op.value.members, "parameters").value);
    if params.Failure? {
      return Failure(params.error);
    }
    return Success(Put(ms, verb, Obj(Put(op.value.members, "parameters", params.value))));
  }

  /** The loop over the five methods of one path item. */
  method FixPathItem(item: Json) returns (r: Result<Json>)
    ensures r == PathItemFixed(item)
  {
    if item.Null? {
      return Failure(NullRead("get"));
    } else if !item.Obj? {
      return Success(item);
    }
    var ms := FixOperations(item.members, Methods);
    if ms.Failure? {
      return Failure(ms.error);
    }
    return Success(Obj(ms.value));
  }

  /** `for (const method of methods)` over the members of a path item. */
  method FixOperations(members: seq<Member>, methods: seq<string>) returns (r: Result<seq<Member>>)
    ensures r == OperationsFixed(members, methods)
  {
    var ms := members;
    var k := 0;
    while k < |methods|
      invariant 0 <= k <= |methods|
      invariant OperationsFixed(members, methods) == OperationsFixed(ms, methods[k..])
    {
      var next := FixOperation(ms, methods[k]);
      assert methods[k..][1..] == methods[k + 1..];
      if next.Failure? {
        return Failure(next.error);
      }
      ms := next.value;
      k := k + 1;
    }
    return Success(ms);
  }

  /** fixMissingParameterSchemas: the loop over the entries of `paths`. */
  method FixMissingParameterSchemas(paths: Json) returns (r: Result<Json>)
    ensures r == PathsFixed(paths)
  {
    var values := FixPathItems(Children(paths));
    if values.Failure? {
      return Failure(values.error);
    }
    return Success(WithChildren(paths, values.value));
  }

  /** The loop over the path items. */
  method FixPathItems(cs: seq<Json>) returns (r: Result<seq<Json>>)
    ensures r == Collect(PathSteps(cs))
  {
    ghost var rs := PathSteps(cs);
    var values: seq<Json> := [];
    var i := 0;
    while i < |cs|
      invariant 0 <= i <= |cs|
      invariant Collect(rs[..i]) == Success(values)
    {
      var f := FixPathItem(cs[i]);
      assert rs[i] == f;
      CollectTurn(rs, i, values, f);
      if f.Failure? {
        return Failure(f.error);
      }
      values := values + [f.value];
      i := i + 1;
    }
    assert rs[..|cs|] == rs;
    return Success(values);
  }
}
