/**
  fixInvalidRequiredProperties and fixSchemaRequired (scripts/openapi-spec.js):
  a property schema carrying the Swagger 2 style `required: true` loses that
  flag, and its name is appended to the enclosing schema's `required` list,
  which is then freed of repeated names. The walk descends into property
  schemas, `items`, the `allOf`/`oneOf`/`anyOf` arrays and
  `additionalProperties`.

  The source checks these members one after the other; each check writes
  only its own member, a parsed object has no repeated keys, and the only
  error the walk can raise is the same wherever it happens, so here every
  member is fixed according to its key, in member order. The deletion
  `delete propSchema.required`, which the caller performs before descending
  into a marked property, is done by the callee when `strip` holds.
 */
module OpenApiRequired {
  import opened Wrappers
  import opened Json
  import opened OpenApiTree

  /** The only error the walk can raise: pushing onto a `required` that is truthy but not an array. */
  const PushNotAFunction := NotAFunction("schema.required.push")

  /** `propSchema && typeof propSchema === "object" && propSchema.required === true`. */
  predicate MarkedRequired(p: Json) {
    p.Obj? && Get(p.members, "required") == Some(Bool(true))
  }

  /** The names of the marked entries among the first n of `props`, in entry order. */
  function MarkedNames(props: Json, n: nat): seq<string>
    requires n <= |Children(props)|
  {
    if n == 0 then []
    else MarkedNames(props, n - 1) + (if MarkedRequired(Children(props)[n - 1]) then [EntryKeys(props)[n - 1]] else [])
  }

  /** The names a schema hoists: those of its marked property schemas, when `properties` is an object. */
  function HoistedNames(schema: Json): seq<string>
    requires schema.Obj?
  {
    var p := Get(schema.members, "properties");
    if p.Some? && IsObject(p.value) then MarkedNames(p.value, |Children(p.value)|) else []
  }

  /** `if (!schema.required) schema.required = []`, push the names, then `[...new Set(schema.required)]`. */
  function AddRequired(ms: seq<Member>, names: seq<string>): (r: Result<seq<Member>>)
    ensures r.Failure? ==> r.error == PushNotAFunction
  {
    var current := Get(ms, "required");
    if current.None? || !Truthy(current.value) then Success(Put(ms, "required", Arr(Dedup(Strs(names)))))
    else if current.value.Arr? then Success(Put(ms, "required", Arr(Dedup(current.value.elems + Strs(names)))))
    else Failure(PushNotAFunction)
  }

  /**
    fixSchemaRequired on `schema`, deleting its own `required` first when
    `strip` holds. Values that are not objects are left alone (an array is
    searched for `properties`, `items` and the keywords, and has none).
   */
  function FixSchema(schema: Json, strip: bool): (r: Result<Json>)
    ensures r.Failure? ==> r.error == PushNotAFunction
    ensures r.Success? && !schema.Obj? ==> r.value == schema
    ensures r.Success? && schema.Obj? ==> r.value.Obj?
    decreases schema, 1, 0
  {
    if !schema.Obj? then Success(schema)
    else
      var fixed :- FixedMembers(schema);
      var ms :- Finish(schema, fixed, strip);
      Success(Obj(ms))
  }

  /** The last step of fixSchemaRequired on an object: deleting its flag and hoisting the names. */
  function Finish(schema: Json, fixed: seq<Member>, strip: bool): (r: Result<seq<Member>>)
    requires schema.Obj?
    ensures r.Failure? ==> r.error == PushNotAFunction
  {
    var kept := if strip then Remove(fixed, "required") else fixed;
    var names := HoistedNames(schema);
    if names == [] then Success(kept) else AddRequired(kept, names)
  }

  /** The members of `schema`, each fixed according to its key, in order. */
  function FixedMembers(schema: Json): (r: Result<seq<Member>>)
    requires schema.Obj?
    ensures r.Failure? ==> r.error == PushNotAFunction
    decreases schema, 0, 0
  {
    var ms := schema.members;
    var values :- Collect(seq(|ms|, i requires 0 <= i < |ms| => FixMember(ms[i].key, ms[i].value)));
    Success(WithChildren(schema, values).members)
  }

  /** The value of member `key` after the walk: only the five members the walk looks at can change. */
  function FixMember(key: string, v: Json): (r: Result<Json>)
    ensures r.Failure? ==> r.error == PushNotAFunction
    ensures key != "properties" && key != "items" && key !in Keywords && key != "additionalProperties" ==>
      r == Success(v)
    decreases v, 2, 0
  {
    if key == "properties" && IsObject(v) then
      var fixed :- ChildrenFixed(v, |Children(v)|, true);
      Success(WithChildren(v, fixed))
    else if key == "items" && Truthy(v) then FixSchema(v, false)
    else if key in Keywords && v.Arr? then
      var fixed :- ChildrenFixed(v, |v.elems|, false);
      Success(Arr(fixed))
    else if key == "additionalProperties" && IsObject(v) then FixSchema(v, false)
    else Success(v)
  }

  /** The first n entries of `v`, each fixed. */
  function ChildrenFixed(v: Json, n: nat, hoist: bool): (r: Result<seq<Json>>)
    requires n <= |Children(v)|
    ensures r.Failure? ==> r.error == PushNotAFunction
    ensures r.Success? ==> |r.value| == n && forall i :: 0 <= i < n ==> FixedChild(v, i, hoist) == Success(r.value[i])
    decreases v, 1, n
  {
    if n == 0 then Success([])
    else
      var init :- ChildrenFixed(v, n - 1, hoist);
      var last :- FixedChild(v, n - 1, hoist);
      var r := init + [last];
      assert forall i :: 0 <= i < n - 1 ==> r[i] == init[i];
      Success(r)
  }

  /** Entry i of `v` fixed; under `hoist` a marked entry is fixed with its flag deleted. */
  function FixedChild(v: Json, i: nat, hoist: bool): (r: Result<Json>)
    requires i < |Children(v)|
    ensures r.Failure? ==> r.error == PushNotAFunction
    decreases v, 1, i
  {
    var c := Children(v)[i];
    FixSchema(c, hoist && MarkedRequired(c))
  }

  /** fixInvalidRequiredProperties: every entry of `components.schemas` is fixed. */
  function AllRequiredFixed(schemas: Json): (r: Result<Json>)
    ensures r.Failure? ==> r.error == PushNotAFunction
  {
    var fixed :- ChildrenFixed(schemas, |Children(schemas)|, false);
    Success(WithChildren(schemas, fixed))
  }

  /** MarkedNames lists exactly the keys of the marked entries. */
  lemma {:induction false} MarkedNamesExact(props: Json, n: nat)
    requires n <= |Children(props)|
    ensures forall k :: k in MarkedNames(props, n) <==>
      exists i :: 0 <= i < n && MarkedRequired(Children(props)[i]) && EntryKeys(props)[i] == k
  {
    if n > 0 {
      MarkedNamesExact(props, n - 1);
    }
  }

  /** No property schema anywhere the walk reaches in `j` says `required: true`. */
  predicate Clean(j: Json)
    decreases j, 2
  {
    j.Obj? ==> forall i :: 0 <= i < |j.members| ==> MemberClean(j.members[i].key, j.members[i].value)
  }

  /** The member `key: v` of a clean schema. */
  predicate MemberClean(key: string, v: Json)
    decreases v, 3
  {
    && (key == "properties" && IsObject(v) ==> ChildrenClean(v, true))
    && (key == "items" && Truthy(v) ==> Clean(v))
    && (key in Keywords && v.Arr? ==> ChildrenClean(v, false))
    && (key == "additionalProperties" && IsObject(v) ==> Clean(v))
  }

  /** Every entry of `v` is clean and, for a `properties` object, unmarked. */
  predicate ChildrenClean(v: Json, props: bool)
    decreases v, 1
  {
    forall i :: 0 <= i < |Children(v)| ==> (props ==> !MarkedRequired(Children(v)[i])) && Clean(Children(v)[i])
  }

  /** Members that are all clean stay so when some are deleted and a `required` list is written. */
  lemma KeptClean(ms: seq<Member>, kept: seq<Member>, v: Json)
    requires forall i :: 0 <= i < |ms| ==> MemberClean(ms[i].key, ms[i].value)
    requires forall m :: m in kept ==> m in ms || m == Member("required", v)
    ensures forall i :: 0 <= i < |kept| ==> MemberClean(kept[i].key, kept[i].value)
  {
    forall i | 0 <= i < |kept| ensures MemberClean(kept[i].key, kept[i].value) {
      if kept[i] in ms {
        var j :| 0 <= j < |ms| && ms[j] == kept[i];
      }
    }
  }

  /** The `required` the last step finds: none once it was deleted. */
  function RequiredBefore(ms: seq<Member>, strip: bool): Option<Json> {
    if strip then None else Get(ms, "required")
  }

  /** The entries of a `required` that is a list, none otherwise. */
  function ListIn(before: Option<Json>): seq<Json> {
    if before.Some? && before.value.Arr? then before.value.elems else []
  }

  /** What the last step does to the members: only `required` can change, and only to a list. */
  lemma FinishReads(s: Json, fixed: seq<Member>, strip: bool)
    requires s.Obj? && Finish(s, fixed, strip).Success?
    ensures forall k :: k != "required" ==> Get(Finish(s, fixed, strip).value, k) == Get(fixed, k)
    ensures forall m :: m in Finish(s, fixed, strip).value ==> m in fixed || (m.key == "required" && m.value.Arr?)
    ensures HoistedNames(s) == [] ==> Get(Finish(s, fixed, strip).value, "required") == RequiredBefore(fixed, strip)
    ensures HoistedNames(s) != [] ==>
      (RequiredBefore(fixed, strip).None? || !Truthy(RequiredBefore(fixed, strip).value) || RequiredBefore(fixed, strip).value.Arr?)
      && Get(Finish(s, fixed, strip).value, "required") ==
           Some(Arr(Dedup(ListIn(RequiredBefore(fixed, strip)) + Strs(HoistedNames(s)))))
  {
    var kept := if strip then Remove(fixed, "required") else fixed;
    RemoveMembers(fixed, "required");
    var names := HoistedNames(s);
    if names != [] {
      var before := RequiredBefore(fixed, strip);
      assert Get(kept, "required") == before;
      if before.None? || !Truthy(before.value) {
        assert ListIn(before) + Strs(names) == Strs(names);
      }
      var req := Arr(Dedup(ListIn(before) + Strs(names)));
      assert AddRequired(kept, names) == Success(Put(kept, "required", req));
      PutMembers(kept, "required", req);
    }
  }

  /** The last step throws when names are to be pushed onto a truthy `required` that is not a list. */
  lemma FinishFails(s: Json, fixed: seq<Member>)
    requires s.Obj? && HoistedNames(s) != []
    requires Get(fixed, "required").Some? && Truthy(Get(fixed, "required").value)
    requires !Get(fixed, "required").value.Arr?
    ensures Finish(s, fixed, false) == Failure(PushNotAFunction)
  {
  }

  /**
    After the walk no property schema says `required: true` any more, and a
    schema that did not say it itself (or had it deleted) does not say it.
   */
  lemma {:induction false} FixedIsClean(s: Json, strip: bool)
    requires FixSchema(s, strip).Success?
    ensures Clean(FixSchema(s, strip).value)
    ensures strip || !MarkedRequired(s) ==> !MarkedRequired(FixSchema(s, strip).value)
    decreases s, 1
  {
    if s.Obj? {
      FixSchemaSteps(s, strip);
      var fixed := FixedMembers(s).value;
      FixedMembersClean(s);
      RequiredPassesThrough(s);
      FinishKeepsClean(s, fixed, strip);
    }
  }

  /** The last step keeps clean members clean, and writes no `required: true`. */
  lemma FinishKeepsClean(s: Json, fixed: seq<Member>, strip: bool)
    requires s.Obj? && Finish(s, fixed, strip).Success?
    requires forall i :: 0 <= i < |fixed| ==> MemberClean(fixed[i].key, fixed[i].value)
    ensures var r := Finish(s, fixed, strip).value;
      forall i :: 0 <= i < |r| ==> MemberClean(r[i].key, r[i].value)
    ensures strip || Get(fixed, "required") != Some(Bool(true)) ==>
      Get(Finish(s, fixed, strip).value, "required") != Some(Bool(true))
  {
    FinishReads(s, fixed, strip);
    CleanSubset(fixed, Finish(s, fixed, strip).value);
  }

  /** Members drawn from clean ones, or holding the `required` list, are clean. */
  lemma CleanSubset(fixed: seq<Member>, r: seq<Member>)
    requires forall i :: 0 <= i < |fixed| ==> MemberClean(fixed[i].key, fixed[i].value)
    requires forall m :: m in r ==> m in fixed || m.key == "required"
    ensures forall i :: 0 <= i < |r| ==> MemberClean(r[i].key, r[i].value)
  {
    forall i | 0 <= i < |r| ensures MemberClean(r[i].key, r[i].value) {
      assert r[i] in r;
      if r[i] in fixed {
        var j :| 0 <= j < |fixed| && fixed[j] == r[i];
      }
    }
  }

  lemma {:induction false} FixedMembersClean(s: Json)
    requires s.Obj? && FixedMembers(s).Success?
    ensures var fixed := FixedMembers(s).value;
      forall i :: 0 <= i < |fixed| ==> MemberClean(fixed[i].key, fixed[i].value)
    decreases s, 0
  {
    var ms := s.members;
    var rs := seq(|ms|, i requires 0 <= i < |ms| => FixMember(ms[i].key, ms[i].value));
    var values := Collect(rs).value;
    var fixed := FixedMembers(s).value;
    forall i | 0 <= i < |fixed| ensures MemberClean(fixed[i].key, fixed[i].value) {
      assert fixed[i] == Member(ms[i].key, values[i]) && values[i] == rs[i].value;
      FixMemberClean(ms[i].key, ms[i].value);
    }
  }

  lemma {:induction false} FixMemberClean(key: string, v: Json)
    requires FixMember(key, v).Success?
    ensures MemberClean(key, FixMember(key, v).value)
    decreases v, 2
  {
    if key == "properties" && IsObject(v) {
      ChildrenFixedClean(v, true);
    } else if key == "items" && Truthy(v) {
      FixedIsClean(v, false);
    } else if key in Keywords && v.Arr? {
      ChildrenFixedClean(v, false);
    } else if key == "additionalProperties" && IsObject(v) {
      FixedIsClean(v, false);
    }
  }

  lemma {:induction false} ChildrenFixedClean(v: Json, hoist: bool)
    requires ChildrenFixed(v, |Children(v)|, hoist).Success?
    ensures ChildrenClean(WithChildren(v, ChildrenFixed(v, |Children(v)|, hoist).value), hoist)
    decreases v, 1
  {
    var fixed := ChildrenFixed(v, |Children(v)|, hoist).value;
    forall i | 0 <= i < |Children(v)|
      ensures (hoist ==> !MarkedRequired(fixed[i])) && Clean(fixed[i])
    {
      var c := Children(v)[i];
      assert FixedChild(v, i, hoist) == Success(fixed[i]);
      FixedIsClean(c, hoist && MarkedRequired(c));
    }
  }

  /** The member `key` of the walked object before the `required` list is touched. */
  lemma FixedMemberRead(s: Json, key: string)
    requires s.Obj? && FixedMembers(s).Success?
    ensures var g := Get(FixedMembers(s).value, key);
      (g.Some? <==> HasKey(s.members, key)) && (g.Some? ==> FixMember(key, Get(s.members, key).value) == Success(g.value))
  {
    var ms := s.members;
    var rs := seq(|ms|, i requires 0 <= i < |ms| => FixMember(ms[i].key, ms[i].value));
    var values := Collect(rs).value;
    GetRekeyed(s, values, key);
    if HasKey(ms, key) {
      var i := KeyIndex(ms, key);
      assert values[i] == rs[i].value;
    }
  }

  /** Fixing the members leaves `required` as it was. */
  lemma RequiredPassesThrough(s: Json)
    requires s.Obj? && FixedMembers(s).Success?
    ensures Get(FixedMembers(s).value, "required") == Get(s.members, "required")
  {
    var key := "required";
    assert key != "properties" && key != "items" && key != "additionalProperties";
    assert key != Keywords[0] && key != Keywords[1] && key != Keywords[2];
    UntouchedMemberPasses(s, key);
  }

  /** Fixing the members leaves a member the walk does not look at as it was. */
  lemma UntouchedMemberPasses(s: Json, key: string)
    requires s.Obj? && FixedMembers(s).Success?
    requires key != "properties" && key != "items" && key !in Keywords && key != "additionalProperties"
    ensures Get(FixedMembers(s).value, key) == Get(s.members, key)
  {
    FixedMemberRead(s, key);
  }

  /** A successful walk of an object is its members fixed, then the last step. */
  lemma FixSchemaSteps(s: Json, strip: bool)
    requires s.Obj? && FixSchema(s, strip).Success?
    ensures FixedMembers(s).Success? && Finish(s, FixedMembers(s).value, strip).Success?
    ensures FixSchema(s, strip).value == Obj(Finish(s, FixedMembers(s).value, strip).value)
  {
  }

  /** The walk leaves every member it does not look at as it was. */
  lemma FixedFrame(s: Json, strip: bool, key: string)
    requires s.Obj? && FixSchema(s, strip).Success?
    requires key != "properties" && key != "items" && key !in Keywords && key != "additionalProperties"
    requires key != "required"
    ensures Get(FixSchema(s, strip).value.members, key) == Get(s.members, key)
  {
    FixSchemaSteps(s, strip);
    FixedMemberRead(s, key);
    FinishReads(s, FixedMembers(s).value, strip);
  }

  /**
    When property schemas are marked, `required` becomes the old list (or a
    new one, when it was missing or falsy) with their names appended and
    repeats dropped.
   */
  lemma RequiredHoisted(s: Json, strip: bool)
    requires s.Obj? && FixSchema(s, strip).Success? && HoistedNames(s) != []
    ensures RequiredBefore(s.members, strip).None? || !Truthy(RequiredBefore(s.members, strip).value)
      || RequiredBefore(s.members, strip).value.Arr?
    ensures Get(FixSchema(s, strip).value.members, "required") ==
      Some(Arr(Dedup(ListIn(RequiredBefore(s.members, strip)) + Strs(HoistedNames(s)))))
  {
    FixSchemaSteps(s, strip);
    RequiredPassesThrough(s);
    FinishReads(s, FixedMembers(s).value, strip);
  }

  /** Without marked property schemas the `required` member is left as it was. */
  lemma RequiredUntouched(s: Json)
    requires s.Obj? && FixSchema(s, false).Success? && HoistedNames(s) == []
    ensures Get(FixSchema(s, false).value.members, "required") == Get(s.members, "required")
  {
    FixSchemaSteps(s, false);
    RequiredPassesThrough(s);
    FinishReads(s, FixedMembers(s).value, false);
  }

  /**
    The hoisted list holds exactly the old entries and the marked names, no
    primitive twice, and a list that had no repeats stays in front.
   */
  lemma RequiredListContents(s: Json)
    requires s.Obj? && FixSchema(s, false).Success? && HoistedNames(s) != []
    ensures var req := Get(FixSchema(s, false).value.members, "required");
      var before := Get(s.members, "required");
      var base := if before.Some? && before.value.Arr? then before.value.elems else [];
      && req.Some? && req.value.Arr?
      && (forall n :: n in HoistedNames(s) ==> Str(n) in req.value.elems)
      && NoDuplicatePrimitives(req.value.elems)
      && (forall x :: x in req.value.elems <==> x in base || x in Strs(HoistedNames(s)))
      && (NoDuplicatePrimitives(base) ==> |req.value.elems| >= |base| && req.value.elems[..|base|] == base)
  {
    RequiredHoisted(s, false);
    var before := Get(s.members, "required");
    var base := if before.Some? && before.value.Arr? then before.value.elems else [];
    ListContents(base, HoistedNames(s));
  }

  /** Pushing names onto a list and dropping repeats. */
  lemma ListContents(base: seq<Json>, names: seq<string>)
    ensures var xs := Dedup(base + Strs(names));
      && (forall n :: n in names ==> Str(n) in xs)
      && NoDuplicatePrimitives(xs)
      && (forall x :: x in xs <==> x in base || x in Strs(names))
      && (NoDuplicatePrimitives(base) ==> |xs| >= |base| && xs[..|base|] == base)
  {
    var ss := Strs(names);
    DedupContents(base + ss);
    if NoDuplicatePrimitives(base) {
      DedupKeepsPrefix(base, ss);
    }
    forall n | n in names ensures Str(n) in base + ss {
      var i :| 0 <= i < |names| && names[i] == n;
      assert ss[i] == Str(n);
    }
  }

  /** A schema whose own `required` is truthy but not a list cannot take hoisted names: the walk throws. */
  lemma RequiredCrash(s: Json)
    requires s.Obj? && HoistedNames(s) != []
    requires Get(s.members, "required").Some? && Truthy(Get(s.members, "required").value)
    requires !Get(s.members, "required").value.Arr?
    ensures FixSchema(s, false) == Failure(PushNotAFunction)
  {
    if FixedMembers(s).Success? {
      RequiredPassesThrough(s);
      FinishFails(s, FixedMembers(s).value);
    }
  }

  /** A failure among the first entries is the failure of all of them. */
  lemma {:induction false} ChildrenFixedStops(v: Json, i: nat, n: nat, hoist: bool)
    requires i <= n <= |Children(v)| && ChildrenFixed(v, i, hoist).Failure?
    ensures ChildrenFixed(v, n, hoist) == ChildrenFixed(v, i, hoist)
    decreases n
  {
    if n > i {
      ChildrenFixedStops(v, i, n - 1, hoist);
    }
  }

  /** One more entry fixed with success: its value is appended. */
  lemma ChildrenFixedAppends(v: Json, i: nat, hoist: bool, fixed: seq<Json>, x: Json)
    requires i < |Children(v)| && ChildrenFixed(v, i, hoist) == Success(fixed)
    requires FixedChild(v, i, hoist) == Success(x)
    ensures ChildrenFixed(v, i + 1, hoist) == Success(fixed + [x])
  {
  }

  /** The first entry whose fix fails decides the error of all of them. */
  lemma ChildrenFixedFails(v: Json, i: nat, n: nat, hoist: bool)
    requires i < n <= |Children(v)| && ChildrenFixed(v, i, hoist).Success?
    requires FixedChild(v, i, hoist).Failure?
    ensures ChildrenFixed(v, n, hoist) == Failure(FixedChild(v, i, hoist).error)
  {
    assert ChildrenFixed(v, i + 1, hoist) == Failure(FixedChild(v, i, hoist).error);
    ChildrenFixedStops(v, i + 1, n, hoist);
  }

  /** fixSchemaRequired, walking the members of `schema` one after the other. */
  method FixSchemaRequired(schema: Json, strip: bool) returns (r: Result<Json>)
    ensures r == FixSchema(schema, strip)
    decreases schema, 1, 0
  {
    if !schema.Obj? {
      return Success(schema);
    }
    var ms := schema.members;
    ghost var rs := seq(|ms|, j requires 0 <= j < |ms| => FixMember(ms[j].key, ms[j].value));
    var values: seq<Json> := [];
    var i := 0;
    while i < |ms|
      invariant 0 <= i <= |ms|
      invariant Collect(rs[..i]) == Success(values)
    {
      var f := FixMemberRequired(ms[i].key, ms[i].value);
      if f.Failure? {
        CollectStopsAt(rs, i, |ms|);
        assert rs[..|ms|] == rs;
        return Failure(f.error);
      }
      CollectStep(rs, i, values);
      values := values + [f.value];
      i := i + 1;
    }
    assert rs[..|ms|] == rs;
    var fixed := WithChildren(schema, values).members;
    var kept := if strip then Remove(fixed, "required") else fixed;
    var names := HoistedPropertyNames(schema);
    if names == [] {
      return Success(Obj(kept));
    }
    var added := AddRequired(kept, names);
    if added.Failure? {
      return Failure(added.error);
    }
    return Success(Obj(added.value));
  }

  /** The checks fixSchemaRequired makes on one member. */
  method FixMemberRequired(key: string, v: Json) returns (r: Result<Json>)
    ensures r == FixMember(key, v)
    decreases v, 2, 0
  {
    if key == "properties" && IsObject(v) {
      var fixed := FixEntries(v, true);
      if fixed.Failure? {
        return Failure(fixed.error);
      }
      return Success(WithChildren(v, fixed.value));
    } else if key == "items" && Truthy(v) {
      r := FixSchemaRequired(v, false);
    } else if key in Keywords && v.Arr? {
      var fixed := FixEntries(v, false);
      if fixed.Failure? {
        return Failure(fixed.error);
      }
      return Success(Arr(fixed.value));
    } else if key == "additionalProperties" && IsObject(v) {
      r := FixSchemaRequired(v, false);
    } else {
      r := Success(v);
    }
  }

  /** The loop over `Object.entries(v)` (or `forEach` over an array), fixing each entry. */
  method FixEntries(v: Json, hoist: bool) returns (r: Result<seq<Json>>)
    ensures r == ChildrenFixed(v, |Children(v)|, hoist)
    decreases v, 1, 1
  {
    var n := |Children(v)|;
    var fixed: seq<Json> := [];
    var i := 0;
    while i < n
      invariant 0 <= i <= n
      invariant ChildrenFixed(v, i, hoist) == Success(fixed)
    {
      var f := FixEntry(v, i, hoist);
      if f.Failure? {
        ChildrenFixedFails(v, i, n, hoist);
        return Failure(f.error);
      }
      ChildrenFixedAppends(v, i, hoist, fixed, f.value);
      fixed := fixed + [f.value];
      i := i + 1;
    }
    return Success(fixed);
  }

  /** Entry i of `v` fixed, its `required` deleted first when it is a marked property. */
  method FixEntry(v: Json, i: nat, hoist: bool) returns (r: Result<Json>)
    requires i < |Children(v)|
    ensures r == FixedChild(v, i, hoist)
    decreases v, 1, 0
  {
    var c := Children(v)[i];
    r := FixSchemaRequired(c, hoist && MarkedRequired(c));
  }

  /** The names collected in `requiredProps` by the loop over `schema.properties`. */
  method HoistedPropertyNames(schema: Json) returns (names: seq<string>)
    requires schema.Obj?
    ensures names == HoistedNames(schema)
  {
    names := [];
    var p := Get(schema.members, "properties");
    if p.Some? && IsObject(p.value) {
      var cs, ks := Children(p.value), EntryKeys(p.value);
      var i := 0;
      while i < |cs|
        invariant 0 <= i <= |cs|
        invariant names == MarkedNames(p.value, i)
      {
        if MarkedRequired(cs[i]) {
          names := names + [ks[i]];
        }
        i := i + 1;
      }
    }
  }

  /** fixInvalidRequiredProperties: the loop over the schemas, fixing each object in turn. */
  method FixInvalidRequiredProperties(schemas: Json) returns (r: Result<Json>)
    ensures r == AllRequiredFixed(schemas)
  {
    var fixed := FixEntries(schemas, false);
    if fixed.Failure? {
      return Failure(fixed.error);
    }
    return Success(WithChildren(schemas, fixed.value));
  }
}
