/**
  fixRefSiblings and fixRefSiblingsRecursive (scripts/openapi-spec.js): a
  property schema that holds a truthy `$ref` next to other members is
  replaced by `{allOf: [{$ref: ref}, rest]}`, where `rest` is a copy of it
  without `$ref`, and is not descended into; every other property schema,
  `items` and the schemas of `allOf`/`oneOf`/`anyOf` are walked.
  `additionalProperties` is not.

  As for the `required` walk, each check reads and writes only its own
  member, so every member is rewritten according to its key.
 */
module OpenApiRefs {
  import opened Wrappers
  import opened Json
  import opened OpenApiTree

  /** `propSchema.$ref && Object.keys(propSchema).length > 1`, on an object. */
  predicate HasRefSiblings(p: Json) {
    p.Obj? && TruthyAt(p.members, "$ref") && |p.members| > 1
  }

  /** `{ allOf: [{ $ref: ref }, otherProps] }`. */
  function Wrapped(p: Json): (r: Json)
    requires HasRefSiblings(p)
    ensures r.Obj? && |r.members| == 1 && r.members[0].key == "allOf"
    ensures var list := r.members[0].value;
      && list.Arr? && |list.elems| == 2
      && list.elems[0] == Obj([Member("$ref", Get(p.members, "$ref").value)])
      && list.elems[1].Obj? && Get(list.elems[1].members, "$ref").None?
      && forall k :: k != "$ref" ==> Get(list.elems[1].members, k) == Get(p.members, k)
  {
    var others := Remove(p.members, "$ref");
    Obj([Member("allOf", Arr([Obj([Member("$ref", Get(p.members, "$ref").value)]), Obj(others)]))])
  }

  /** fixRefSiblingsRecursive on `s`: values that are not objects (and arrays, which have none of the keys) stay as they are. */
  function RefsFixed(s: Json): (r: Json)
    ensures !s.Obj? ==> r == s
    ensures s.Obj? ==> r.Obj? && EntryKeys(r) == EntryKeys(s)
    decreases s, 1
  {
    if !s.Obj? then s
    else
      var cs, ks := Children(s), EntryKeys(s);
      WithChildren(s, seq(|cs|, i requires 0 <= i < |cs| => RefMember(ks[i], cs[i])))
  }

  /** The value of member `key` after the walk: only `properties`, `items` and the keyword lists change. */
  function RefMember(key: string, v: Json): (r: Json)
    ensures key != "properties" && key != "items" && key !in Keywords ==> r == v
    decreases v, 3
  {
    if key == "properties" && Truthy(v) then
      var cs := Children(v);
      WithChildren(v, seq(|cs|, i requires 0 <= i < |cs| => RefProperty(cs[i])))
    else if key == "items" && Truthy(v) then RefsFixed(v)
    else if key in Keywords && v.Arr? then
      Arr(seq(|v.elems|, i requires 0 <= i < |v.elems| => RefsFixed(v.elems[i])))
    else v
  }

  /** One property schema: wrapped when its `$ref` has siblings, walked otherwise. */
  function RefProperty(p: Json): (r: Json)
    decreases p, 2
  {
    if HasRefSiblings(p) then Wrapped(p) else RefsFixed(p)
  }

  /** fixRefSiblings: every entry of `components.schemas` walked. */
  function AllRefsFixed(schemas: Json): (r: Json)
    ensures EntryKeys(r) == EntryKeys(schemas) && r.Obj? == schemas.Obj? && r.Arr? == schemas.Arr?
    ensures forall i :: 0 <= i < |Children(r)| ==> RefClean(Children(r)[i])
  {
    var cs := Children(schemas);
    AllWalkedClean(cs);
    WithChildren(schemas, seq(|cs|, i requires 0 <= i < |cs| => RefsFixed(cs[i])))
  }

  lemma AllWalkedClean(cs: seq<Json>)
    ensures forall i :: 0 <= i < |cs| ==> RefClean(RefsFixed(cs[i]))
  {
    forall i | 0 <= i < |cs| ensures RefClean(RefsFixed(cs[i])) {
      WalkedIsClean(cs[i]);
    }
  }

  /** The walk leaves members other than `properties`, `items` and the keyword lists as they were. */
  lemma RefsFrame(s: Json, key: string)
    requires s.Obj? && key != "properties" && key != "items" && key !in Keywords
    ensures Get(RefsFixed(s).members, key) == Get(s.members, key)
    ensures |RefsFixed(s).members| == |s.members|
  {
    var cs, ks := Children(s), EntryKeys(s);
    var vs := seq(|cs|, i requires 0 <= i < |cs| => RefMember(ks[i], cs[i]));
    GetRekeyed(s, vs, key);
    if HasKey(s.members, key) {
      var i := KeyIndex(s.members, key);
      assert ks[i] == key;
    }
    assert |Children(RefsFixed(s))| == |cs|;
  }

  /** A property schema without `$ref` siblings keeps that: the walk does not touch `$ref` or the number of members. */
  lemma WalkedPropertyHasNoSiblings(p: Json)
    requires !HasRefSiblings(p)
    ensures !HasRefSiblings(RefsFixed(p))
  {
    if p.Obj? {
      RefsFrame(p, "$ref");
    }
  }

  /**
    No property schema at a place the walk reaches has a `$ref` with
    siblings; a wrapped property is not looked into, as the walk does not
    enter it.
   */
  predicate RefClean(j: Json)
    decreases j, 1
  {
    j.Obj? ==> forall i :: 0 <= i < |j.members| ==> RefMemberClean(j.members[i].key, j.members[i].value)
  }

  predicate RefMemberClean(key: string, v: Json)
    decreases v, 3
  {
    && (key == "properties" && Truthy(v) ==> forall i :: 0 <= i < |Children(v)| ==> PropertyClean(Children(v)[i]))
    && (key == "items" && Truthy(v) ==> RefClean(v))
    && (key in Keywords && v.Arr? ==> forall i :: 0 <= i < |v.elems| ==> RefClean(v.elems[i]))
  }

  /** A property schema after the walk: no `$ref` with siblings, and either the wrapper or itself clean. */
  predicate PropertyClean(p: Json)
    decreases p, 2
  {
    && !HasRefSiblings(p)
    && (IsAllOfWrapper(p) || RefClean(p))
  }

  /** The shape the wrapper has: a single `allOf` member. */
  predicate IsAllOfWrapper(p: Json) {
    p.Obj? && |p.members| == 1 && p.members[0].key == "allOf"
  }

  /** After the walk no reachable property schema has a `$ref` with siblings. */
  lemma {:induction false} WalkedIsClean(s: Json)
    ensures RefClean(RefsFixed(s))
    decreases s, 1
  {
    if s.Obj? {
      var r := RefsFixed(s);
      var cs, ks := Children(s), EntryKeys(s);
      forall i | 0 <= i < |r.members| ensures RefMemberClean(r.members[i].key, r.members[i].value) {
        assert r.members[i].key == ks[i] && r.members[i].value == Children(r)[i];
        MemberIsClean(ks[i], cs[i]);
      }
    }
  }

  lemma {:induction false} MemberIsClean(key: string, v: Json)
    ensures RefMemberClean(key, RefMember(key, v))
    decreases v, 3
  {
    var r := RefMember(key, v);
    if key == "properties" && Truthy(v) {
      var cs := Children(v);
      forall i | 0 <= i < |Children(r)| ensures PropertyClean(Children(r)[i]) {
        assert Children(r)[i] == RefProperty(cs[i]);
        PropertyIsClean(cs[i]);
      }
    } else if key == "items" && Truthy(v) {
      WalkedIsClean(v);
    } else if key in Keywords && v.Arr? {
      forall i | 0 <= i < |r.elems| ensures RefClean(r.elems[i]) {
        WalkedIsClean(v.elems[i]);
      }
    }
  }

  lemma {:induction false} PropertyIsClean(p: Json)
    ensures PropertyClean(RefProperty(p))
    decreases p, 2
  {
    if !HasRefSiblings(p) {
      WalkedPropertyHasNoSiblings(p);
      WalkedIsClean(p);
    }
  }

  /** The loop over the entries of `schemas`, walking each. */
  method FixRefSiblings(schemas: Json) returns (r: Json)
    ensures r == AllRefsFixed(schemas)
  {
    var cs := Children(schemas);
    var fixed: seq<Json> := [];
    var i := 0;
    while i < |cs|
      invariant 0 <= i <= |cs|
      invariant |fixed| == i && forall j :: 0 <= j < i ==> fixed[j] == RefsFixed(cs[j])
    {
      var f := FixRefSiblingsRecursive(cs[i]);
      fixed := fixed + [f];
      i := i + 1;
    }
    SamePointwise(fixed, seq(|cs|, j requires 0 <= j < |cs| => RefsFixed(cs[j])));
    r := WithChildren(schemas, fixed);
  }

  /** fixRefSiblingsRecursive, walking the members of `s` one after the other. */
  method FixRefSiblingsRecursive(s: Json) returns (r: Json)
    ensures r == RefsFixed(s)
    decreases s, 1
  {
    if !s.Obj? {
      return s;
    }
    var fixed := FixRefMembers(s);
    r := WithChildren(s, fixed);
  }

  /** The loop over `Object.keys(s)`, rewriting each member. */
  method FixRefMembers(s: Json) returns (fixed: seq<Json>)
    requires s.Obj?
    ensures fixed == seq(|Children(s)|, i requires 0 <= i < |Children(s)| => RefMember(EntryKeys(s)[i], Children(s)[i]))
    decreases s, 0
  {
    var cs, ks := Children(s), EntryKeys(s);
    fixed := [];
    var i := 0;
    while i < |cs|
      invariant 0 <= i <= |cs|
      invariant |fixed| == i && forall j :: 0 <= j < i ==> fixed[j] == RefMember(ks[j], cs[j])
    {
      var f := FixRefMember(ks[i], cs[i]);
      fixed := fixed + [f];
      i := i + 1;
    }
    SamePointwise(fixed, seq(|cs|, j requires 0 <= j < |cs| => RefMember(ks[j], cs[j])));
  }

  /** The checks fixRefSiblingsRecursive makes on one member. */
  method FixRefMember(key: string, v: Json) returns (r: Json)
    ensures r == RefMember(key, v)
    decreases v, 3
  {
    if key == "properties" && Truthy(v) {
      var fixed := FixRefProperties(v);
      r := WithChildren(v, fixed);
    } else if key == "items" && Truthy(v) {
      r := FixRefSiblingsRecursive(v);
    } else if key in Keywords && v.Arr? {
      var fixed := FixRefList(v);
      r := Arr(fixed);
    } else {
      r := v;
    }
  }

  /** The loop over the property schemas: each wrapped or walked. */
  method FixRefProperties(v: Json) returns (fixed: seq<Json>)
    ensures fixed == seq(|Children(v)|, i requires 0 <= i < |Children(v)| => RefProperty(Children(v)[i]))
    decreases v, 2
  {
    var cs := Children(v);
    fixed := [];
    var i := 0;
    while i < |cs|
      invariant 0 <= i <= |cs|
      invariant |fixed| == i && forall j :: 0 <= j < i ==> fixed[j] == RefProperty(cs[j])
    {
      var f := FixRefProperty(cs[i]);
      fixed := fixed + [f];
      i := i + 1;
    }
    SamePointwise(fixed, seq(|cs|, j requires 0 <= j < |cs| => RefProperty(cs[j])));
  }

  /** One property schema: replaced by the wrapper when its `$ref` has siblings, walked otherwise. */
  method FixRefProperty(p: Json) returns (r: Json)
    ensures r == RefProperty(p)
    decreases p, 2
  {
    if HasRefSiblings(p) {
      r := Wrapped(p);
    } else {
      r := FixRefSiblingsRecursive(p);
    }
  }

  /** The `forEach` over an `allOf`/`oneOf`/`anyOf` list, walking each schema. */
  method FixRefList(v: Json) returns (fixed: seq<Json>)
    requires v.Arr?
    ensures fixed == seq(|v.elems|, i requires 0 <= i < |v.elems| => RefsFixed(v.elems[i]))
    decreases v, 2
  {
    fixed := [];
    var i := 0;
    while i < |v.elems|
      invariant 0 <= i <= |v.elems|
      invariant |fixed| == i && forall j :: 0 <= j < i ==> fixed[j] == RefsFixed(v.elems[j])
    {
      var f := FixRefSiblingsRecursive(v.elems[i]);
      fixed := fixed + [f];
      i := i + 1;
    }
    SamePointwise(fixed, seq(|v.elems|, j requires 0 <= j < |v.elems| => RefsFixed(v.elems[j])));
  }
}
