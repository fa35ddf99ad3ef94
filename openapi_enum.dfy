/**
  fixInvalidEnumTypes (scripts/openapi-spec.js): a top-level schema that
  says `type: "enum"` and lists its values in an `enum` array gets the type
  of those values instead, "number" when the first one is a number and
  "string" otherwise (also when the list is empty, its first value then
  being undefined). Nested schemas are not visited.
 */
module OpenApiEnum {
  import opened Wrappers
  import opened Json
  import opened OpenApiTree

  /** `schema && schema.type === "enum" && Array.isArray(schema.enum)`. */
  predicate IsEnumSchema(s: Json) {
    && s.Obj?
    && Get(s.members, "type") == Some(Str("enum"))
    && Get(s.members, "enum").Some? && Get(s.members, "enum").value.Arr?
  }

  /** `typeof schema.enum[0] === "number" ? "number" : "string"`. */
  function InferredType(values: seq<Json>): (t: string)
    ensures t == "number" <==> values != [] && values[0].Num?
    ensures t != "number" ==> t == "string"
  {
    if values != [] && values[0].Num? then "number" else "string"
  }

  /** One schema after the fix: only its `type` can change. */
  function EnumFixed(s: Json): (r: Json)
    ensures !IsEnumSchema(s) ==> r == s
    ensures IsEnumSchema(s) ==> r.Obj? && Get(r.members, "type") == Some(Str(InferredType(Get(s.members, "enum").value.elems)))
    ensures IsEnumSchema(s) ==> forall k :: k != "type" ==> Get(r.members, k) == Get(s.members, k)
  {
    if IsEnumSchema(s) then Obj(Put(s.members, "type", Str(InferredType(Get(s.members, "enum").value.elems))))
    else s
  }

  /** Every entry of `schemas` after the fix. */
  function AllEnumsFixed(schemas: Json): (r: Json)
    ensures EntryKeys(r) == EntryKeys(schemas) && r.Obj? == schemas.Obj? && r.Arr? == schemas.Arr?
    ensures forall i :: 0 <= i < |Children(r)| ==> !IsEnumSchema(Children(r)[i])
  {
    var cs := Children(schemas);
    WithChildren(schemas, seq(|cs|, i requires 0 <= i < |cs| => EnumFixed(cs[i])))
  }

  /** The loop over `Object.entries(schemas)`, retyping each enum schema in turn. */
  method FixInvalidEnumTypes(schemas: Json) returns (r: Json)
    ensures r == AllEnumsFixed(schemas)
  {
    var cs := Children(schemas);
    var fixed: seq<Json> := [];
    var i := 0;
    while i < |cs|
      invariant 0 <= i <= |cs|
      invariant |fixed| == i && forall j :: 0 <= j < i ==> fixed[j] == EnumFixed(cs[j])
    {
      fixed := fixed + [EnumFixed(cs[i])];
      i := i + 1;
    }
    SamePointwise(fixed, seq(|cs|, j requires 0 <= j < |cs| => EnumFixed(cs[j])));
    r := WithChildren(schemas, fixed);
  }

  /**
    What the fix does to each entry: an enum schema's type becomes "number"
    exactly when its first value is a number and "string" otherwise, with
    every other member as it was; any other entry is left alone.
   */
  lemma EnumEntries(schemas: Json)
    ensures var r := AllEnumsFixed(schemas);
      && EntryKeys(r) == EntryKeys(schemas)
      && forall i :: 0 <= i < |Children(schemas)| ==>
        var s, t := Children(schemas)[i], Children(r)[i];
        && (!IsEnumSchema(s) ==> t == s)
        && (IsEnumSchema(s) ==>
              var first := Get(s.members, "enum").value.elems;
              && (Get(t.members, "type") == Some(Str("number")) <==> first != [] && first[0].Num?)
              && (Get(t.members, "type") == Some(Str("string")) <==> !(first != [] && first[0].Num?))
              && forall k :: k != "type" ==> Get(t.members, k) == Get(s.members, k))
  {
    var r := AllEnumsFixed(schemas);
    forall i | 0 <= i < |Children(schemas)|
      ensures var s, t := Children(schemas)[i], Children(r)[i];
        && (!IsEnumSchema(s) ==> t == s)
        && (IsEnumSchema(s) ==>
              var first := Get(s.members, "enum").value.elems;
              && (Get(t.members, "type") == Some(Str("number")) <==> first != [] && first[0].Num?)
              && (Get(t.members, "type") == Some(Str("string")) <==> !(first != [] && first[0].Num?))
              && forall k :: k != "type" ==> Get(t.members, k) == Get(s.members, k))
    {
      var s := Children(schemas)[i];
      assert Children(r)[i] == EnumFixed(s);
    }
  }

  /** No entry still says `type: "enum"` over an `enum` array, so a second pass changes nothing. */
  lemma EnumFixIdempotent(schemas: Json)
    ensures forall i :: 0 <= i < |Children(AllEnumsFixed(schemas))| ==> !IsEnumSchema(Children(AllEnumsFixed(schemas))[i])
    ensures AllEnumsFixed(AllEnumsFixed(schemas)) == AllEnumsFixed(schemas)
  {
    var r := AllEnumsFixed(schemas);
    var cs := Children(r);
    forall i | 0 <= i < |cs| ensures !IsEnumSchema(cs[i]) {
      var s := Children(schemas)[i];
      assert cs[i] == EnumFixed(s);
    }
    var again := seq(|cs|, i requires 0 <= i < |cs| => EnumFixed(cs[i]));
    assert again == cs;
    WithOwnChildren(r);
  }
}
