/**
  fixInvalidExamples (scripts/openapi-spec.js): two examples of the Hevy
  schemas are repaired. The `null` example of
  `PostWorkoutsRequestSet.properties.rpe` is deleted, and a numeric example
  of `Routine.properties.exercises.items.properties.rest_seconds` is turned
  into its decimal string. Both are reached by optional chaining, so a
  missing step leaves the schemas alone.
 */
module OpenApiExamples {
  import opened Wrappers
  import opened Text
  import opened Json
  import opened OpenApiTree

  const RpePath: seq<string> := ["PostWorkoutsRequestSet", "properties", "rpe"]
  const RestSecondsPath: seq<string> := ["Routine", "properties", "exercises", "items", "properties", "rest_seconds"]

  /** Reading one more step of a path is reading that member of where the path leads. */
  lemma {:induction false} AtSnoc(v: Json, path: seq<string>, key: string)
    ensures At(v, path + [key]) == if At(v, path).Some? then Prop(At(v, path).value, key) else None
    decreases |path|
  {
    if path == [] {
      assert [] + [key] == [key];
      assert At(v, [key]) == match Prop(v, key) case None => None case Some(w) => At(w, []);
    } else {
      assert (path + [key])[0] == path[0] && (path + [key])[1..] == path[1..] + [key];
      match Prop(v, path[0]) {
        case None =>
        case Some(w) => AtSnoc(w, path[1..], key);
      }
    }
  }

  /** `postWorkoutsSet?.properties?.rpe?.example === null`. */
  predicate NullRpeExample(schemas: Json) {
    At(schemas, RpePath + ["example"]) == Some(Null)
  }

  /** `typeof restSeconds.example === "number"` for a truthy `rest_seconds`. */
  predicate NumericRestExample(schemas: Json) {
    var rest := At(schemas, RestSecondsPath);
    && rest.Some? && Truthy(rest.value)
    && At(schemas, RestSecondsPath + ["example"]).Some?
    && At(schemas, RestSecondsPath + ["example"]).value.Num?
  }

  /** `delete postWorkoutsSet.properties.rpe.example`. */
  function WithoutRpeExample(schemas: Json): (r: Json)
    requires NullRpeExample(schemas)
    ensures At(r, RpePath + ["example"]).None?
    ensures At(r, RpePath).Some? && At(r, RpePath).value.Obj?
    ensures forall k :: k != "example" ==> At(r, RpePath + [k]) == At(schemas, RpePath + [k])
  {
    AtSnoc(schemas, RpePath, "example");
    var rpe := At(schemas, RpePath).value;
    var r := ReplaceAt(schemas, RpePath, Obj(Remove(rpe.members, "example")));
    AtSnoc(r, RpePath, "example");
    forall k | k != "example" ensures At(r, RpePath + [k]) == At(schemas, RpePath + [k]) {
      AtSnoc(r, RpePath, k);
      AtSnoc(schemas, RpePath, k);
    }
    r
  }

  /** `restSeconds.example = String(restSeconds.example)`. */
  function WithStringRestExample(schemas: Json): (r: Json)
    requires NumericRestExample(schemas)
    ensures At(r, RestSecondsPath + ["example"]) ==
      Some(Str(IntToString(At(schemas, RestSecondsPath + ["example"]).value.n)))
  {
    var n := At(schemas, RestSecondsPath + ["example"]).value.n;
    ReplaceAt(schemas, RestSecondsPath + ["example"], Str(IntToString(n)))
  }

  /**
    fixInvalidExamples: the first repair, then the second on its result. A
    null `rpe` example is gone afterwards, and schemas that need neither
    repair are left as they are.
   */
  function ExamplesFixed(schemas: Json): (r: Json)
    ensures NullRpeExample(schemas) ==> At(r, RpePath + ["example"]).None?
    ensures !NullRpeExample(schemas) && !NumericRestExample(schemas) ==> r == schemas
  {
    var s1 := if NullRpeExample(schemas) then WithoutRpeExample(schemas) else schemas;
    if NumericRestExample(s1) then
      RestRepairKeepsRpe(s1);
      WithStringRestExample(s1)
    else s1
  }

  /** The two repaired schemas are different schemas, so the second repair keeps the first. */
  lemma RepairsAreIndependent(schemas: Json)
    requires NullRpeExample(schemas)
    ensures NumericRestExample(WithoutRpeExample(schemas)) <==> NumericRestExample(schemas)
    ensures NumericRestExample(schemas) ==>
      At(WithoutRpeExample(schemas), RestSecondsPath + ["example"]) == At(schemas, RestSecondsPath + ["example"])
  {
    AtSnoc(schemas, RpePath, "example");
    var rpe := At(schemas, RpePath).value;
    var w := Obj(Remove(rpe.members, "example"));
    assert WithoutRpeExample(schemas) == ReplaceAt(schemas, RpePath, w);
    ReplaceAtFrame(schemas, RpePath, w, RestSecondsPath);
    ReplaceAtFrame(schemas, RpePath, w, RestSecondsPath + ["example"]);
  }

  /**
    After the repairs the `rpe` schema has no example when it had a null one,
    and a numeric `rest_seconds` example has become its string.
   */
  lemma ExamplesRepaired(schemas: Json)
    ensures NullRpeExample(schemas) ==> At(ExamplesFixed(schemas), RpePath + ["example"]).None?
    ensures NumericRestExample(schemas) ==>
      At(ExamplesFixed(schemas), RestSecondsPath + ["example"]) ==
        Some(Str(IntToString(At(schemas, RestSecondsPath + ["example"]).value.n)))
    ensures !NullRpeExample(schemas) && !NumericRestExample(schemas) ==> ExamplesFixed(schemas) == schemas
  {
    if NullRpeExample(schemas) {
      RepairsAreIndependent(schemas);
      var s1 := WithoutRpeExample(schemas);
      if NumericRestExample(s1) {
        RestRepairKeepsRpe(s1);
      }
    }
  }

  /** The second repair leaves the `rpe` schema as the first left it. */
  lemma RestRepairKeepsRpe(s: Json)
    requires NumericRestExample(s)
    ensures At(WithStringRestExample(s), RpePath + ["example"]) == At(s, RpePath + ["example"])
  {
    var path := RestSecondsPath + ["example"];
    var n := At(s, path).value.n;
    assert WithStringRestExample(s) == ReplaceAt(s, path, Str(IntToString(n)));
    ReplaceAtFrame(s, path, Str(IntToString(n)), RpePath + ["example"]);
  }
}
