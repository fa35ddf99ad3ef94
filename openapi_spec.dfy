/**
  fixOpenAPISpec (scripts/openapi-spec.js): the fixes applied, in order, to
  a copy of the spec fetched from the Hevy API.

  The schemas are `spec.components?.schemas || {}` and the paths
  `spec.paths || {}`; a fix applied to the `{}` fallback changes nothing the
  result holds, so the model writes a fixed value back only where the spec
  has one. The copy `JSON.parse(JSON.stringify(spec))` is a value here, so it
  is the spec itself.

  A spec that is an array reads as having none of the members; the
  properties assigned on it are not array elements and do not appear in its
  JSON, so it comes back unchanged. On any other primitive the assignment of
  `servers` throws (the script is a module, hence strict).
 */
module OpenApiSpec {
  import opened Wrappers
  import opened Json
  import opened OpenApiTree
  import opened OpenApiRequired
  import opened OpenApiEnum
  import opened OpenApiRefs
  import opened OpenApiParams
  import opened OpenApiExamples
  import opened OpenApiTags
  import opened OpenApiOperationIds

  const SchemasPath: seq<string> := ["components", "schemas"]

  /** The server list set when the spec has none. */
  const DefaultServers: Json :=
    Arr([Obj([Member("url", Str("https://api.hevyapp.com")), Member("description", Str("Hevy API"))])])

  /** `fixed.components?.schemas` is truthy. */
  predicate HasSchemas(spec: Json) {
    At(spec, SchemasPath).Some? && Truthy(At(spec, SchemasPath).value)
  }

  /** `fixed.components?.schemas || {}`. */
  function SchemasOf(spec: Json): (r: Json)
    ensures HasSchemas(spec) ==> At(spec, SchemasPath) == Some(r)
    ensures !HasSchemas(spec) ==> r == Obj([])
  {
    if HasSchemas(spec) then At(spec, SchemasPath).value else Obj([])
  }

  /** The fixed schemas written back where they were read from. */
  function WithSchemas(spec: Json, schemas: Json): (r: Json)
    requires spec.Obj?
    ensures r.Obj?
    ensures HasSchemas(spec) ==> At(r, SchemasPath) == Some(schemas)
    ensures !HasSchemas(spec) ==> r == spec
    ensures forall k :: k != "components" ==> Get(r.members, k) == Get(spec.members, k)
  {
    if HasSchemas(spec) then ReplaceAt(spec, SchemasPath, schemas) else spec
  }

  /** The fixed paths written back when `fixed.paths` is truthy. */
  function WithPaths(spec: Json, paths: Json): (r: Json)
    requires spec.Obj?
    ensures r.Obj?
    ensures TruthyAt(spec.members, "paths") ==> Get(r.members, "paths") == Some(paths)
    ensures !TruthyAt(spec.members, "paths") ==> r == spec
    ensures forall k :: k != "paths" ==> Get(r.members, k) == Get(spec.members, k)
  {
    if TruthyAt(spec.members, "paths") then Obj(Put(spec.members, "paths", paths)) else spec
  }

  /**
    `v.length === 0` on a truthy value: an empty array, or an object whose own
    `length` member is the number 0. A truthy string is non-empty, and numbers
    and booleans have no `length`.
   */
  predicate LengthIsZero(v: Json) {
    match v
    case Arr(elems) => elems == []
    case Obj(members) => Get(members, "length") == Some(Num(0))
    case _ => false
  }

  /**
    `!fixed.servers || fixed.servers.length === 0`: the Hevy server list
    itself needs no fix.
   */
  predicate NeedsServers(ms: seq<Member>)
    ensures Get(ms, "servers") == Some(DefaultServers) ==> !NeedsServers(ms)
    ensures Get(ms, "servers").None? ==> NeedsServers(ms)
  {
    !TruthyAt(ms, "servers") || (Get(ms, "servers").Some? && LengthIsZero(Get(ms, "servers").value))
  }

  /** The servers fix on an object spec. */
  function ServersFixed(ms: seq<Member>): (r: seq<Member>)
    ensures !NeedsServers(r)
    ensures NeedsServers(ms) ==> Get(r, "servers") == Some(DefaultServers)
    ensures !NeedsServers(ms) ==> r == ms
    ensures forall k :: k != "servers" ==> Get(r, k) == Get(ms, k)
  {
    if NeedsServers(ms) then Put(ms, "servers", DefaultServers) else ms
  }

  /** Any `servers` value with a zero `length`, an object included, is replaced by the Hevy server list. */
  lemma ZeroLengthServersReplaced(ms: seq<Member>, servers: Json)
    requires Get(ms, "servers") == Some(servers)
    requires servers == Arr([]) || (servers.Obj? && Get(servers.members, "length") == Some(Num(0)))
    ensures Get(ServersFixed(ms), "servers") == Some(DefaultServers)
  {
  }

  /** The four fixes of the schemas, in order; only the `required` fix can throw. */
  function SchemaFixes(schemas: Json): (r: Result<Json>)
    ensures r.Failure? <==> AllRequiredFixed(schemas).Failure?
  {
    var required :- AllRequiredFixed(schemas);
    Success(ExamplesFixed(AllRefsFixed(AllEnumsFixed(required))))
  }

  /** The spec once the fixed schemas and paths are written back and the servers are set. */
  function Prepared(spec: Json, schemas: Json, paths: Json): (r: Json)
    requires spec.Obj?
    ensures r.Obj? && !NeedsServers(r.members)
    ensures TruthyAt(spec.members, "paths") ==> Get(r.members, "paths") == Some(paths)
    ensures forall k :: k != "components" && k != "paths" && k != "servers" ==> Get(r.members, k) == Get(spec.members, k)
  {
    Obj(ServersFixed(WithPaths(WithSchemas(spec, schemas), paths).members))
  }

  /** fixOpenAPISpec on an object spec: each fix on what the previous ones left. */
  function ObjectSpecFixed(spec: Json): (r: Result<Json>)
    requires spec.Obj?
    ensures r.Success? ==> r.value.Obj?
  {
    var schemas :- SchemaFixes(SchemasOf(spec));
    var paths :- PathsFixed(PathsOf(spec));
    var tagged :- GlobalTagsFixed(Prepared(spec, schemas, paths));
    var ids :- PathsIds(PathsOf(tagged));
    Success(WithPaths(tagged, ids))
  }

  /** fixOpenAPISpec. */
  function SpecFixed(spec: Json): (r: Result<Json>)
    ensures spec.Null? ==> r == Failure(NullRead("components"))
    ensures spec.Arr? ==> r == Success(spec)
    ensures IsPrimitive(spec) && !spec.Null? ==> r == Failure(CannotCreate("servers", spec))
    ensures spec.Obj? ==> r == ObjectSpecFixed(spec)
  {
    match spec
    case Null => Failure(NullRead("components"))
    case Arr(_) => Success(spec)
    case Obj(_) => ObjectSpecFixed(spec)
    case _ => Failure(CannotCreate("servers", spec))
  }

  /** A run that completes is the result of the last stage. */
  lemma SpecStages(spec: Json, schemas: Json, paths: Json, tagged: Json, ids: Json)
    requires spec.Obj?
    requires SchemaFixes(SchemasOf(spec)) == Success(schemas)
    requires PathsFixed(PathsOf(spec)) == Success(paths)
    requires GlobalTagsFixed(Prepared(spec, schemas, paths)) == Success(tagged)
    requires PathsIds(PathsOf(tagged)) == Success(ids)
    ensures ObjectSpecFixed(spec) == Success(WithPaths(tagged, ids))
    ensures tagged.Obj? && forall k :: k != "tags" ==> Get(tagged.members, k) == Get(Prepared(spec, schemas, paths).members, k)
    ensures TruthyAt(spec.members, "paths") ==> Truthy(paths)
  {
  }

  /**
    Where the stages leave their work: the fixed schemas in their place, the
    paths with their operation ids, the servers defaulted, and every member
    no fix touches as it was. The tags fix is known only to change `tags`.
   */
  lemma SpecResult(spec: Json, schemas: Json, paths: Json, tagged: Json, ids: Json)
    requires spec.Obj? && tagged.Obj?
    requires TruthyAt(spec.members, "paths") ==> Truthy(paths)
    requires forall k :: k != "tags" ==> Get(tagged.members, k) == Get(Prepared(spec, schemas, paths).members, k)
    ensures HasSchemas(spec) ==> At(WithPaths(tagged, ids), SchemasPath) == Some(schemas)
    ensures TruthyAt(spec.members, "paths") ==> Get(WithPaths(tagged, ids).members, "paths") == Some(ids)
    ensures !NeedsServers(WithPaths(tagged, ids).members)
    ensures Get(WithPaths(tagged, ids).members, "servers") ==
      if NeedsServers(spec.members) then Some(DefaultServers) else Get(spec.members, "servers")
    ensures forall k :: k != "components" && k != "paths" && k != "servers" && k != "tags" ==>
      Get(WithPaths(tagged, ids).members, k) == Get(spec.members, k)
  {
    var s1 := WithSchemas(spec, schemas);
    var s2 := WithPaths(s1, paths);
    var prepared := Prepared(spec, schemas, paths);
    var r := WithPaths(tagged, ids);
    MemberKept(spec, schemas, paths, tagged, ids, "servers");
    assert Get(s2.members, "servers") == Get(spec.members, "servers");
    SameServers(s2.members, spec.members);
    SameServers(r.members, ServersFixed(s2.members));
    forall k | k != "components" && k != "paths" && k != "servers" && k != "tags"
      ensures Get(r.members, k) == Get(spec.members, k)
    {
      MemberKept(spec, schemas, paths, tagged, ids, k);
    }
    if TruthyAt(spec.members, "paths") {
      MemberKept(spec, schemas, paths, tagged, ids, "paths");
    }
    if HasSchemas(spec) {
      MemberKept(spec, schemas, paths, tagged, ids, "components");
      SchemasSurvive(s1, schemas, r);
    }
  }

  lemma SameServers(ms: seq<Member>, ns: seq<Member>)
    requires Get(ms, "servers") == Get(ns, "servers")
    ensures NeedsServers(ms) == NeedsServers(ns)
  {
  }

  /** One member through the stages, each of which changes its own member only. */
  lemma MemberKept(spec: Json, schemas: Json, paths: Json, tagged: Json, ids: Json, k: string)
    requires spec.Obj? && tagged.Obj?
    requires Get(tagged.members, k) == Get(Prepared(spec, schemas, paths).members, k)
    ensures var s2 := WithPaths(WithSchemas(spec, schemas), paths);
      Get(WithPaths(tagged, ids).members, k) ==
        if k == "paths" && TruthyAt(tagged.members, "paths") then Some(ids)
        else if k == "servers" then Get(ServersFixed(s2.members), k)
        else Get(s2.members, k)
  {
  }

  /** A later spec whose `components` is that of `s1` holds the same schemas. */
  lemma SchemasSurvive(s1: Json, schemas: Json, r: Json)
    requires s1.Obj? && r.Obj? && At(s1, SchemasPath) == Some(schemas)
    requires Get(r.members, "components") == Get(s1.members, "components")
    ensures At(r, SchemasPath) == Some(schemas)
  {
    assert SchemasPath[1..] == ["schemas"] && ["schemas"][1..] == [];
  }

  /** After the fixes the servers are set: an absent, falsy or empty list is replaced by the Hevy server. */
  lemma ServersDefaulted(spec: Json)
    requires spec.Obj? && ObjectSpecFixed(spec).Success?
    ensures !NeedsServers(ObjectSpecFixed(spec).value.members)
    ensures NeedsServers(spec.members) ==> Get(ObjectSpecFixed(spec).value.members, "servers") == Some(DefaultServers)
    ensures !NeedsServers(spec.members) ==> Get(ObjectSpecFixed(spec).value.members, "servers") == Get(spec.members, "servers")
  {
    var schemas := SchemaFixes(SchemasOf(spec)).value;
    var paths := PathsFixed(PathsOf(spec)).value;
    var tagged := GlobalTagsFixed(Prepared(spec, schemas, paths)).value;
    var ids := PathsIds(PathsOf(tagged)).value;
    SpecStages(spec, schemas, paths, tagged, ids);
    SpecResult(spec, schemas, paths, tagged, ids);
  }

  /** fixOpenAPISpec: the fixers called one after the other on the spec copy. */
  method FixOpenApiSpec(spec: Json) returns (r: Result<Json>)
    ensures r == SpecFixed(spec)
  {
    if spec.Null? {
      return Failure(NullRead("components"));
    } else if spec.Arr? {
      return Success(spec);
    } else if !spec.Obj? {
      return Failure(CannotCreate("servers", spec));
    }
    var required := FixInvalidRequiredProperties(SchemasOf(spec));
    if required.Failure? {
      return Failure(required.error);
    }
    var enums := FixInvalidEnumTypes(required.value);
    var refs := FixRefSiblings(enums);
    var paths := FixMissingParameterSchemas(PathsOf(spec));
    if paths.Failure? {
      return Failure(paths.error);
    }
    var schemas := ExamplesFixed(refs);
    var fixed := WithPaths(WithSchemas(spec, schemas), paths.value);
    fixed := Obj(ServersFixed(fixed.members));
    var tagged := FixMissingGlobalTags(fixed);
    if tagged.Failure? {
      return Failure(tagged.error);
    }
    var ids := GenerateOperationIds(PathsOf(tagged.value));
    if ids.Failure? {
      return Failure(ids.error);
    }
    return Success(WithPaths(tagged.value, ids.value));
  }
}
