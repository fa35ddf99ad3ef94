/**
  fixMissingGlobalTags (scripts/openapi-spec.js): every tag an operation
  uses that the spec's global `tags` list does not name is appended to it as
  `{name: tag, description: "<tag> operations"}`, in the order the tags are
  first met. The used tags are gathered in a Set, so a primitive tag is
  added once; the existing names are compared by SameValueZero too.

  An operation's `tags` is iterated with `for...of`: an array gives its
  elements and a string its characters, anything else truthy throws, as
  does a null path item. A global `tags` that is truthy but not an array
  has no `map` and throws; a null entry in it throws when its name is read.
 */
module OpenApiTags {
  import opened Wrappers
  import opened Json
  import opened OpenApiTree

  /** `spec.paths || {}`. */
  function PathsOf(spec: Json): (r: Json)
    requires spec.Obj?
    ensures TruthyAt(spec.members, "paths") ==> Get(spec.members, "paths") == Some(r)
    ensures !TruthyAt(spec.members, "paths") ==> r == Obj([])
  {
    if TruthyAt(spec.members, "paths") then Get(spec.members, "paths").value else Obj([])
  }

  /** The one-character strings `for...of` visits in a string. */
  function Chars(s: string): (r: seq<Json>)
    ensures |r| == |s| && forall i :: 0 <= i < |s| ==> r[i] == Str([s[i]])
  {
    seq(|s|, i requires 0 <= i < |s| => Str([s[i]]))
  }

  /** `for (const tag of operation.tags)` over a truthy value. */
  function TagValues(tags: Json): (r: Result<seq<Json>>)
    requires Truthy(tags)
    ensures tags.Arr? ==> r == Success(tags.elems)
    ensures tags.Str? ==> r == Success(Chars(tags.s))
    ensures !tags.Arr? && !tags.Str? ==> r == Failure(NotIterable("operation.tags"))
  {
    if tags.Arr? then Success(tags.elems)
    else if tags.Str? then Success(Chars(tags.s))
    else Failure(NotIterable("operation.tags"))
  }

  /** `if (operation?.tags)`: the tags of the operation under one method, if it has any. */
  function OperationTags(op: Option<Json>): Result<seq<Json>> {
    if op.Some? && op.value.Obj? && TruthyAt(op.value.members, "tags") then
      TagValues(Get(op.value.members, "tags").value)
    else Success([])
  }

  /** The tags of the operations of a path item's members under `methods`, in order. */
  function MethodTags(ms: seq<Member>, methods: seq<string>): Result<seq<Json>>
    decreases |methods|
  {
    if methods == [] then Success([])
    else
      var init :- MethodTags(ms, methods[..|methods| - 1]);
      var last :- OperationTags(Get(ms, methods[|methods| - 1]));
      Success(init + last)
  }

  /** The tags of one path item; reading an operation of null throws. */
  function PathItemTags(item: Json): Result<seq<Json>> {
    match item
    case Null => Failure(NullRead("get"))
    case Obj(ms) => MethodTags(ms, Methods)
    case _ => Success([])
  }

  /** The tags of a series of path items, in order, stopping at the first TypeError. */
  function AllTags(items: seq<Json>): Result<seq<Json>>
    decreases |items|
  {
    if items == [] then Success([])
    else
      var init :- AllTags(items[..|items| - 1]);
      var last :- PathItemTags(items[|items| - 1]);
      Success(init + last)
  }

  /** `usedTags`: every tag met, in the order first met and with no primitive twice. */
  function UsedTags(spec: Json): (r: Result<seq<Json>>)
    requires spec.Obj?
    ensures r.Failure? <==> AllTags(Children(PathsOf(spec))).Failure?
    ensures r.Success? ==> NoDuplicatePrimitives(r.value)
  {
    var all :- AllTags(Children(PathsOf(spec)));
    DedupContents(all);
    UsedIn(Children(PathsOf(spec)))
  }

  /** The tags of a list of path items, first occurrences only. */
  function UsedIn(items: seq<Json>): (r: Result<seq<Json>>)
    ensures r.Success? <==> AllTags(items).Success?
    ensures r.Success? ==> r.value == Dedup(AllTags(items).value)
  {
    var all :- AllTags(items);
    Success(Dedup(all))
  }

  /** `spec.tags` after `if (!spec.tags) spec.tags = []`. */
  function TagList(ms: seq<Member>): (r: Json)
    ensures TruthyAt(ms, "tags") ==> Get(ms, "tags") == Some(r)
    ensures !TruthyAt(ms, "tags") ==> r == Arr([])
  {
    if TruthyAt(ms, "tags") then Get(ms, "tags").value else Arr([])
  }

  /** `t.name` of one global tag: nothing when undefined, a TypeError for null. */
  function NameOf(t: Json): (r: Result<seq<Json>>)
    ensures t.Null? ==> r == Failure(NullRead("name"))
    ensures r.Success? ==> |r.value| <= 1
    ensures r.Success? && |r.value| == 1 ==> t.Obj? && Get(t.members, "name") == Some(r.value[0])
    ensures t.Obj? && Get(t.members, "name").Some? ==> r == Success([Get(t.members, "name").value])
  {
    match t
    case Null => Failure(NullRead("name"))
    case Obj(ms) => if Get(ms, "name").Some? then Success([Get(ms, "name").value]) else Success([])
    case _ => Success([])
  }

  /** `spec.tags.map((t) => t.name)`, keeping only the names that are defined. */
  function Names(ts: seq<Json>): Result<seq<Json>>
    decreases |ts|
  {
    if ts == [] then Success([])
    else
      var init :- Names(ts[..|ts| - 1]);
      var last :- NameOf(ts[|ts| - 1]);
      Success(init + last)
  }

  /** `existingTags.has(tag)`: objects never match, as no two places of the tree share one. */
  predicate Existing(tag: Json, names: seq<Json>) {
    IsPrimitive(tag) && tag in names
  }

  /** `{ name: tag, description: `${tag} operations` }`. */
  function TagEntry(tag: Json): (r: Json)
    ensures r.Obj? && Get(r.members, "name") == Some(tag)
    ensures Get(r.members, "description") == Some(Str(JsString(tag) + " operations"))
  {
    Obj([Member("name", tag), Member("description", Str(JsString(tag) + " operations"))])
  }

  /** The entries pushed for the used tags that are not named yet, in order. */
  function Added(used: seq<Json>, names: seq<Json>): seq<Json>
    decreases |used|
  {
    if used == [] then []
    else
      var tag := used[|used| - 1];
      Added(used[..|used| - 1], names) + (if Existing(tag, names) then [] else [TagEntry(tag)])
  }

  /** fixMissingGlobalTags on an object spec. */
  function GlobalTagsFixed(spec: Json): (r: Result<Json>)
    requires spec.Obj?
    ensures r.Success? ==> r.value.Obj? && forall k :: k != "tags" ==> Get(r.value.members, k) == Get(spec.members, k)
  {
    var used :- UsedTags(spec);
    var list := TagList(spec.members);
    if !list.Arr? then Failure(NotAFunction("spec.tags.map"))
    else
      var names :- Names(list.elems);
      Success(Obj(Put(spec.members, "tags", Arr(list.elems + Added(used, names)))))
  }

  /** The defined names are the names of the object entries, in order. */
  lemma {:induction false} NamesExact(ts: seq<Json>, x: Json)
    requires Names(ts).Success?
    ensures x in Names(ts).value <==> exists j :: 0 <= j < |ts| && NamesTag(ts[j], x)
    decreases |ts|
  {
    if ts != [] {
      NamesLast(ts);
      NamesExact(ts[..|ts| - 1], x);
      NameOfNames(ts[|ts| - 1], x);
      SplitLast(ts);
      NamedSplit(ts[..|ts| - 1], ts[|ts| - 1], x);
    }
  }

  /** An entry of `init + [last]` is named `x` when one of `init` is, or `last` is. */
  lemma NamedSplit(init: seq<Json>, last: Json, x: Json)
    ensures (exists j :: 0 <= j < |init + [last]| && NamesTag((init + [last])[j], x)) <==>
      (exists j :: 0 <= j < |init| && NamesTag(init[j], x)) || NamesTag(last, x)
  {
    var ts := init + [last];
    if exists j :: 0 <= j < |ts| && NamesTag(ts[j], x) {
      var j :| 0 <= j < |ts| && NamesTag(ts[j], x);
      if j < |init| {
        assert init[j] == ts[j];
      } else {
        assert ts[j] == last;
      }
    }
    if exists j :: 0 <= j < |init| && NamesTag(init[j], x) {
      var j :| 0 <= j < |init| && NamesTag(init[j], x);
      assert ts[j] == init[j];
    }
    if NamesTag(last, x) {
      assert ts[|init|] == last;
    }
  }

  lemma SplitLast(ts: seq<Json>)
    requires ts != []
    ensures ts == ts[..|ts| - 1] + [ts[|ts| - 1]]
  {
  }

  /** The name one entry contributes is `x` exactly when the entry is named `x`. */
  lemma NameOfNames(t: Json, x: Json)
    requires NameOf(t).Success?
    ensures x in NameOf(t).value <==> NamesTag(t, x)
  {
  }

  /** The names of a non-empty list: those before its last entry, then the last one's. */
  lemma NamesLast(ts: seq<Json>)
    requires ts != [] && Names(ts).Success?
    ensures Names(ts[..|ts| - 1]).Success? && NameOf(ts[|ts| - 1]).Success?
    ensures Names(ts).value == Names(ts[..|ts| - 1]).value + NameOf(ts[|ts| - 1]).value
  {
  }

  /** A used tag that no entry names gets its entry added. */
  lemma {:induction false} AddedIncludes(used: seq<Json>, names: seq<Json>, tag: Json)
    requires tag in used && !Existing(tag, names)
    ensures TagEntry(tag) in Added(used, names)
    decreases |used|
  {
    var init := used[..|used| - 1];
    assert used == init + [used[|used| - 1]];
    if tag != used[|used| - 1] {
      AddedIncludes(init, names, tag);
    }
  }

  /** Each used tag either is named already or has its entry added; the added entries are exactly those. */
  lemma {:induction false} AddedExact(used: seq<Json>, names: seq<Json>, tag: Json)
    ensures tag in used && !Existing(tag, names) ==> TagEntry(tag) in Added(used, names)
    ensures forall e :: e in Added(used, names) ==> exists t :: t in used && !Existing(t, names) && e == TagEntry(t)
    decreases |used|
  {
    if used != [] {
      var init := used[..|used| - 1];
      AddedExact(init, names, tag);
      assert used == init + [used[|used| - 1]];
    }
    if tag in used && !Existing(tag, names) {
      AddedIncludes(used, names, tag);
    }
  }

  /**
    After fixMissingGlobalTags every tag an operation uses is named by an
    entry of `spec.tags`: by one that was there, or by the entry added for it.
   */
  lemma TagsCovered(spec: Json, tag: Json)
    requires spec.Obj? && GlobalTagsFixed(spec).Success?
    requires AllTags(Children(PathsOf(spec))).Success? && tag in AllTags(Children(PathsOf(spec))).value
    ensures var tags := Get(GlobalTagsFixed(spec).value.members, "tags");
      && tags.Some? && tags.value.Arr?
      && exists j :: 0 <= j < |tags.value.elems| && NamesTag(tags.value.elems[j], tag)
  {
    var all := AllTags(Children(PathsOf(spec))).value;
    FixedTagList(spec);
    assert UsedTags(spec).value == Dedup(all);
    DedupContents(all);
    var list := TagList(spec.members).elems;
    ListCovers(list, UsedTags(spec).value, tag);
  }

  /** The entry `e` is an object whose `name` is `tag`. */
  predicate NamesTag(e: Json, tag: Json) {
    e.Obj? && Get(e.members, "name") == Some(tag)
  }

  /** A used tag is named by an entry of the old list or of the added ones. */
  lemma ListCovers(list: seq<Json>, used: seq<Json>, tag: Json)
    requires Names(list).Success? && tag in used
    ensures exists j :: (0 <= j < |list + Added(used, Names(list).value)|
                         && NamesTag((list + Added(used, Names(list).value))[j], tag))
  {
    var names := Names(list).value;
    if Existing(tag, names) {
      NamesExact(list, tag);
      NamedInOld(list, Added(used, names), tag);
    } else {
      AddedIncludes(used, names, tag);
      NamedInAdded(list, Added(used, names), tag);
    }
  }

  lemma NamedInOld(list: seq<Json>, added: seq<Json>, tag: Json)
    requires exists j :: 0 <= j < |list| && NamesTag(list[j], tag)
    ensures exists j :: 0 <= j < |list + added| && NamesTag((list + added)[j], tag)
  {
    var j :| 0 <= j < |list| && NamesTag(list[j], tag);
    assert (list + added)[j] == list[j];
  }

  lemma NamedInAdded(list: seq<Json>, added: seq<Json>, tag: Json)
    requires TagEntry(tag) in added
    ensures exists j :: 0 <= j < |list + added| && NamesTag((list + added)[j], tag)
  {
    var k :| 0 <= k < |added| && added[k] == TagEntry(tag);
    assert (list + added)[|list| + k] == TagEntry(tag);
  }

  /** A fix that completes leaves the old list followed by the added entries in `tags`. */
  lemma FixedTagList(spec: Json)
    requires spec.Obj? && GlobalTagsFixed(spec).Success?
    ensures UsedTags(spec).Success? && TagList(spec.members).Arr? && Names(TagList(spec.members).elems).Success?
    ensures var list := TagList(spec.members).elems;
      Get(GlobalTagsFixed(spec).value.members, "tags") ==
        Some(Arr(list + Added(UsedTags(spec).value, Names(list).value)))
  {
  }

  /**
    The entries that were there stay first and unchanged; every entry after
    them is `{name: t, description: "<t> operations"}` for a used tag `t`
    that no entry named.
   */
  lemma TagsKept(spec: Json)
    requires spec.Obj? && GlobalTagsFixed(spec).Success?
    ensures TagList(spec.members).Arr? && UsedTags(spec).Success? && Names(TagList(spec.members).elems).Success?
    ensures Get(GlobalTagsFixed(spec).value.members, "tags").Some?
    ensures Get(GlobalTagsFixed(spec).value.members, "tags").value.Arr?
    ensures KeptThenAdded(TagList(spec.members).elems, Get(GlobalTagsFixed(spec).value.members, "tags").value.elems,
                          UsedTags(spec).value, Names(TagList(spec.members).elems).value)
  {
    FixedTagList(spec);
    var list := TagList(spec.members).elems;
    ListKeptThenAdded(list, UsedTags(spec).value, Names(list).value);
  }

  /** `tags` starts with `list`, and each entry after it is the one pushed for a used tag no entry names. */
  predicate KeptThenAdded(list: seq<Json>, tags: seq<Json>, used: seq<Json>, names: seq<Json>) {
    && |tags| >= |list| && tags[..|list|] == list
    && forall j :: |list| <= j < |tags| ==> EntryForUnnamed(tags[j], used, names)
  }

  /** `e` is the entry pushed for a used tag that no entry names. */
  predicate EntryForUnnamed(e: Json, used: seq<Json>, names: seq<Json>) {
    exists t :: t in used && !Existing(t, names) && e == TagEntry(t)
  }

  lemma ListKeptThenAdded(list: seq<Json>, used: seq<Json>, names: seq<Json>)
    ensures KeptThenAdded(list, list + Added(used, names), used, names)
  {
    var added := Added(used, names);
    var tags := list + added;
    forall j | |list| <= j < |tags|
      ensures EntryForUnnamed(tags[j], used, names)
    {
      assert tags[j] == added[j - |list|] && added[j - |list|] in added;
      AddedExact(used, names, tags[j]);
    }
    assert tags[..|list|] == list;
  }

  /** The loop over the methods of one path item, gathering their tags. */
  method PathItemTagList(item: Json) returns (r: Result<seq<Json>>)
    ensures r == PathItemTags(item)
  {
    if item.Null? {
      return Failure(NullRead("get"));
    } else if !item.Obj? {
      return Success([]);
    }
    var ms := item.members;
    var tags: seq<Json> := [];
    var k := 0;
    while k < |Methods|
      invariant 0 <= k <= |Methods|
      invariant MethodTags(ms, Methods[..k]) == Success(tags)
    {
      assert Methods[..k + 1][..k] == Methods[..k];
      var here := OperationTags(Get(ms, Methods[k]));
      if here.Failure? {
        assert MethodTags(ms, Methods[..k + 1]).Failure?;
        MethodTagsStop(ms, k + 1);
        return Failure(here.error);
      }
      tags := tags + here.value;
      k := k + 1;
    }
    assert Methods[..|Methods|] == Methods;
    return Success(tags);
  }

  /** A TypeError under one method is the error of the whole item. */
  lemma {:induction false} MethodTagsStop(ms: seq<Member>, k: nat)
    requires 0 < k <= |Methods| && MethodTags(ms, Methods[..k]).Failure?
    ensures MethodTags(ms, Methods) == MethodTags(ms, Methods[..k])
    decreases |Methods| - k
  {
    if k < |Methods| {
      assert Methods[..k + 1][..k] == Methods[..k];
      MethodTagsStop(ms, k + 1);
    } else {
      assert Methods[..k] == Methods;
    }
  }

  /** A TypeError in one path item is the error of the whole series. */
  lemma {:induction false} AllTagsStop(items: seq<Json>, i: nat, n: nat)
    requires 0 < i <= n <= |items| && AllTags(items[..i]).Failure?
    ensures AllTags(items[..n]) == AllTags(items[..i])
  {
    assert items[..n] == items[..i] + items[i..n];
    AllTagsFailedBefore(items[..i], items[i..n]);
  }

  lemma {:induction false} AllTagsFailedBefore(xs: seq<Json>, ys: seq<Json>)
    requires AllTags(xs).Failure?
    ensures AllTags(xs + ys).Failure? && AllTags(xs + ys).error == AllTags(xs).error
    decreases |ys|
  {
    if ys == [] {
      assert xs + ys == xs;
    } else {
      AllTagsFailedBefore(xs, ys[..|ys| - 1]);
      DropLastOfConcat(xs, ys);
      AllTagsFailed(xs + ys);
    }
  }

  lemma DropLastOfConcat(xs: seq<Json>, ys: seq<Json>)
    requires ys != []
    ensures (xs + ys)[..|xs + ys| - 1] == xs + ys[..|ys| - 1]
  {
  }

  lemma AllTagsFailed(xs: seq<Json>)
    requires xs != [] && AllTags(xs[..|xs| - 1]).Failure?
    ensures AllTags(xs).Failure? && AllTags(xs).error == AllTags(xs[..|xs| - 1]).error
  {
  }

  /** Adding one value to the Set. */
  lemma DedupSnoc(xs: seq<Json>, x: Json)
    ensures Dedup(xs + [x]) == if IsPrimitive(x) && x in Dedup(xs) then Dedup(xs) else Dedup(xs) + [x]
  {
    assert (xs + [x])[..|xs + [x]| - 1] == xs;
  }

  /** `usedTags.add(tag)` for each tag of a list, in order. */
  method AddToSet(used: seq<Json>, tags: seq<Json>, ghost seen: seq<Json>) returns (r: seq<Json>)
    requires used == Dedup(seen)
    ensures r == Dedup(seen + tags)
  {
    r := used;
    var k := 0;
    assert seen + tags[..0] == seen;
    while k < |tags|
      invariant 0 <= k <= |tags|
      invariant r == Dedup(seen + tags[..k])
    {
      var tag := tags[k];
      assert seen + tags[..k + 1] == (seen + tags[..k]) + [tag];
      DedupSnoc(seen + tags[..k], tag);
      if !(IsPrimitive(tag) && tag in r) {
        r := r + [tag];
      }
      k := k + 1;
    }
    assert tags[..|tags|] == tags;
  }

  /** fixMissingGlobalTags: gather the used tags, read the existing names, append the missing entries. */
  method FixMissingGlobalTags(spec: Json) returns (r: Result<Json>)
    requires spec.Obj?
    ensures r == GlobalTagsFixed(spec)
  {
    var used := CollectUsedTags(Children(PathsOf(spec)));
    if used.Failure? {
      return Failure(used.error);
    }
    var list := TagList(spec.members);
    if !list.Arr? {
      return Failure(NotAFunction("spec.tags.map"));
    }
    var names := ExistingNames(list.elems);
    if names.Failure? {
      return Failure(names.error);
    }
    var added := MissingTagEntries(used.value, names.value);
    return Success(Obj(Put(spec.members, "tags", Arr(list.elems + added))));
  }

  /** The loops that fill `usedTags`, path item by path item. */
  method CollectUsedTags(items: seq<Json>) returns (r: Result<seq<Json>>)
    ensures r == UsedIn(items)
  {
    var used: seq<Json> := [];
    ghost var seen: seq<Json> := [];
    var i := 0;
    while i < |items|
      invariant 0 <= i <= |items|
      invariant AllTags(items[..i]) == Success(seen) && used == Dedup(seen)
    {
      AllTagsStep(items, i, seen);
      var t := PathItemTagList(items[i]);
      if t.Failure? {
        AllTagsStop(items, i + 1, |items|);
        assert items[..|items|] == items;
        return Failure(t.error);
      }
      used := AddToSet(used, t.value, seen);
      seen := seen + t.value;
      i := i + 1;
    }
    assert items[..|items|] == items;
    return Success(used);
  }

  /** One more path item adds its tags, or its TypeError ends the walk. */
  lemma AllTagsStep(items: seq<Json>, i: nat, seen: seq<Json>)
    requires i < |items| && AllTags(items[..i]) == Success(seen)
    ensures PathItemTags(items[i]).Failure? ==> AllTags(items[..i + 1]) == Failure(PathItemTags(items[i]).error)
    ensures PathItemTags(items[i]).Success? ==> AllTags(items[..i + 1]) == Success(seen + PathItemTags(items[i]).value)
  {
    assert items[..i + 1][..i] == items[..i];
  }

  /** The loop over `usedTags` that pushes an entry for every tag not yet named. */
  method MissingTagEntries(used: seq<Json>, names: seq<Json>) returns (added: seq<Json>)
    ensures added == Added(used, names)
  {
    added := [];
    var k := 0;
    while k < |used|
      invariant 0 <= k <= |used|
      invariant added == Added(used[..k], names)
    {
      assert used[..k + 1][..k] == used[..k];
      if !Existing(used[k], names) {
        added := added + [TagEntry(used[k])];
      }
      k := k + 1;
    }
    assert used[..|used|] == used;
  }

  /** `spec.tags.map((t) => t.name)`, one entry after the other. */
  method ExistingNames(ts: seq<Json>) returns (r: Result<seq<Json>>)
    ensures r == Names(ts)
  {
    var names: seq<Json> := [];
    var j := 0;
    while j < |ts|
      invariant 0 <= j <= |ts|
      invariant Names(ts[..j]) == Success(names)
    {
      var n := NameOf(ts[j]);
      NamesTurn(ts, j, names);
      if n.Failure? {
        return Failure(n.error);
      }
      names := names + n.value;
      j := j + 1;
    }
    assert ts[..|ts|] == ts;
    return Success(names);
  }

  /** One entry of the map: its name is appended, or its TypeError ends the map. */
  lemma NamesTurn(ts: seq<Json>, j: nat, names: seq<Json>)
    requires j < |ts| && Names(ts[..j]) == Success(names)
    ensures NameOf(ts[j]).Success? ==> Names(ts[..j + 1]) == Success(names + NameOf(ts[j]).value)
    ensures NameOf(ts[j]).Failure? ==> Names(ts) == Failure(NameOf(ts[j]).error)
  {
    var p := ts[..j + 1];
    assert p[..|p| - 1] == ts[..j] && p[|p| - 1] == ts[j];
    if NameOf(ts[j]).Failure? {
      NamesStop(ts, j + 1, |ts|);
      assert ts[..|ts|] == ts;
    }
  }

  /** A TypeError at one entry is the error of the whole map. */
  lemma {:induction false} NamesStop(ts: seq<Json>, j: nat, n: nat)
    requires 0 < j <= n <= |ts| && Names(ts[..j]).Failure?
    ensures Names(ts[..n]) == Names(ts[..j])
    decreases n - j
  {
    if n > j {
      NamesStop(ts, j, n - 1);
      assert ts[..n][..n - 1] == ts[..n - 1];
    }
  }
}
