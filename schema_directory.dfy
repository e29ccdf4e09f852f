/** The schema directory: a store of schema documents keyed by their `$id`,
    and the recursive resolution of `<schema-id>#<pointer>` references against
    it, with local-reference qualification, merging of `$ref` chains and
    cycle detection. */
module Schemas {
  import opened Wrappers
  import opened Json
  import JsonPointer
  import Text

  /** The key under which the pattern being processed is registered, and the
      schema id a top-level resolution starts from. */
  const PatternKey: string := "pattern"

  // ---------------------------------------------------------------------
  // References inside documents
  // ---------------------------------------------------------------------

  /** A local reference: a string value starting with `#`. */
  predicate IsLocalRef(v: Json) {
    v.JString? && Text.StartsWith(v.s, "#")
  }

  /** Every string value held by a `$ref` member anywhere in `j`. */
  function RefsOf(j: Json): set<string> {
    match j
    case JArray(items) => set i, r | 0 <= i < |items| && r in RefsOf(items[i]) :: r
    case JObject(ms) =>
      (set i | 0 <= i < |ms| && ms[i].0 == "$ref" && ms[i].1.JString? :: ms[i].1.s)
      + (set i, r | 0 <= i < |ms| && r in RefsOf(ms[i].1) :: r)
    case _ => {}
  }

  /** The reference a definition delegates to: a truthy string `$ref` at its root. */
  function RootRef(d: Json): Option<string> {
    match Field(d, "$ref")
    case Some(JString(s)) => if s != "" then Some(s) else None
    case _ => None
  }

  lemma RootRefInRefs(d: Json)
    requires RootRef(d).Some?
    ensures RootRef(d).value in RefsOf(d)
  {
    var i := KeyIndex(d.members, "$ref");
    assert d.members[i].1 == JString(RootRef(d).value);
  }

  /** A value reached by one pointer step holds no reference its parent lacks. */
  lemma StepRefs(j: Json, tok: string)
    requires JsonPointer.Step(j, tok).Some?
    ensures RefsOf(JsonPointer.Step(j, tok).value) <= RefsOf(j)
  {
    var c := JsonPointer.Step(j, tok).value;
    if j.JObject? {
      var i := KeyIndex(j.members, tok);
      assert c == j.members[i].1;
      forall r | r in RefsOf(c) ensures r in RefsOf(j) {
        assert 0 <= i < |j.members| && r in RefsOf(j.members[i].1);
      }
    } else {
      var k := JsonPointer.DigitsValue(tok);
      assert c == j.items[k];
    }
  }

  lemma {:induction false} WalkRefs(j: Json, tokens: seq<string>)
    requires JsonPointer.Walk(j, tokens).Some?
    ensures RefsOf(JsonPointer.Walk(j, tokens).value) <= RefsOf(j)
    decreases |tokens|
  {
    if tokens != [] {
      var c := JsonPointer.Step(j, tokens[0]).value;
      StepRefs(j, tokens[0]);
      WalkRefs(c, tokens[1..]);
    }
  }

  /** Every `$ref` string held anywhere in the stored documents. */
  function AllRefs(store: map<string, Json>): set<string> {
    set id, r | id in store && r in RefsOf(store[id]) :: r
  }

  // ---------------------------------------------------------------------
  // Qualification of local references
  // ---------------------------------------------------------------------

  /** `qualifyLocalReferences`: every `$ref` member whose value is a local
      reference gets the schema id in front of it; nothing else changes. */
  function Qualify(j: Json, schemaId: string): Json {
    match j
    case JArray(items) => JArray(seq(|items|, i requires 0 <= i < |items| => Qualify(items[i], schemaId)))
    case JObject(ms) =>
      JObject(seq(|ms|, i requires 0 <= i < |ms| =>
        if ms[i].0 == "$ref" && IsLocalRef(ms[i].1) then (ms[i].0, JString(schemaId + ms[i].1.s))
        else (ms[i].0, Qualify(ms[i].1, schemaId))))
    case _ => j
  }

  /** What qualification makes of the value found at the end of `tokens`. */
  function QualifiedAt(v: Json, tokens: seq<string>, schemaId: string): Json {
    if |tokens| > 0 && tokens[|tokens| - 1] == "$ref" && IsLocalRef(v) then JString(schemaId + v.s)
    else Qualify(v, schemaId)
  }

  /** No `$ref` member anywhere holds a local reference. */
  predicate NoLocalRefs(j: Json) {
    match j
    case JArray(items) => forall i | 0 <= i < |items| :: NoLocalRefs(items[i])
    case JObject(ms) => forall i | 0 <= i < |ms| :: !(ms[i].0 == "$ref" && IsLocalRef(ms[i].1)) && NoLocalRefs(ms[i].1)
    case _ => true
  }

  lemma KeyIndexSameNames(a: seq<(string, Json)>, b: seq<(string, Json)>, key: string)
    requires |a| == |b| && forall i | 0 <= i < |a| :: a[i].0 == b[i].0
    ensures KeyIndex(a, key) == KeyIndex(b, key)
  {
    if |a| > 0 {
      KeyIndexSameNames(a[1..], b[1..], key);
    }
  }

  /** One pointer step commutes with qualification. */
  lemma QualifyStep(j: Json, schemaId: string, tok: string)
    ensures JsonPointer.Step(Qualify(j, schemaId), tok) ==
      match JsonPointer.Step(j, tok)
      case None => None
      case Some(c) => Some(QualifiedAt(c, [tok], schemaId))
  {
    match j
    case JObject(ms) =>
      var qs := Qualify(j, schemaId).members;
      KeyIndexSameNames(ms, qs, tok);
    case JArray(items) =>
    case _ =>
  }

  /** Qualification seen through any pointer: the same paths exist, a local
      reference held by a `$ref` member is prefixed with the schema id, and
      every other string, number, boolean and member name is unchanged. */
  lemma {:induction false} QualifyWalk(j: Json, schemaId: string, tokens: seq<string>)
    ensures JsonPointer.Walk(Qualify(j, schemaId), tokens) ==
      match JsonPointer.Walk(j, tokens)
      case None => None
      case Some(v) => Some(QualifiedAt(v, tokens, schemaId))
    decreases |tokens|
  {
    if tokens != [] {
      var rest := tokens[1..];
      QualifyStep(j, schemaId, tokens[0]);
      match JsonPointer.Step(j, tokens[0])
      case None =>
      case Some(c) =>
        if |rest| == 0 {
          assert tokens == [tokens[0]];
        } else {
          assert tokens[|tokens| - 1] == rest[|rest| - 1];
          if tokens[0] == "$ref" && IsLocalRef(c) {
            assert JsonPointer.Walk(JString(schemaId + c.s), rest) == None;
            assert JsonPointer.Walk(c, rest) == None;
          } else {
            QualifyWalk(c, schemaId, rest);
          }
        }
    }
  }

  /** Qualifying with a real schema id leaves no local reference behind. */
  lemma {:induction false} QualifyLeavesNoLocalRefs(j: Json, schemaId: string)
    requires schemaId != "" && schemaId[0] != '#'
    ensures NoLocalRefs(Qualify(j, schemaId))
  {
    match j
    case JArray(items) =>
      forall i | 0 <= i < |items| ensures NoLocalRefs(Qualify(items[i], schemaId)) {
        QualifyLeavesNoLocalRefs(items[i], schemaId);
      }
    case JObject(ms) =>
      var qs := Qualify(j, schemaId).members;
      forall i | 0 <= i < |ms| ensures !(qs[i].0 == "$ref" && IsLocalRef(qs[i].1)) && NoLocalRefs(qs[i].1) {
        if ms[i].0 == "$ref" && IsLocalRef(ms[i].1) {
          assert qs[i].1 == JString(schemaId + ms[i].1.s);
          assert (schemaId + ms[i].1.s)[0] == schemaId[0];
        } else {
          QualifyLeavesNoLocalRefs(ms[i].1, schemaId);
        }
      }
    case _ =>
  }

  /** A document without local references is left as it is. */
  lemma {:induction false} QualifyFixesQualified(j: Json, schemaId: string)
    requires NoLocalRefs(j)
    ensures Qualify(j, schemaId) == j
  {
    match j
    case JArray(items) =>
      forall i | 0 <= i < |items| ensures Qualify(items[i], schemaId) == items[i] {
        QualifyFixesQualified(items[i], schemaId);
      }
      assert Qualify(j, schemaId).items == items;
    case JObject(ms) =>
      forall i | 0 <= i < |ms| ensures Qualify(j, schemaId).members[i] == ms[i] {
        QualifyFixesQualified(ms[i].1, schemaId);
      }
      assert Qualify(j, schemaId).members == ms;
    case _ =>
  }

  /** Qualifying twice with the same real schema id is qualifying once. */
  lemma QualifyIdempotent(j: Json, schemaId: string)
    requires schemaId != "" && schemaId[0] != '#'
    ensures Qualify(Qualify(j, schemaId), schemaId) == Qualify(j, schemaId)
  {
    QualifyLeavesNoLocalRefs(j, schemaId);
    QualifyFixesQualified(Qualify(j, schemaId), schemaId);
  }

  // ---------------------------------------------------------------------
  // Merging a resolved inner definition with the outer one
  // ---------------------------------------------------------------------

  /** The members of `a` whose name `b` does not declare, in order. */
  function Without(a: seq<(string, Json)>, b: seq<(string, Json)>): (r: seq<(string, Json)>)
    ensures Names(r) == Names(a) - Names(b)
    ensures forall k | k !in Names(b) :: Get(r, k) == Get(a, k)
  {
    if |a| == 0 then []
    else
      var rest := Without(a[1..], b);
      assert Names(a) == {a[0].0} + Names(a[1..]);
      NamesAppend([a[0]], rest);
      assert [a[0]][0].0 == a[0].0;
      assert Names([a[0]]) == {a[0].0};
      if a[0].0 in Names(b) then rest else [a[0]] + rest
  }

  /** The items of `b` that `a` lacks, in order. */
  function NewItems(a: seq<Json>, b: seq<Json>): (r: seq<Json>)
    ensures forall x :: x in r <==> x in b && x !in a
  {
    if |b| == 0 then []
    else
      var rest := NewItems(a, b[1..]);
      if b[0] in a then rest else [b[0]] + rest
  }

  /** The items of `a`, then those of `b` that `a` lacks. */
  function UnionItems(a: seq<Json>, b: seq<Json>): seq<Json> {
    a + NewItems(a, b)
  }

  /** The merged value of one member the outer definition declares: `required`
      lists are united, `properties` objects are united with the outer member
      winning, and in every other case the outer value wins. */
  function MergeMember(key: string, inner: Option<Json>, outer: Json): Json {
    if inner.None? then outer
    else if key == "required" && inner.value.JArray? && outer.JArray? then
      JArray(UnionItems(inner.value.items, outer.items))
    else if key == "properties" && inner.value.JObject? && outer.JObject? then
      JObject(Without(inner.value.members, outer.members) + outer.members)
    else outer
  }

  /** `mergeSchemas(inner, outer)`. */
  function MergeSchemas(inner: Json, outer: Json): Json {
    if !outer.JObject? then outer
    else
      var im := if inner.JObject? then inner.members else [];
      var om := outer.members;
      JObject(Without(im, om) + MergeMembers(im, om))
  }

  /** The outer members in order, each merged with the inner member of its name. */
  function MergeMembers(im: seq<(string, Json)>, om: seq<(string, Json)>): (r: seq<(string, Json)>)
    ensures |r| == |om|
    ensures forall i | 0 <= i < |om| :: r[i] == (om[i].0, MergeMember(om[i].0, Get(im, om[i].0), om[i].1))
  {
    if om == [] then [] else [(om[0].0, MergeMember(om[0].0, Get(im, om[0].0), om[0].1))] + MergeMembers(im, om[1..])
  }

  lemma GetAppend(a: seq<(string, Json)>, b: seq<(string, Json)>, key: string)
    ensures Get(a + b, key) == if key in Names(a) then Get(a, key) else Get(b, key)
  {
    GetNames(a, key);
    if |a| > 0 {
      assert (a + b)[1..] == a[1..] + b;
      assert Names(a) == {a[0].0} + Names(a[1..]);
      GetAppend(a[1..], b, key);
    } else {
      assert a + b == b;
    }
  }

  /** The value a merge gives to any member name. */
  lemma MergeField(inner: Json, outer: Json, key: string)
    requires outer.JObject?
    ensures Field(MergeSchemas(inner, outer), key) ==
      if Field(outer, key).Some? then Some(MergeMember(key, Field(inner, key), Field(outer, key).value))
      else Field(inner, key)
  {
    var im := if inner.JObject? then inner.members else [];
    var om := outer.members;
    var mapped := MergeMembers(im, om);
    var w := Without(im, om);
    GetAppend(w, mapped, key);
    KeyIndexSameNames(om, mapped, key);
    GetNames(om, key);
    GetNames(w, key);
    assert Field(inner, key) == Get(im, key);
  }

  /** The names of the `properties` object of a definition. */
  function PropertyNames(d: Json): set<string> {
    match Field(d, "properties")
    case Some(JObject(ms)) => Names(ms)
    case _ => {}
  }

  /** `properties`, if present, is an object. */
  predicate PropertiesShaped(d: Json) {
    Field(d, "properties").None? || Field(d, "properties").value.JObject?
  }

  /** The items of the `required` list of a definition. */
  function RequiredItems(d: Json): set<Json> {
    match Field(d, "required")
    case Some(JArray(xs)) => set x | x in xs
    case _ => {}
  }

  /** `required`, if present, is a list. */
  predicate RequiredShaped(d: Json) {
    Field(d, "required").None? || Field(d, "required").value.JArray?
  }

  /** The `properties` member of a merge, when both sides declare one. */
  lemma MergedPropertiesMembers(inner: Json, outer: Json)
    requires outer.JObject? && Field(inner, "properties").Some? && Field(outer, "properties").Some?
    requires Field(inner, "properties").value.JObject? && Field(outer, "properties").value.JObject?
    ensures Field(MergeSchemas(inner, outer), "properties") ==
      Some(JObject(Without(Field(inner, "properties").value.members, Field(outer, "properties").value.members)
        + Field(outer, "properties").value.members))
  {
    MergeField(inner, outer, "properties");
  }

  lemma NamesAppend(a: seq<(string, Json)>, b: seq<(string, Json)>)
    ensures Names(a + b) == Names(a) + Names(b)
  {
    forall k | k in Names(a + b) ensures k in Names(a) + Names(b) {
      var i :| 0 <= i < |a + b| && (a + b)[i].0 == k;
      if i >= |a| { assert b[i - |a|].0 == k; }
    }
    forall k | k in Names(a) + Names(b) ensures k in Names(a + b) {
      if k in Names(a) {
        var i :| 0 <= i < |a| && a[i].0 == k;
        assert (a + b)[i].0 == k;
      } else {
        var i :| 0 <= i < |b| && b[i].0 == k;
        assert (a + b)[|a| + i].0 == k;
      }
    }
  }

  /** Merging keeps the properties declared on either side. */
  lemma MergeKeepsProperties(inner: Json, outer: Json)
    requires outer.JObject? && PropertiesShaped(inner) && PropertiesShaped(outer)
    ensures PropertyNames(MergeSchemas(inner, outer)) == PropertyNames(inner) + PropertyNames(outer)
  {
    var m := MergeSchemas(inner, outer);
    var fi := Field(inner, "properties");
    var fo := Field(outer, "properties");
    MergeField(inner, outer, "properties");
    PropertyNamesOf(m, Field(m, "properties"));
    PropertyNamesOf(inner, fi);
    PropertyNamesOf(outer, fo);
    if fo.Some? {
      MergePropertiesMember(fi, fo.value);
      if fi.Some? {
        NamesAppend(Without(fi.value.members, fo.value.members), fo.value.members);
      }
    }
  }

  lemma PropertyNamesOf(d: Json, f: Option<Json>)
    requires Field(d, "properties") == f
    ensures PropertyNames(d) == if f.Some? && f.value.JObject? then Names(f.value.members) else {}
  {
  }

  lemma MergePropertiesMember(inner: Option<Json>, outer: Json)
    ensures MergeMember("properties", inner, outer) ==
      if inner.Some? && inner.value.JObject? && outer.JObject? then JObject(Without(inner.value.members, outer.members) + outer.members)
      else outer
  {
  }

  /** Where both sides declare a property, the merge holds the outer one. */
  lemma MergeOuterPropertyWins(inner: Json, outer: Json, k: string)
    requires outer.JObject? && PropertiesShaped(inner)
    requires Field(outer, "properties").Some? && Field(outer, "properties").value.JObject?
    requires k in PropertyNames(outer)
    ensures Field(MergeSchemas(inner, outer), "properties").Some?
    ensures Field(MergeSchemas(inner, outer), "properties").value.JObject?
    ensures Get(Field(MergeSchemas(inner, outer), "properties").value.members, k)
         == Get(Field(outer, "properties").value.members, k)
  {
    MergeField(inner, outer, "properties");
    if Field(inner, "properties").Some? {
      var ip := Field(inner, "properties").value.members;
      var op := Field(outer, "properties").value.members;
      MergedPropertiesMembers(inner, outer);
      GetAppend(Without(ip, op), op, k);
    }
  }

  /** Merging unites the `required` lists of both sides. */
  lemma MergeUnitesRequired(inner: Json, outer: Json)
    requires outer.JObject? && RequiredShaped(inner) && RequiredShaped(outer)
    ensures RequiredItems(MergeSchemas(inner, outer)) == RequiredItems(inner) + RequiredItems(outer)
  {
    MergeField(inner, outer, "required");
  }

  /** Every other member the outer definition declares keeps its outer
      value; a member only the inner one declares keeps its inner value. */
  lemma MergePrecedence(inner: Json, outer: Json, key: string)
    requires outer.JObject? && key != "required" && key != "properties"
    ensures Field(outer, key).Some? ==> Field(MergeSchemas(inner, outer), key) == Field(outer, key)
    ensures Field(outer, key).None? ==> Field(MergeSchemas(inner, outer), key) == Field(inner, key)
  {
    MergeField(inner, outer, key);
  }

  // ---------------------------------------------------------------------
  // Recursive resolution
  // ---------------------------------------------------------------------

  /** `definitionReference.split('#')`: the schema id before the first `#`,
      and the pointer between it and the next `#` (absent without a `#`). */
  function SplitReference(ref: string): (string, Option<string>) {
    var parts := Text.Split(ref, '#');
    (parts[0], if |parts| >= 2 then Some(parts[1]) else None)
  }

  /** `lookupDefinition`: the value a pointer addresses in a stored, truthy schema. */
  function LookupDefinition(store: map<string, Json>, schemaId: string, pointer: Option<string>): Option<Json> {
    if schemaId !in store || !Truthy(store[schemaId]) || pointer.None? then None
    else JsonPointer.Lookup(store[schemaId], pointer.value)
  }

  /** `getMissingSchemaPlaceholder`. */
  function MissingSchemaPlaceholder(ref: string): Json {
    JObject([("properties", JObject([("missing-value", JString("MISSING OBJECT, ref: " + ref + " could not be resolved"))]))])
  }

  /** The definition a resolution returns, and the visited list as the call
      leaves it (the source pushes onto one array shared by the whole chain). */
  datatype Resolution = Resolution(definition: Json, visited: seq<string>)

  /** The references in the store that a resolution may still follow. */
  function Unvisited(store: map<string, Json>, visited: seq<string>, ref: string): set<string> {
    AllRefs(store) - (set x | x in visited) - {ref}
  }

  lemma FollowedRefIsStored(store: map<string, Json>, schemaId: string, pointer: Option<string>)
    requires LookupDefinition(store, schemaId, pointer).Some?
    requires RootRef(LookupDefinition(store, schemaId, pointer).value).Some?
    ensures RootRef(LookupDefinition(store, schemaId, pointer).value).value in AllRefs(store)
  {
    var d := LookupDefinition(store, schemaId, pointer).value;
    var tokens := JsonPointer.Parse(pointer.value).value;
    WalkRefs(store[schemaId], tokens);
    RootRefInRefs(d);
  }

  lemma UnvisitedShrinks(store: map<string, Json>, visited: seq<string>, ref: string, next: string)
    requires next in AllRefs(store) && next !in visited + [ref]
    ensures Unvisited(store, visited + [ref], next) == Unvisited(store, visited, ref) - {next}
    ensures |Unvisited(store, visited + [ref], next)| < |Unvisited(store, visited, ref)|
  {
    assert (set x | x in visited + [ref]) == (set x | x in visited) + {ref};
    assert next in Unvisited(store, visited, ref);
  }

  /** `getDefinitionRecursive(ref, currentSchemaId, visited)`. */
  function Resolve(store: map<string, Json>, ref: string, currentSchemaId: string, visited: seq<string>): Resolution
    decreases |Unvisited(store, visited, ref)|
  {
    var (id, pointer) := SplitReference(ref);
    var visited' := visited + [ref];
    var schemaId := if id == "" then currentSchemaId else id;
    var found := LookupDefinition(store, schemaId, pointer);
    if found.None? || !Truthy(found.value) then Resolution(MissingSchemaPlaceholder(ref), visited')
    else
      var d := found.value;
      match RootRef(d)
      case None => Resolution(Qualify(d, schemaId), visited')
      case Some(next) =>
        if next in visited' then Resolution(d, visited')
        else
          FollowedRefIsStored(store, schemaId, pointer);
          UnvisitedShrinks(store, visited, ref, next);
          var inner := Resolve(store, next, schemaId, visited');
          Resolution(Qualify(MergeSchemas(inner.definition, d), schemaId), inner.visited)
  }

  /** The schema id a reference is resolved against. */
  function TargetSchema(ref: string, currentSchemaId: string): string {
    if SplitReference(ref).0 == "" then currentSchemaId else SplitReference(ref).0
  }

  /** What a visited list looks like after a resolution that started from
      `prefix + [ref]`: that prefix, then references from `all`, each one new. */
  predicate ChainFrom(xs: seq<string>, prefix: seq<string>, all: set<string>) {
    && |xs| >= |prefix|
    && xs[..|prefix|] == prefix
    && (forall i | |prefix| <= i < |xs| :: xs[i] in all && xs[i] !in xs[..i])
  }

  lemma ChainExtends(xs: seq<string>, visited: seq<string>, ref: string, next: string, all: set<string>)
    requires next in all && next !in visited + [ref]
    requires ChainFrom(xs, visited + [ref] + [next], all)
    ensures ChainFrom(xs, visited + [ref], all)
  {
    var p := visited + [ref];
    assert xs[..|p|] == (xs[..|p| + 1])[..|p|];
    assert xs[|p|] == next;
    assert xs[..|p|] == p;
  }

  /** The visited list a resolution leaves: the caller's list, the reference
      given, then only references taken from stored definitions, each one new. */
  lemma {:induction false} ResolveVisited(store: map<string, Json>, ref: string, currentSchemaId: string, visited: seq<string>)
    ensures ChainFrom(Resolve(store, ref, currentSchemaId, visited).visited, visited + [ref], AllRefs(store))
    decreases |Unvisited(store, visited, ref)|
  {
    var pointer := SplitReference(ref).1;
    var visited' := visited + [ref];
    var schemaId := TargetSchema(ref, currentSchemaId);
    var found := LookupDefinition(store, schemaId, pointer);
    if found.Some? && Truthy(found.value) && RootRef(found.value).Some? && RootRef(found.value).value !in visited' {
      var next := RootRef(found.value).value;
      FollowedRefIsStored(store, schemaId, pointer);
      UnvisitedShrinks(store, visited, ref, next);
      ResolveVisited(store, next, schemaId, visited');
      ChainExtends(Resolve(store, next, schemaId, visited').visited, visited, ref, next, AllRefs(store));
    }
  }

  /** A list without repetitions drawn from a finite set is no longer than the set. */
  lemma {:induction false} DistinctFitsInSet(xs: seq<string>, s: set<string>)
    requires forall i | 0 <= i < |xs| :: xs[i] in s && xs[i] !in xs[..i]
    ensures |xs| <= |s|
  {
    if |xs| > 0 {
      var last := xs[|xs| - 1];
      var init := xs[..|xs| - 1];
      forall i | 0 <= i < |init| ensures init[i] in s - {last} && init[i] !in init[..i] {
        assert init[..i] == xs[..i];
        assert xs[..|xs| - 1] == init;
      }
      DistinctFitsInSet(init, s - {last});
    }
  }

  /** Termination and depth: a top-level resolution makes at most one call
      more than there are distinct `$ref` strings in the store. */
  lemma ResolutionDepthBound(store: map<string, Json>, ref: string)
    ensures |Resolve(store, ref, PatternKey, []).visited| <= |AllRefs(store)| + 1
  {
    var r := Resolve(store, ref, PatternKey, []);
    ResolveVisited(store, ref, PatternKey, []);
    assert r.visited[..1] == [ref];
    var tail := r.visited[1..];
    forall i | 0 <= i < |tail| ensures tail[i] in AllRefs(store) && tail[i] !in tail[..i] {
      assert tail[i] == r.visited[i + 1];
      assert tail[..i] == r.visited[1..i + 1];
    }
    DistinctFitsInSet(tail, AllRefs(store));
  }

  lemma PlaceholderHasNoLocalRefs(ref: string)
    ensures NoLocalRefs(MissingSchemaPlaceholder(ref))
  {
    var inner := JObject([("missing-value", JString("MISSING OBJECT, ref: " + ref + " could not be resolved"))]);
    assert NoLocalRefs(inner);
  }

  /** The id part of a reference never contains `#`. */
  lemma TargetSchemaHasNoHash(ref: string, currentSchemaId: string)
    requires currentSchemaId != "" && '#' !in currentSchemaId
    ensures TargetSchema(ref, currentSchemaId) != "" && '#' !in TargetSchema(ref, currentSchemaId)
  {
  }

  /** Every local reference in a resolved definition has been qualified,
      except on the cycle break: a definition that still holds a local
      reference is a stored definition whose own `$ref` was already visited. */
  lemma {:induction false} OnlyCycleBreakLeavesLocalRefs(store: map<string, Json>, ref: string, currentSchemaId: string, visited: seq<string>)
    requires currentSchemaId != "" && '#' !in currentSchemaId
    ensures var r := Resolve(store, ref, currentSchemaId, visited);
      !NoLocalRefs(r.definition) ==> RootRef(r.definition).Some? && RootRef(r.definition).value in r.visited
    decreases |Unvisited(store, visited, ref)|
  {
    var (id, pointer) := SplitReference(ref);
    var visited' := visited + [ref];
    var schemaId := TargetSchema(ref, currentSchemaId);
    TargetSchemaHasNoHash(ref, currentSchemaId);
    assert schemaId[0] != '#' by { assert schemaId[0] in schemaId; }
    var found := LookupDefinition(store, schemaId, pointer);
    if found.None? || !Truthy(found.value) {
      PlaceholderHasNoLocalRefs(ref);
    } else {
      var d := found.value;
      match RootRef(d)
      case None => QualifyLeavesNoLocalRefs(d, schemaId);
      case Some(next) =>
        if next !in visited' {
          var inner := Resolve(store, next, schemaId, visited');
          QualifyLeavesNoLocalRefs(MergeSchemas(inner.definition, d), schemaId);
        }
    }
  }

  /** A reference written `<id>#<pointer>` splits back into its two parts,
      and one without `#` is all schema id and no pointer. */
  lemma SplitReferenceParts(id: string, pointer: string)
    requires '#' !in id && '#' !in pointer
    ensures SplitReference(id + "#" + pointer) == (id, Some(pointer))
    ensures SplitReference(id) == (id, None)
  {
    Text.SplitJoin([id, pointer], '#');
    assert Text.Join([id, pointer], '#') == id + "#" + pointer;
    Text.SplitJoin([id], '#');
  }

  /** A reference with nothing before `#` is looked up in the current schema. */
  lemma LocalReferenceUsesCurrentSchema(pointer: string, currentSchemaId: string)
    requires '#' !in pointer
    ensures TargetSchema("#" + pointer, currentSchemaId) == currentSchemaId
    ensures SplitReference("#" + pointer).1 == Some(pointer)
  {
    SplitReferenceParts("", pointer);
    assert "" + "#" + pointer == "#" + pointer;
  }

  /** An unknown schema, a pointer that addresses nothing, or a falsy value
      there gives exactly the placeholder naming the full reference. */
  lemma ResolveMissing(store: map<string, Json>, ref: string, currentSchemaId: string, visited: seq<string>)
    requires var found := LookupDefinition(store, TargetSchema(ref, currentSchemaId), SplitReference(ref).1);
      found.None? || !Truthy(found.value)
    ensures Resolve(store, ref, currentSchemaId, visited) == Resolution(MissingSchemaPlaceholder(ref), visited + [ref])
  {
  }

  /** In particular a reference into a schema that is not stored. */
  lemma ResolveUnknownSchema(store: map<string, Json>, ref: string, currentSchemaId: string, visited: seq<string>)
    requires TargetSchema(ref, currentSchemaId) !in store
    ensures Resolve(store, ref, currentSchemaId, visited).definition == MissingSchemaPlaceholder(ref)
    ensures Field(Field(Resolve(store, ref, currentSchemaId, visited).definition, "properties").value, "missing-value")
      == Some(JString("MISSING OBJECT, ref: " + ref + " could not be resolved"))
  {
    ResolveMissing(store, ref, currentSchemaId, visited);
  }

  /** Terminal case: a definition without a root `$ref` comes back qualified
      with the schema it was found in. */
  lemma ResolveTerminal(store: map<string, Json>, ref: string, currentSchemaId: string, visited: seq<string>, d: Json)
    requires LookupDefinition(store, TargetSchema(ref, currentSchemaId), SplitReference(ref).1) == Some(d)
    requires Truthy(d) && RootRef(d).None?
    ensures Resolve(store, ref, currentSchemaId, visited) == Resolution(Qualify(d, TargetSchema(ref, currentSchemaId)), visited + [ref])
  {
  }

  /** Cycle break: a definition whose root `$ref` was already visited (or is
      the reference itself) comes back as stored, unmerged and unqualified. */
  lemma ResolveCycleBreak(store: map<string, Json>, ref: string, currentSchemaId: string, visited: seq<string>, d: Json)
    requires LookupDefinition(store, TargetSchema(ref, currentSchemaId), SplitReference(ref).1) == Some(d)
    requires Truthy(d) && RootRef(d).Some? && RootRef(d).value in visited + [ref]
    ensures Resolve(store, ref, currentSchemaId, visited) == Resolution(d, visited + [ref])
  {
  }

  /** Qualification keeps every member name and qualifies the value of
      every member other than `$ref`. */
  lemma QualifyField(j: Json, schemaId: string, key: string)
    requires key != "$ref"
    ensures Field(Qualify(j, schemaId), key) ==
      match Field(j, key)
      case None => None
      case Some(v) => Some(Qualify(v, schemaId))
  {
    if j.JObject? {
      KeyIndexSameNames(j.members, Qualify(j, schemaId).members, key);
    }
  }

  lemma QualifyPropertyNames(j: Json, schemaId: string)
    ensures PropertyNames(Qualify(j, schemaId)) == PropertyNames(j)
    ensures PropertiesShaped(j) ==> PropertiesShaped(Qualify(j, schemaId))
  {
    QualifyField(j, schemaId, "properties");
    match Field(j, "properties")
    case Some(JObject(ms)) =>
      var qs := Qualify(JObject(ms), schemaId).members;
      assert forall i | 0 <= i < |ms| :: qs[i].0 == ms[i].0;
      assert Names(qs) == Names(ms);
    case _ =>
  }

  /** Non-cyclic chain: the result holds the properties of the inner
      resolution and of the outer definition, and every other member the
      outer one declares (except `required` and its `$ref`), qualified. */
  lemma ResolveChain(store: map<string, Json>, ref: string, currentSchemaId: string, visited: seq<string>, d: Json)
    requires LookupDefinition(store, TargetSchema(ref, currentSchemaId), SplitReference(ref).1) == Some(d)
    requires Truthy(d) && RootRef(d).Some? && RootRef(d).value !in visited + [ref]
    ensures var inner := Resolve(store, RootRef(d).value, TargetSchema(ref, currentSchemaId), visited + [ref]);
      var r := Resolve(store, ref, currentSchemaId, visited);
      && r.visited == inner.visited
      && (PropertiesShaped(inner.definition) && PropertiesShaped(d) ==>
            PropertyNames(r.definition) == PropertyNames(inner.definition) + PropertyNames(d))
      && (forall k | k !in {"required", "properties", "$ref"} && Field(d, k).Some? ::
            Field(r.definition, k) == Some(Qualify(Field(d, k).value, TargetSchema(ref, currentSchemaId))))
  {
    var schemaId := TargetSchema(ref, currentSchemaId);
    var inner := Resolve(store, RootRef(d).value, schemaId, visited + [ref]);
    var merged := MergeSchemas(inner.definition, d);
    if PropertiesShaped(inner.definition) && PropertiesShaped(d) {
      MergeKeepsProperties(inner.definition, d);
      QualifyPropertyNames(merged, schemaId);
    }
    forall k | k !in {"required", "properties", "$ref"} && Field(d, k).Some?
      ensures Field(Qualify(merged, schemaId), k) == Some(Qualify(Field(d, k).value, schemaId))
    {
      MergePrecedence(inner.definition, d, k);
      QualifyField(merged, schemaId, k);
    }
  }

  // ---------------------------------------------------------------------
  // The store
  // ---------------------------------------------------------------------

  /** A JavaScript `Map` from schema id to document: its keys in insertion
      order, and its entries. */
  datatype Registry = Registry(ids: seq<string>, docs: map<string, Json>)
  {
    /** Every key is listed once, and exactly the keys that have an entry. */
    predicate Valid() {
      && (forall i, j | 0 <= i < j < |ids| :: ids[i] != ids[j])
      && (forall k | k in docs :: k in ids)
      && (forall i | 0 <= i < |ids| :: ids[i] in docs)
    }

    /** `map.set(id, doc)`: a new key goes last, a known key keeps its place
      and gets the new document. */
    function Set(id: string, doc: Json): (r: Registry)
      ensures Valid() ==> r.Valid()
      ensures |ids| <= |r.ids| && r.ids[..|ids|] == ids
      ensures id in r.docs && r.docs[id] == doc
      ensures forall k :: k in r.docs <==> k in docs || k == id
      ensures forall k | k in docs && k != id :: r.docs[k] == docs[k]
    {
      if id in docs then Registry(ids, docs[id := doc]) else Registry(ids + [id], docs[id := doc])
    }
  }

  const EmptyRegistry: Registry := Registry([], map[])

  /** `map.forEach((val, key) => this.schemas.set(key, val))`: the entries of
      `docs`, in the order `ids` lists them, set one by one into `base`. */
  function Absorb(base: Registry, ids: seq<string>, docs: map<string, Json>): Registry
    requires forall k | k in ids :: k in docs
    decreases |ids|
  {
    if ids == [] then base else Absorb(base.Set(ids[0], docs[ids[0]]), ids[1..], docs)
  }

  lemma PrefixOfPrefix(xs: seq<string>, ys: seq<string>, zs: seq<string>)
    requires |ys| <= |xs| && xs[..|ys|] == ys
    requires |zs| <= |ys| && ys[..|zs|] == zs
    ensures xs[..|zs|] == zs
  {
    assert xs[..|zs|] == xs[..|ys|][..|zs|];
  }

  /** Absorbing entries keeps the registry well formed and the order of the
      keys already known. */
  lemma {:induction false} AbsorbKeepsOrder(base: Registry, ids: seq<string>, docs: map<string, Json>)
    requires forall k | k in ids :: k in docs
    requires base.Valid()
    ensures Absorb(base, ids, docs).Valid()
    ensures |base.ids| <= |Absorb(base, ids, docs).ids|
    ensures Absorb(base, ids, docs).ids[..|base.ids|] == base.ids
    decreases |ids|
  {
    if ids != [] {
      var next := base.Set(ids[0], docs[ids[0]]);
      AbsorbKeepsOrder(next, ids[1..], docs);
      var r := Absorb(next, ids[1..], docs);
      assert r == Absorb(base, ids, docs);
      PrefixOfPrefix(r.ids, next.ids, base.ids);
    }
  }

  /** Every absorbed key ends up with its document from `docs`; every other
      key keeps its document. */
  lemma {:induction false} AbsorbEntries(base: Registry, ids: seq<string>, docs: map<string, Json>)
    requires forall k | k in ids :: k in docs
    ensures forall k :: k in Absorb(base, ids, docs).docs <==> k in base.docs || k in ids
    ensures forall k | k in ids :: Absorb(base, ids, docs).docs[k] == docs[k]
    ensures forall k | k in base.docs && k !in ids :: Absorb(base, ids, docs).docs[k] == base.docs[k]
    decreases |ids|
  {
    if ids != [] {
      var next := base.Set(ids[0], docs[ids[0]]);
      AbsorbEntries(next, ids[1..], docs);
      var r := Absorb(next, ids[1..], docs);
      assert r == Absorb(base, ids, docs);
      forall k | k in ids ensures r.docs[k] == docs[k] {
        if k !in ids[1..] { assert k == ids[0]; }
      }
      forall k | k in base.docs || k in ids ensures k in r.docs {
        if k !in ids[1..] { assert k in next.docs; }
      }
    }
  }

  /** The `$id` under which `loadSchema` keeps a document, if it has one
      (a truthy string); reading a property of `null` throws. */
  function SchemaId(doc: Json): Result<Option<string>> {
    if doc.JNull? then Err("Cannot read properties of null (reading '$id')")
    else match Field(doc, "$id")
      case Some(JString(s)) => if s != "" then Ok(Some(s)) else Ok(None)
      case _ => Ok(None)
  }

  /** `loadSchema(path)`: the parsed document, nothing when it has no `$id`,
      or the error of reading or parsing it. */
  function LoadSchema(path: string, read: string -> Result<Json>): (r: Result<Option<Json>>)
    ensures r.Ok? && r.value.Some? ==> read(path) == Ok(r.value.value) && SchemaId(r.value.value).Ok? && SchemaId(r.value.value).value.Some?
    ensures read(path).Err? ==> r == Err(read(path).error)
  {
    match read(path)
    case Err(e) => Err(e)
    case Ok(doc) =>
      match SchemaId(doc)
      case Err(e) => Err(e)
      case Ok(None) => Ok(None)
      case Ok(Some(_)) => Ok(Some(doc))
  }

  /** The id a path contributes to the store, if it loads with one. */
  function LoadedId(path: string, read: string -> Result<Json>): Option<string> {
    var s := LoadSchema(path, read);
    if s.Ok? && s.value.Some? then SchemaId(s.value.value).value else None
  }

  /** The `for` loop of `loadSchemas`: documents stored under their `$id` in
      path order, stopping at the first error. */
  function Collect(paths: seq<string>, read: string -> Result<Json>, acc: Registry): (r: Result<Registry>)
    ensures acc.Valid() && r.Ok? ==> r.value.Valid()
  {
    if paths == [] then Ok(acc)
    else match LoadSchema(paths[0], read)
      case Err(e) => Err(e)
      case Ok(None) => Collect(paths[1..], read, acc)
      case Ok(Some(doc)) => Collect(paths[1..], read, acc.Set(SchemaId(doc).value.value, doc))
  }

  /** Loading aborts exactly when some path fails to load. */
  lemma {:induction false} CollectFails(paths: seq<string>, read: string -> Result<Json>, acc: Registry)
    ensures Collect(paths, read, acc).Err? <==> exists i | 0 <= i < |paths| :: LoadSchema(paths[i], read).Err?
  {
    if paths != [] {
      var s := LoadSchema(paths[0], read);
      var acc' := if s.Ok? && s.value.Some? then acc.Set(SchemaId(s.value.value).value.value, s.value.value) else acc;
      CollectFails(paths[1..], read, acc');
      if exists i | 0 <= i < |paths| :: LoadSchema(paths[i], read).Err? {
        var i :| 0 <= i < |paths| && LoadSchema(paths[i], read).Err?;
        if i > 0 { assert LoadSchema(paths[1..][i - 1], read).Err?; }
      }
      if exists i | 0 <= i < |paths| - 1 :: LoadSchema(paths[1..][i], read).Err? {
        var i :| 0 <= i < |paths| - 1 && LoadSchema(paths[1..][i], read).Err?;
        assert LoadSchema(paths[i + 1], read).Err?;
      }
    }
  }

  /** Registration rule of `loadSchemas`: a key is stored exactly when it
      was there before or some path loads a document with that `$id`; the
      last such document wins, and a key no path loads keeps its document. */
  lemma {:induction false} CollectKeepsLatest(paths: seq<string>, read: string -> Result<Json>, acc: Registry, k: string)
    requires Collect(paths, read, acc).Ok?
    ensures var r := Collect(paths, read, acc).value;
      && (k in r.docs <==> k in acc.docs || exists i | 0 <= i < |paths| :: LoadedId(paths[i], read) == Some(k))
      && (forall i | 0 <= i < |paths| && LoadedId(paths[i], read) == Some(k) && (forall j | i < j < |paths| :: LoadedId(paths[j], read) != Some(k)) ::
            k in r.docs && r.docs[k] == read(paths[i]).value)
      && ((forall i | 0 <= i < |paths| :: LoadedId(paths[i], read) != Some(k)) && k in acc.docs ==> k in r.docs && r.docs[k] == acc.docs[k])
  {
    if paths != [] {
      var s := LoadSchema(paths[0], read);
      var acc' := if s.Ok? && s.value.Some? then acc.Set(SchemaId(s.value.value).value.value, s.value.value) else acc;
      var rest := paths[1..];
      assert Collect(paths, read, acc) == Collect(rest, read, acc');
      CollectKeepsLatest(rest, read, acc', k);
      var r := Collect(rest, read, acc').value;
      assert forall i | 0 < i < |paths| :: paths[i] == rest[i - 1];
      assert k in acc'.docs <==> k in acc.docs || LoadedId(paths[0], read) == Some(k);
      if exists i | 0 <= i < |paths| :: LoadedId(paths[i], read) == Some(k) {
        var i :| 0 <= i < |paths| && LoadedId(paths[i], read) == Some(k);
        if i > 0 { assert LoadedId(rest[i - 1], read) == Some(k); }
      }
      forall i | 0 <= i < |paths| && LoadedId(paths[i], read) == Some(k) && (forall j | i < j < |paths| :: LoadedId(paths[j], read) != Some(k))
        ensures k in r.docs && r.docs[k] == read(paths[i]).value
      {
        if i > 0 {
          assert LoadedId(rest[i - 1], read) == Some(k);
          forall j | i - 1 < j < |rest| ensures LoadedId(rest[j], read) != Some(k) {
            assert rest[j] == paths[j + 1];
          }
        } else {
          forall j | 0 <= j < |rest| ensures LoadedId(rest[j], read) != Some(k) {
            assert rest[j] == paths[j + 1];
          }
        }
      }
      if (forall i | 0 <= i < |paths| :: LoadedId(paths[i], read) != Some(k)) {
        forall j | 0 <= j < |rest| ensures LoadedId(rest[j], read) != Some(k) {
          assert rest[j] == paths[j + 1];
        }
      }
    }
  }

  /** The `/^.*(json)$/` test of `loadSchemas`: the name ends in `json` and
      holds no line terminator (`.` matches none of them). */
  predicate IsJsonFile(name: string) {
    Text.EndsWith(name, "json")
    && forall i | 0 <= i < |name| :: name[i] !in {'\n', '\r', '\U{2028}', '\U{2029}'}
  }

  /** The names a recursive directory listing keeps, in listing order. */
  function JsonFiles(names: seq<string>): (r: seq<string>)
    ensures forall n :: n in r <==> n in names && IsJsonFile(n)
  {
    if names == [] then []
    else if IsJsonFile(names[0]) then [names[0]] + JsonFiles(names[1..])
    else JsonFiles(names[1..])
  }

  /** The paths `loadSchemas` reads. */
  function SchemaPaths(dir: string, names: seq<string>): seq<string> {
    var files := JsonFiles(names);
    seq(|files|, i requires 0 <= i < |files| => Text.PathJoin(dir, files[i]))
  }

  /** Only paths ending in `json` are read, and every such file is. */
  lemma SchemaPathsMembers(dir: string, names: seq<string>)
    ensures forall p :: p in SchemaPaths(dir, names) <==> exists n | n in names && IsJsonFile(n) :: p == Text.PathJoin(dir, n)
  {
    var files := JsonFiles(names);
    var r := SchemaPaths(dir, names);
    forall p | p in r ensures exists n | n in names && IsJsonFile(n) :: p == Text.PathJoin(dir, n) {
      var i :| 0 <= i < |r| && r[i] == p;
      assert files[i] in files;
    }
    forall n | n in names && IsJsonFile(n) ensures Text.PathJoin(dir, n) in r {
      var i :| 0 <= i < |files| && files[i] == n;
      assert r[i] == Text.PathJoin(dir, n);
    }
  }

  /** `SchemaDirectory`: the store of schemas, and its operations. */
  class SchemaDirectory {
    var schemas: Registry

    predicate Valid()
      reads this
    {
      schemas.Valid()
    }

    constructor()
      ensures Valid() && schemas == EmptyRegistry
    {
      schemas := EmptyRegistry;
    }

    /** `loadCurrentPatternAsSchema`: the pattern is stored under `pattern`. */
    method LoadCurrentPatternAsSchema(pattern: Json)
      requires Valid()
      modifies this
      ensures Valid()
      ensures schemas == old(schemas).Set(PatternKey, pattern)
    {
      schemas := schemas.Set(PatternKey, pattern);
    }

    /** `loadSchemas(dir)`, with the recursive listing of `dir` and the
        reading and parsing of a file given as oracles. The documents are
        collected first and copied into the store only when all of them
        loaded, so a failure leaves the store as it was. */
    method LoadSchemas(dir: string, listing: Result<seq<string>>, read: string -> Result<Json>) returns (outcome: Outcome)
      requires Valid()
      modifies this
      ensures Valid()
      ensures listing.Err? ==> outcome == Fail(listing.error) && schemas == old(schemas)
      ensures listing.Ok? ==>
        match Collect(SchemaPaths(dir, listing.value), read, EmptyRegistry)
        case Err(e) => outcome == Fail(e) && schemas == old(schemas)
        case Ok(loaded) => outcome == Pass && schemas == Absorb(old(schemas), loaded.ids, loaded.docs)
    {
      if listing.Err? {
        return Fail(listing.error);
      }
      var paths := SchemaPaths(dir, listing.value);
      var loaded := EmptyRegistry;
      var i := 0;
      while i < |paths|
        invariant 0 <= i <= |paths|
        invariant loaded.Valid()
        invariant Collect(paths, read, EmptyRegistry) == Collect(paths[i..], read, loaded)
      {
        assert paths[i..][1..] == paths[i + 1..];
        var schema := LoadSchema(paths[i], read);
        if schema.Err? {
          return Fail(schema.error);
        }
        if schema.value.Some? {
          var doc := schema.value.value;
          loaded := loaded.Set(SchemaId(doc).value.value, doc);
        }
        i := i + 1;
      }
      var j := 0;
      while j < |loaded.ids|
        invariant 0 <= j <= |loaded.ids|
        invariant schemas.Valid()
        invariant Absorb(old(schemas), loaded.ids, loaded.docs) == Absorb(schemas, loaded.ids[j..], loaded.docs)
      {
        assert loaded.ids[j..][1..] == loaded.ids[j + 1..];
        var id := loaded.ids[j];
        schemas := schemas.Set(id, loaded.docs[id]);
        j := j + 1;
      }
      return Pass;
    }

    /** `getLoadedSchemas`: every stored id once, in insertion order. */
    function GetLoadedSchemas(): (ids: seq<string>)
      reads this
      requires Valid()
      ensures forall k :: k in ids <==> k in schemas.docs
      ensures forall i, j | 0 <= i < j < |ids| :: ids[i] != ids[j]
    {
      schemas.ids
    }

    /** `getSchema(id)`: the stored document, or nothing for an unknown id. */
    function GetSchema(schemaId: string): (r: Option<Json>)
      reads this
      ensures r.Some? <==> schemaId in schemas.docs
      ensures r.Some? ==> r.value == schemas.docs[schemaId]
    {
      if schemaId in schemas.docs then Some(schemas.docs[schemaId]) else None
    }

    /** `getDefinition(ref)`: a resolution from the pattern with nothing
        visited, so no state is carried from one call to the next. */
    function GetDefinition(ref: string): (d: Json)
      reads this
      ensures TargetSchema(ref, PatternKey) !in schemas.docs ==> d == MissingSchemaPlaceholder(ref)
    {
      Resolve(schemas.docs, ref, PatternKey, []).definition
    }
  }

  /** Self-reference: after the pattern is loaded, `#<pointer>` is looked up
      in it, and a terminal definition found there comes back qualified with
      `pattern`. */
  lemma SelfReferenceFromPattern(store: map<string, Json>, pointer: string, d: Json)
    requires '#' !in pointer
    requires LookupDefinition(store, PatternKey, Some(pointer)) == Some(d)
    requires Truthy(d) && RootRef(d).None?
    ensures Resolve(store, "#" + pointer, PatternKey, []).definition == Qualify(d, PatternKey)
  {
    LocalReferenceUsesCurrentSchema(pointer, PatternKey);
    ResolveTerminal(store, "#" + pointer, PatternKey, [], d);
  }
}
