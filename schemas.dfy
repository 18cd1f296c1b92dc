/** The tools' JSON Schemas (draft-07) of src/schemas.js: a `Schema`
    datatype for the keywords they use, the meaning of those keywords
    (`Conforms`, after the draft-07 Validation specification), the four
    schemas as constants, their JSON form as `tools/list` shows it, and for
    each schema a plain statement of what it accepts, proved equivalent. */
module Schemas {
  import opened Wrappers
  import opened JsValues

  /** The values of the `type` keyword the schemas use. */
  datatype InstanceType = ObjectType | ArrayType | StringType | IntegerType | BooleanType

  /** A schema object; `None` is an absent keyword, and so is an empty
      `properties` or `oneOf` list (none of the schemas writes `{}` or `[]`
      for either). */
  datatype Schema = Schema(
    typ: Option<InstanceType>,
    minLength: Option<nat>,
    minimum: Option<int>,
    maximum: Option<int>,
    items: Option<Schema>,
    properties: seq<Property>,
    required: Option<seq<string>>,
    oneOf: seq<Schema>,
    additionalProperties: Option<bool>)

  datatype Property = Property(name: string, schema: Schema)

  /** The schema `{}`. */
  const NoKeywords := Schema(None, None, None, None, None, [], None, [], None)

  /** Section 6.1.1 of the draft-07 Validation specification: `type`. */
  predicate HasType(t: InstanceType, v: Json)
  {
    match t
    case ObjectType => v.JObj?
    case ArrayType => v.JArr?
    case StringType => v.JStr?
    case IntegerType => v.JNum?
    case BooleanType => v.JBool?
  }

  function PropertyNames(props: seq<Property>): set<string>
  {
    set i | 0 <= i < |props| :: props[i].name
  }

  /** Whether `v` is valid against `s`: valid against each keyword. Each
      keyword constrains only the instances of the type it is about, as
      draft-07 says. */
  predicate Conforms(s: Schema, v: Json)
    decreases s, 1
  {
    && TypeOk(s, v)
    && BoundsOk(s, v)
    && ItemsOk(s, v)
    && PropertiesOk(s, v)
    && RequiredOk(s, v)
    && AdditionalOk(s, v)
    && OneOfOk(s, v)
  }

  /** `type` (6.1.1). */
  predicate TypeOk(s: Schema, v: Json)
  {
    s.typ.Some? ==> HasType(s.typ.value, v)
  }

  /** `minLength` on strings (6.3.2), `minimum` and `maximum` on numbers
      (6.2.4, 6.2.2). */
  predicate BoundsOk(s: Schema, v: Json)
  {
    && (s.minLength.Some? && v.JStr? ==> |v.s| >= s.minLength.value)
    && (s.minimum.Some? && v.JNum? ==> v.n >= s.minimum.value)
    && (s.maximum.Some? && v.JNum? ==> v.n <= s.maximum.value)
  }

  /** `items` with one schema (6.4.1): every element of an array. */
  predicate ItemsOk(s: Schema, v: Json)
    decreases s, 0
  {
    s.items.Some? && v.JArr? ==>
      forall i :: 0 <= i < |v.elems| ==> Conforms(s.items.value, v.elems[i])
  }

  /** `properties` (6.5.4): each member of an object that the keyword names. */
  predicate PropertiesOk(s: Schema, v: Json)
    decreases s, 0
  {
    v.JObj? ==>
      forall i :: 0 <= i < |s.properties| && s.properties[i].name in Keys(v.fields) ==>
        Conforms(s.properties[i].schema, Lookup(v.fields, s.properties[i].name).value)
  }

  /** `required` (6.5.3): each named key is present in an object. */
  predicate RequiredOk(s: Schema, v: Json)
  {
    s.required.Some? && v.JObj? ==> forall n :: n in s.required.value ==> n in Keys(v.fields)
  }

  /** `additionalProperties: false` (6.5.6): an object has no key beyond
      those `properties` names. */
  predicate AdditionalOk(s: Schema, v: Json)
  {
    s.additionalProperties == Some(false) && v.JObj? ==>
      forall k :: k in Keys(v.fields) ==> k in PropertyNames(s.properties)
  }

  /** `oneOf` (6.7.3): exactly one subschema accepts. */
  predicate OneOfOk(s: Schema, v: Json)
    decreases s, 0
  {
    |s.oneOf| > 0 ==>
      exists i :: 0 <= i < |s.oneOf| && Conforms(s.oneOf[i], v) &&
        forall j :: 0 <= j < |s.oneOf| && j != i ==> !Conforms(s.oneOf[j], v)
  }

  function TypeName(t: InstanceType): string
  {
    match t
    case ObjectType => "object"
    case ArrayType => "array"
    case StringType => "string"
    case IntegerType => "integer"
    case BooleanType => "boolean"
  }

  /** The schema as the JSON object src/schemas.js declares, keywords in
      the order they are written there. */
  function ToJson(s: Schema): Json
    decreases s
  {
    JObj(
      (if s.typ.Some? then [Field("type", JStr(TypeName(s.typ.value)))] else [])
      + (if s.minLength.Some? then [Field("minLength", JNum(s.minLength.value))] else [])
      + (if s.minimum.Some? then [Field("minimum", JNum(s.minimum.value))] else [])
      + (if s.maximum.Some? then [Field("maximum", JNum(s.maximum.value))] else [])
      + (if s.items.Some? then [Field("items", ToJson(s.items.value))] else [])
      + (if s.properties != [] then
           var ps := s.properties;
           [Field("properties", JObj(seq(|ps|, i requires 0 <= i < |ps| => Field(ps[i].name, ToJson(ps[i].schema)))))]
         else [])
      + (if s.required.Some? then
           var rs := s.required.value;
           [Field("required", JArr(seq(|rs|, i requires 0 <= i < |rs| => JStr(rs[i]))))]
         else [])
      + (if s.oneOf != [] then
           var os := s.oneOf;
           [Field("oneOf", JArr(seq(|os|, i requires 0 <= i < |os| => ToJson(os[i]))))]
         else [])
      + (if s.additionalProperties.Some? then [Field("additionalProperties", JBool(s.additionalProperties.value))] else []))
  }

  // ---- the schemas of src/schemas.js ----

  const StringSchema := NoKeywords.(typ := Some(StringType))
  const NonEmptyStringSchema := NoKeywords.(typ := Some(StringType), minLength := Some(1))
  const StringArraySchema := NoKeywords.(typ := Some(ArrayType), items := Some(StringSchema))
  const PageSizeSchema := NoKeywords.(typ := Some(IntegerType), minimum := Some(1), maximum := Some(100))
  const PageNumberSchema := NoKeywords.(typ := Some(IntegerType), minimum := Some(1))
  const BooleanSchema := NoKeywords.(typ := Some(BooleanType))

  const SearchRecipesInput := NoKeywords.(
    typ := Some(ObjectType),
    properties := [
      Property("query", NonEmptyStringSchema),
      Property("limit", PageSizeSchema),
      Property("perPage", PageSizeSchema),
      Property("page", PageNumberSchema),
      Property("tags", StringArraySchema),
      Property("requireAllTags", BooleanSchema)],
    required := Some(["query"]),
    additionalProperties := Some(false))

  const SearchResultItem := NoKeywords.(
    typ := Some(ObjectType),
    properties := [
      Property("id", StringSchema),
      Property("title", StringSchema),
      Property("summary", StringSchema),
      Property("tags", StringArraySchema),
      Property("slug", StringSchema),
      Property("url", StringSchema)],
    required := Some(["id", "title"]))

  const SearchRecipesOutput := NoKeywords.(
    typ := Some(ObjectType),
    properties := [
      Property("results", NoKeywords.(typ := Some(ArrayType), items := Some(SearchResultItem)))],
    required := Some(["results"]),
    additionalProperties := Some(false))

  const GetRecipeInput := NoKeywords.(
    typ := Some(ObjectType),
    properties := [
      Property("id", NonEmptyStringSchema),
      Property("slug", NonEmptyStringSchema)],
    oneOf := [
      NoKeywords.(required := Some(["id"])),
      NoKeywords.(required := Some(["slug"]))],
    additionalProperties := Some(false))

  const GetRecipeOutput := NoKeywords.(
    typ := Some(ObjectType),
    properties := [
      Property("id", StringSchema),
      Property("title", StringSchema),
      Property("description", StringSchema),
      Property("ingredients", StringArraySchema),
      Property("instructions", StringArraySchema),
      Property("tags", StringArraySchema),
      Property("slug", StringSchema),
      Property("url", StringSchema)],
    required := Some(["id", "title"]),
    additionalProperties := Some(false))

  // ---- what each schema accepts, stated member by member ----

  predicate IsNonEmptyString(x: Option<Json>)
  {
    x.Some? && x.value.JStr? && |x.value.s| >= 1
  }

  predicate IsStringArray(j: Json)
  {
    j.JArr? && forall i :: 0 <= i < |j.elems| ==> j.elems[i].JStr?
  }

  predicate AbsentOrString(x: Option<Json>)
  {
    x.None? || x.value.JStr?
  }

  predicate AbsentOrNonEmptyString(x: Option<Json>)
  {
    x.None? || IsNonEmptyString(x)
  }

  predicate AbsentOrStringArray(x: Option<Json>)
  {
    x.None? || IsStringArray(x.value)
  }

  predicate AbsentOrIntBetween(x: Option<Json>, lo: int, hi: int)
  {
    x.None? || (x.value.JNum? && lo <= x.value.n <= hi)
  }

  /** Search arguments: an object with a non-empty string `query`; `limit`
      and `perPage` integers in [1, 100], `page` an integer of at least 1,
      `tags` an array of strings, `requireAllTags` a boolean, when present;
      and no other key. */
  predicate SearchArgsAccepted(v: Json)
  {
    && v.JObj?
    && Keys(v.fields) <= {"query", "limit", "perPage", "page", "tags", "requireAllTags"}
    && IsNonEmptyString(Lookup(v.fields, "query"))
    && AbsentOrIntBetween(Lookup(v.fields, "limit"), 1, 100)
    && AbsentOrIntBetween(Lookup(v.fields, "perPage"), 1, 100)
    && (var page := Lookup(v.fields, "page"); page.None? || (page.value.JNum? && page.value.n >= 1))
    && AbsentOrStringArray(Lookup(v.fields, "tags"))
    && (var all := Lookup(v.fields, "requireAllTags"); all.None? || all.value.JBool?)
  }

  /** Get-recipe arguments: an object with exactly one of `id` and `slug`,
      each a non-empty string when present, and no other key. */
  predicate GetRecipeArgsAccepted(v: Json)
  {
    && v.JObj?
    && Keys(v.fields) <= {"id", "slug"}
    && (("id" in Keys(v.fields)) != ("slug" in Keys(v.fields)))
    && AbsentOrNonEmptyString(Lookup(v.fields, "id"))
    && AbsentOrNonEmptyString(Lookup(v.fields, "slug"))
  }

  /** A search result item: an object with `id` and `title`; `id`, `title`,
      `summary`, `slug` and `url` strings and `tags` an array of strings,
      when present. Other keys are allowed. */
  predicate SearchItemAccepted(item: Json)
  {
    && item.JObj?
    && "id" in Keys(item.fields) && "title" in Keys(item.fields)
    && AbsentOrString(Lookup(item.fields, "id"))
    && AbsentOrString(Lookup(item.fields, "title"))
    && AbsentOrString(Lookup(item.fields, "summary"))
    && AbsentOrStringArray(Lookup(item.fields, "tags"))
    && AbsentOrString(Lookup(item.fields, "slug"))
    && AbsentOrString(Lookup(item.fields, "url"))
  }

  /** A search output: an object whose only key is `results`, an array of
      accepted items. */
  predicate SearchOutputAccepted(v: Json)
  {
    && v.JObj?
    && Keys(v.fields) == {"results"}
    && var results := Lookup(v.fields, "results").value;
    && results.JArr?
    && forall i :: 0 <= i < |results.elems| ==> SearchItemAccepted(results.elems[i])
  }

  /** A recipe output: an object with `id` and `title`, no key beyond the
      eight declared ones, each declared string or array of strings when
      present. */
  predicate RecipeOutputAccepted(v: Json)
  {
    && v.JObj?
    && Keys(v.fields) <= {"id", "title", "description", "ingredients", "instructions", "tags", "slug", "url"}
    && "id" in Keys(v.fields) && "title" in Keys(v.fields)
    && AbsentOrString(Lookup(v.fields, "id"))
    && AbsentOrString(Lookup(v.fields, "title"))
    && AbsentOrString(Lookup(v.fields, "description"))
    && AbsentOrStringArray(Lookup(v.fields, "ingredients"))
    && AbsentOrStringArray(Lookup(v.fields, "instructions"))
    && AbsentOrStringArray(Lookup(v.fields, "tags"))
    && AbsentOrString(Lookup(v.fields, "slug"))
    && AbsentOrString(Lookup(v.fields, "url"))
  }


  // ---- each schema means what its plain statement says ----

  /** A member named by `properties` is valid against its schema when the
      object has it. */
  predicate PropertyHolds(p: Property, fields: seq<Field>)
  {
    p.name in Keys(fields) ==> Conforms(p.schema, Lookup(fields, p.name).value)
  }

  lemma PropertiesOkEach(s: Schema, v: Json)
    requires v.JObj?
    ensures PropertiesOk(s, v) <==> forall i :: 0 <= i < |s.properties| ==> PropertyHolds(s.properties[i], v.fields)
  {
  }

  lemma StringSchemaMeaning(j: Json)
    ensures Conforms(StringSchema, j) <==> j.JStr?
  {
  }

  lemma NonEmptyStringSchemaMeaning(j: Json)
    ensures Conforms(NonEmptyStringSchema, j) <==> j.JStr? && |j.s| >= 1
  {
  }

  lemma PageSizeSchemaMeaning(j: Json)
    ensures Conforms(PageSizeSchema, j) <==> j.JNum? && 1 <= j.n <= 100
  {
  }

  lemma {:induction false} StringArraySchemaMeaning(j: Json)
    ensures Conforms(StringArraySchema, j) <==> IsStringArray(j)
  {
    if j.JArr? {
      forall i | 0 <= i < |j.elems| {
        StringSchemaMeaning(j.elems[i]);
      }
    }
  }

  lemma SearchPropertiesEach(v: Json)
    requires v.JObj?
    ensures var ps := SearchRecipesInput.properties; var f := v.fields;
      PropertiesOk(SearchRecipesInput, v) <==>
        && PropertyHolds(ps[0], f) && PropertyHolds(ps[1], f) && PropertyHolds(ps[2], f)
        && PropertyHolds(ps[3], f) && PropertyHolds(ps[4], f) && PropertyHolds(ps[5], f)
  {
    var ps := SearchRecipesInput.properties;
    var f := v.fields;
    PropertiesOkEach(SearchRecipesInput, v);
    if PropertyHolds(ps[0], f) && PropertyHolds(ps[1], f) && PropertyHolds(ps[2], f)
      && PropertyHolds(ps[3], f) && PropertyHolds(ps[4], f) && PropertyHolds(ps[5], f)
    {
      forall i | 0 <= i < 6 ensures PropertyHolds(ps[i], f) {
        if i == 0 {} else if i == 1 {} else if i == 2 {} else if i == 3 {} else if i == 4 {} else {}
      }
    }
  }

  lemma StringProperty(k: string, f: seq<Field>)
    ensures PropertyHolds(Property(k, StringSchema), f) <==> AbsentOrString(Lookup(f, k))
  {
  }

  lemma NonEmptyStringProperty(k: string, f: seq<Field>)
    ensures PropertyHolds(Property(k, NonEmptyStringSchema), f) <==> AbsentOrNonEmptyString(Lookup(f, k))
  {
  }

  lemma PageSizeProperty(k: string, f: seq<Field>)
    ensures PropertyHolds(Property(k, PageSizeSchema), f) <==> AbsentOrIntBetween(Lookup(f, k), 1, 100)
  {
  }

  lemma PageNumberProperty(k: string, f: seq<Field>)
    ensures PropertyHolds(Property(k, PageNumberSchema), f) <==>
      var page := Lookup(f, k); page.None? || (page.value.JNum? && page.value.n >= 1)
  {
  }

  lemma BooleanProperty(k: string, f: seq<Field>)
    ensures PropertyHolds(Property(k, BooleanSchema), f) <==>
      var b := Lookup(f, k); b.None? || b.value.JBool?
  {
  }

  lemma StringArrayProperty(k: string, f: seq<Field>)
    ensures PropertyHolds(Property(k, StringArraySchema), f) <==> AbsentOrStringArray(Lookup(f, k))
  {
    if k in Keys(f) {
      StringArraySchemaMeaning(Lookup(f, k).value);
    }
  }

  lemma SearchPropertiesMeaning(v: Json)
    requires v.JObj?
    ensures PropertiesOk(SearchRecipesInput, v) <==>
      && AbsentOrNonEmptyString(Lookup(v.fields, "query"))
      && AbsentOrIntBetween(Lookup(v.fields, "limit"), 1, 100)
      && AbsentOrIntBetween(Lookup(v.fields, "perPage"), 1, 100)
      && (var page := Lookup(v.fields, "page"); page.None? || (page.value.JNum? && page.value.n >= 1))
      && AbsentOrStringArray(Lookup(v.fields, "tags"))
      && (var all := Lookup(v.fields, "requireAllTags"); all.None? || all.value.JBool?)
  {
    var f := v.fields;
    SearchPropertiesEach(v);
    NonEmptyStringProperty("query", f);
    PageSizeProperty("limit", f);
    PageSizeProperty("perPage", f);
    PageNumberProperty("page", f);
    StringArrayProperty("tags", f);
    BooleanProperty("requireAllTags", f);
  }

  lemma SearchRecipesInputMeaning(v: Json)
    ensures Conforms(SearchRecipesInput, v) <==> SearchArgsAccepted(v)
  {
    if v.JObj? {
      var ps := SearchRecipesInput.properties;
      assert PropertyNames(ps) == {"query", "limit", "perPage", "page", "tags", "requireAllTags"} by {
        assert ps[0].name == "query" && ps[1].name == "limit" && ps[2].name == "perPage";
        assert ps[3].name == "page" && ps[4].name == "tags" && ps[5].name == "requireAllTags";
      }
      SearchPropertiesMeaning(v);
    }
  }

  /** The two get-recipe subschemas: one requires `id`, the other `slug`;
      both accept anything that is not an object. */
  lemma GetRecipeSubschemas(v: Json)
    ensures Conforms(GetRecipeInput.oneOf[0], v) <==> !v.JObj? || "id" in Keys(v.fields)
    ensures Conforms(GetRecipeInput.oneOf[1], v) <==> !v.JObj? || "slug" in Keys(v.fields)
  {
  }

  lemma OneOfIdOnly(v: Json)
    requires v.JObj? && "id" in Keys(v.fields) && "slug" !in Keys(v.fields)
    ensures OneOfOk(GetRecipeInput, v)
  {
    var subs := GetRecipeInput.oneOf;
    GetRecipeSubschemas(v);
    forall j | 0 <= j < 2 && j != 0 ensures !Conforms(subs[j], v) {
      assert j == 1;
    }
  }

  lemma OneOfSlugOnly(v: Json)
    requires v.JObj? && "id" !in Keys(v.fields) && "slug" in Keys(v.fields)
    ensures OneOfOk(GetRecipeInput, v)
  {
    var subs := GetRecipeInput.oneOf;
    GetRecipeSubschemas(v);
    forall j | 0 <= j < 2 && j != 1 ensures !Conforms(subs[j], v) {
      assert j == 0;
    }
  }

  lemma OneOfExactlyOne(v: Json)
    requires OneOfOk(GetRecipeInput, v)
    ensures v.JObj? && (("id" in Keys(v.fields)) != ("slug" in Keys(v.fields)))
  {
    var subs := GetRecipeInput.oneOf;
    GetRecipeSubschemas(v);
    var i :| 0 <= i < 2 && Conforms(subs[i], v) &&
      forall j :: 0 <= j < 2 && j != i ==> !Conforms(subs[j], v);
    if i == 0 {
      assert !Conforms(subs[1], v);
    } else {
      assert !Conforms(subs[0], v);
    }
  }

  /** The get-recipe `oneOf` keyword: exactly one of `id` and `slug`; a
      value that is not an object satisfies both subschemas, so neither
      passes. */
  lemma GetRecipeOneOfMeaning(v: Json)
    ensures OneOfOk(GetRecipeInput, v) <==>
      v.JObj? && (("id" in Keys(v.fields)) != ("slug" in Keys(v.fields)))
  {
    if OneOfOk(GetRecipeInput, v) {
      OneOfExactlyOne(v);
    }
    if v.JObj? && "id" in Keys(v.fields) && "slug" !in Keys(v.fields) {
      OneOfIdOnly(v);
    } else if v.JObj? && "id" !in Keys(v.fields) && "slug" in Keys(v.fields) {
      OneOfSlugOnly(v);
    }
  }

  /** The get-recipe `properties` keyword: `id` and `slug` non-empty strings
      when present. */
  lemma GetRecipePropertiesMeaning(v: Json)
    requires v.JObj?
    ensures PropertiesOk(GetRecipeInput, v) <==>
      AbsentOrNonEmptyString(Lookup(v.fields, "id")) && AbsentOrNonEmptyString(Lookup(v.fields, "slug"))
  {
    var ps := GetRecipeInput.properties;
    var f := v.fields;
    var id, slug := Lookup(f, "id"), Lookup(f, "slug");
    if id.Some? { NonEmptyStringSchemaMeaning(id.value); }
    if slug.Some? { NonEmptyStringSchemaMeaning(slug.value); }
    PropertiesOkEach(GetRecipeInput, v);
    if PropertyHolds(ps[0], f) && PropertyHolds(ps[1], f) {
      forall i | 0 <= i < 2 ensures PropertyHolds(ps[i], f) {
        if i == 0 {} else {}
      }
    }
  }

  lemma GetRecipeInputMeaning(v: Json)
    ensures Conforms(GetRecipeInput, v) <==> GetRecipeArgsAccepted(v)
  {
    var s := GetRecipeInput;
    GetRecipeOneOfMeaning(v);
    if v.JObj? {
      var f := v.fields;
      assert PropertyNames(s.properties) == {"id", "slug"} by {
        assert s.properties[0].name == "id" && s.properties[1].name == "slug";
      }
      GetRecipePropertiesMeaning(v);
      assert AdditionalOk(s, v) <==> Keys(f) <= {"id", "slug"};
      assert TypeOk(s, v) && BoundsOk(s, v) && ItemsOk(s, v) && RequiredOk(s, v);
    }
  }

  lemma SearchItemPropertiesMeaning(item: Json)
    requires item.JObj?
    ensures PropertiesOk(SearchResultItem, item) <==>
      && AbsentOrString(Lookup(item.fields, "id"))
      && AbsentOrString(Lookup(item.fields, "title"))
      && AbsentOrString(Lookup(item.fields, "summary"))
      && AbsentOrStringArray(Lookup(item.fields, "tags"))
      && AbsentOrString(Lookup(item.fields, "slug"))
      && AbsentOrString(Lookup(item.fields, "url"))
  {
    var ps := SearchResultItem.properties;
    var f := item.fields;
    PropertiesOkEach(SearchResultItem, item);
    if PropertyHolds(ps[0], f) && PropertyHolds(ps[1], f) && PropertyHolds(ps[2], f)
      && PropertyHolds(ps[3], f) && PropertyHolds(ps[4], f) && PropertyHolds(ps[5], f)
    {
      forall i | 0 <= i < 6 ensures PropertyHolds(ps[i], f) {
        if i == 0 {} else if i == 1 {} else if i == 2 {} else if i == 3 {} else if i == 4 {} else {}
      }
    }
    StringProperty("id", f);
    StringProperty("title", f);
    StringProperty("summary", f);
    StringArrayProperty("tags", f);
    StringProperty("slug", f);
    StringProperty("url", f);
  }

  lemma SearchResultItemMeaning(item: Json)
    ensures Conforms(SearchResultItem, item) <==> SearchItemAccepted(item)
  {
    if item.JObj? {
      SearchItemPropertiesMeaning(item);
    }
  }

  lemma SearchRecipesOutputMeaning(v: Json)
    ensures Conforms(SearchRecipesOutput, v) <==> SearchOutputAccepted(v)
  {
    if v.JObj? {
      var ps := SearchRecipesOutput.properties;
      var f := v.fields;
      assert PropertyNames(ps) == {"results"} by {
        assert ps[0].name == "results";
      }
      PropertiesOkEach(SearchRecipesOutput, v);
      assert PropertiesOk(SearchRecipesOutput, v) <==> PropertyHolds(ps[0], f) by {
        if PropertyHolds(ps[0], f) {
          forall i | 0 <= i < 1 ensures PropertyHolds(ps[i], f) {
          }
        }
      }
      if "results" in Keys(f) {
        var results := Lookup(f, "results").value;
        assert Conforms(ps[0].schema, results) <==>
          results.JArr? && forall i :: 0 <= i < |results.elems| ==> Conforms(SearchResultItem, results.elems[i]);
        if results.JArr? {
          forall i | 0 <= i < |results.elems| {
            SearchResultItemMeaning(results.elems[i]);
          }
        }
      }
    }
  }

  lemma RecipeOutputPropertiesMeaning(v: Json)
    requires v.JObj?
    ensures PropertiesOk(GetRecipeOutput, v) <==>
      && AbsentOrString(Lookup(v.fields, "id"))
      && AbsentOrString(Lookup(v.fields, "title"))
      && AbsentOrString(Lookup(v.fields, "description"))
      && AbsentOrStringArray(Lookup(v.fields, "ingredients"))
      && AbsentOrStringArray(Lookup(v.fields, "instructions"))
      && AbsentOrStringArray(Lookup(v.fields, "tags"))
      && AbsentOrString(Lookup(v.fields, "slug"))
      && AbsentOrString(Lookup(v.fields, "url"))
  {
    var ps := GetRecipeOutput.properties;
    var f := v.fields;
    PropertiesOkEach(GetRecipeOutput, v);
    if PropertyHolds(ps[0], f) && PropertyHolds(ps[1], f) && PropertyHolds(ps[2], f) && PropertyHolds(ps[3], f)
      && PropertyHolds(ps[4], f) && PropertyHolds(ps[5], f) && PropertyHolds(ps[6], f) && PropertyHolds(ps[7], f)
    {
      forall i | 0 <= i < 8 ensures PropertyHolds(ps[i], f) {
        if i == 0 {} else if i == 1 {} else if i == 2 {} else if i == 3 {}
        else if i == 4 {} else if i == 5 {} else if i == 6 {} else {}
      }
    }
    StringProperty("id", f);
    StringProperty("title", f);
    StringProperty("description", f);
    StringArrayProperty("ingredients", f);
    StringArrayProperty("instructions", f);
    StringArrayProperty("tags", f);
    StringProperty("slug", f);
    StringProperty("url", f);
  }

  lemma GetRecipeOutputMeaning(v: Json)
    ensures Conforms(GetRecipeOutput, v) <==> RecipeOutputAccepted(v)
  {
    if v.JObj? {
      var ps := GetRecipeOutput.properties;
      assert PropertyNames(ps) == {"id", "title", "description", "ingredients", "instructions", "tags", "slug", "url"} by {
        assert ps[0].name == "id" && ps[1].name == "title" && ps[2].name == "description";
        assert ps[3].name == "ingredients" && ps[4].name == "instructions" && ps[5].name == "tags";
        assert ps[6].name == "slug" && ps[7].name == "url";
      }
      RecipeOutputPropertiesMeaning(v);
    }
  }
}
