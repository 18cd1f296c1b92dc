/** The two Mealie tools of src/tools.js: argument validation, the request
    each handler sends to the Mealie API, how the response is reshaped, how
    failures are reported, and the registry the server is started with. */
module Tools {
  import opened Wrappers
  import opened JsValues
  import opened Schemas
  import opened Http
  import opened Mcp

  /** One entry of the validator's error report. */
  datatype SchemaError = SchemaError(instancePath: string, message: string)

  /** A query parameter as the HTTP client sends it. */
  datatype Param = Param(name: string, value: Json)

  /** A GET request to the Mealie API, relative to the configured base URL. */
  datatype HttpRequest = HttpGet(path: string, params: seq<Param>)

  /** How awaiting the HTTP client ends: with the response body
      (`res.data`, possibly undefined) or with a rejection. */
  datatype HttpOutcome = Fetched(data: Option<Json>) | Rejected(error: JsError)

  /** What the handlers depend on: the base URL the HTTP client was created
      with, the Mealie API itself, and the validator's error report for a
      schema and a payload it rejects (`validateFn.errors`). */
  datatype Env = Env(
    baseUrl: string,
    get: HttpRequest -> HttpOutcome,
    report: (Schema, Json) -> Option<seq<SchemaError>>)

  /** One run of a handler: the requests it sent, in order, and how it
      ended. */
  datatype ToolRun = ToolRun(requests: seq<HttpRequest>, outcome: Completion<Json>)

  // ---- validate ----

  const ValidationCode := JStr("VALIDATION_ERROR")
  const UpstreamCode := JStr("MEALIE_HTTP_ERROR")

  function Render(e: SchemaError): string
  {
    e.instancePath + " " + e.message
  }

  function RenderAll(errors: seq<SchemaError>): (lines: seq<string>)
    ensures |lines| == |errors|
    ensures forall i :: 0 <= i < |errors| ==> lines[i] == Render(errors[i])
  {
    seq(|errors|, i requires 0 <= i < |errors| => Render(errors[i]))
  }

  /** The message of a validation failure: the rendered errors joined by
      "; ", or "Invalid payload" when there is no report or it joins to
      nothing. */
  function ValidationMessage(report: Option<seq<SchemaError>>): string
  {
    var joined := if report.None? then "" else Join(RenderAll(report.value), "; ");
    if joined != "" then joined else "Invalid payload"
  }

  /** `validate(schema, payload)`: nothing when the payload conforms, else
      the error it throws. */
  function Validate(schema: Schema, payload: Json, report: Option<seq<SchemaError>>): (r: Option<JsError>)
  {
    if Conforms(schema, payload) then None
    else Some(ErrorWithCode(ValidationMessage(report), ValidationCode))
  }

  /** A rejected payload is reported with code VALIDATION_ERROR and a
      message naming every error of the report, or "Invalid payload" when
      the report is missing or empty. */
  lemma {:induction false} ValidationFailureReport(schema: Schema, payload: Json, report: Option<seq<SchemaError>>)
    ensures Validate(schema, payload, report).None? <==> Conforms(schema, payload)
    ensures var r := Validate(schema, payload, report);
      r.Some? ==> r.value.code == Some(ValidationCode) && r.value.message == ValidationMessage(report)
    ensures report.None? || report.value == [] ==> ValidationMessage(report) == "Invalid payload"
    ensures report.Some? ==>
      forall i :: 0 <= i < |report.value| ==> IsInfix(Render(report.value[i]), ValidationMessage(report))
  {
    if report.Some? && report.value != [] {
      var lines := RenderAll(report.value);
      forall i | 0 <= i < |report.value|
        ensures IsInfix(Render(report.value[i]), ValidationMessage(report))
      {
        assert lines[i] == Render(report.value[i]);
        assert lines[i] != "" by { assert lines[i][|report.value[i].instancePath|] == ' '; }
        JoinNonEmpty(lines, "; ", i);
        JoinContainsPart(lines, "; ", i);
      }
    }
  }

  // ---- failures inside a handler's try block ----

  /** The error a handler's catch block throws for `err`. */
  function UpstreamError(err: JsError): JsError
  {
    ErrorWithCode(NormalizeError(err), UpstreamCode)
  }

  function Rewrapped(c: Completion<Json>): Completion<Json>
  {
    match c
    case Normal(v) => Normal(v)
    case Throw(err) => Throw(UpstreamError(err))
  }

  // ---- shared shaping ----

  /** `s.replace(/\/+$/, "")`. */
  function StripTrailingSlashes(s: string): (r: string)
    ensures |r| <= |s| && r == s[..|r|]
    ensures r == [] || r[|r| - 1] != '/'
    ensures forall i :: |r| <= i < |s| ==> s[i] == '/'
  {
    if s != [] && s[|s| - 1] == '/' then StripTrailingSlashes(s[..|s| - 1]) else s
  }

  /** The public link of a recipe, `${base}/recipe/${ref}`. */
  function RecipeUrl(baseUrl: string, ref: string): string
  {
    StripTrailingSlashes(baseUrl) + "/recipe/" + ref
  }

  /** Trailing slashes on the base URL make no difference to a link. */
  lemma {:induction false} RecipeUrlIgnoresTrailingSlash(baseUrl: string, ref: string)
    ensures RecipeUrl(baseUrl + "/", ref) == RecipeUrl(baseUrl, ref)
  {
    assert (baseUrl + "/")[..|baseUrl|] == baseUrl;
  }

  /** The link joins the base URL and "/recipe/" with exactly one slash. */
  lemma RecipeUrlSingleSlash(baseUrl: string, ref: string)
    ensures var base := StripTrailingSlashes(baseUrl);
      RecipeUrl(baseUrl, ref) == base + "/recipe/" + ref && (base == [] || base[|base| - 1] != '/')
  {
  }

  /** The name of one tag: a string tag itself, else `t?.name || t?.slug || ""`. */
  function TagName(t: Json): Json
  {
    if t.JStr? then t else OrElse(Or(Prop(t, "name"), Prop(t, "slug")), JStr(""))
  }

  /** `tags.map(TagName).filter(Boolean)`. */
  function TagNames(tags: seq<Json>): (names: seq<Json>)
    ensures |names| <= |tags|
    ensures forall i :: 0 <= i < |names| ==> Truthy(Some(names[i]))
    ensures forall i :: 0 <= i < |names| ==> exists j :: 0 <= j < |tags| && TagName(tags[j]) == names[i]
  {
    if tags == [] then []
    else
      var rest := TagNames(tags[1..]);
      assert forall i :: 0 <= i < |rest| ==> exists j :: 1 <= j < |tags| && TagName(tags[j]) == rest[i] by {
        forall i | 0 <= i < |rest| ensures exists j :: 1 <= j < |tags| && TagName(tags[j]) == rest[i] {
          var j :| 0 <= j < |tags[1..]| && TagName(tags[1..][j]) == rest[i];
          assert TagName(tags[j + 1]) == rest[i];
        }
      }
      var name := TagName(tags[0]);
      if Truthy(Some(name)) then [name] + rest else rest
  }

  /** Every tag whose name is non-empty keeps its name, in the same order. */
  lemma {:induction false} TagNamesKeepsNamedTags(tags: seq<Json>)
    requires forall i :: 0 <= i < |tags| ==> Truthy(Some(TagName(tags[i])))
    ensures TagNames(tags) == seq(|tags|, i requires 0 <= i < |tags| => TagName(tags[i]))
  {
    if tags != [] {
      TagNamesKeepsNamedTags(tags[1..]);
    }
  }

  /** `names` holds the names of the tags at positions `idx`. */
  ghost predicate PicksNames(tags: seq<Json>, names: seq<Json>, idx: seq<int>)
  {
    && |idx| == |names|
    && forall k :: 0 <= k < |idx| ==> 0 <= idx[k] < |tags| && names[k] == TagName(tags[idx[k]])
  }

  predicate Increasing(idx: seq<int>)
  {
    forall k, l :: 0 <= k < l < |idx| ==> idx[k] < idx[l]
  }

  /** `idx` lists exactly the positions of the tags whose name is truthy. */
  ghost predicate CoversNamed(tags: seq<Json>, idx: seq<int>)
  {
    forall j :: 0 <= j < |tags| ==> (Truthy(Some(TagName(tags[j]))) <==> j in idx)
  }

  /** `idx` picks, in increasing order, exactly the tags whose name is
      truthy, and `names` holds their names. */
  ghost predicate SelectsNamedTags(tags: seq<Json>, names: seq<Json>, idx: seq<int>)
  {
    PicksNames(tags, names, idx) && Increasing(idx) && CoversNamed(tags, idx)
  }

  function Shift(idx: seq<int>): (r: seq<int>)
    ensures |r| == |idx| && forall k :: 0 <= k < |idx| ==> r[k] == idx[k] + 1
  {
    seq(|idx|, k requires 0 <= k < |idx| => idx[k] + 1)
  }

  lemma ShiftPicks(tags: seq<Json>, names: seq<Json>, inner: seq<int>)
    requires tags != [] && PicksNames(tags[1..], names, inner)
    ensures PicksNames(tags, names, Shift(inner))
    ensures forall k :: 0 <= k < |inner| ==> Shift(inner)[k] >= 1
  {
    var idx := Shift(inner);
    forall k | 0 <= k < |idx|
      ensures 0 <= idx[k] < |tags| && names[k] == TagName(tags[idx[k]])
    {
      assert tags[idx[k]] == tags[1..][inner[k]];
    }
  }

  lemma ShiftIncreasing(inner: seq<int>)
    requires Increasing(inner)
    ensures Increasing(Shift(inner))
  {
  }

  lemma ShiftCovers(tags: seq<Json>, inner: seq<int>)
    requires tags != [] && CoversNamed(tags[1..], inner)
    ensures forall j :: 1 <= j < |tags| ==> (Truthy(Some(TagName(tags[j]))) <==> j in Shift(inner))
  {
    var idx := Shift(inner);
    forall j | 1 <= j < |tags|
      ensures (Truthy(Some(TagName(tags[j]))) <==> j in idx)
    {
      assert tags[j] == tags[1..][j - 1];
      if j in idx {
        var k :| 0 <= k < |idx| && idx[k] == j;
        assert inner[k] == j - 1;
      }
      if j - 1 in inner {
        var k :| 0 <= k < |inner| && inner[k] == j - 1;
        assert idx[k] == j;
      }
    }
  }

  lemma PrependPicks(tags: seq<Json>, names: seq<Json>, shifted: seq<int>)
    requires tags != [] && PicksNames(tags, names, shifted)
    ensures PicksNames(tags, [TagName(tags[0])] + names, [0] + shifted)
  {
    var idx := [0] + shifted;
    var all := [TagName(tags[0])] + names;
    forall k | 0 < k < |idx| ensures 0 <= idx[k] < |tags| && all[k] == TagName(tags[idx[k]]) {
      assert idx[k] == shifted[k - 1] && all[k] == names[k - 1];
    }
  }

  lemma PrependIncreasing(shifted: seq<int>)
    requires Increasing(shifted) && forall k :: 0 <= k < |shifted| ==> shifted[k] >= 1
    ensures Increasing([0] + shifted)
  {
    var idx := [0] + shifted;
    forall k, l | 0 <= k < l < |idx| ensures idx[k] < idx[l] {
      assert idx[l] == shifted[l - 1];
      if k > 0 { assert idx[k] == shifted[k - 1]; }
    }
  }

  lemma PrependCovers(tags: seq<Json>, shifted: seq<int>)
    requires tags != [] && Truthy(Some(TagName(tags[0])))
    requires forall j :: 1 <= j < |tags| ==> (Truthy(Some(TagName(tags[j]))) <==> j in shifted)
    ensures CoversNamed(tags, [0] + shifted)
  {
    forall j | 1 <= j < |tags| ensures (Truthy(Some(TagName(tags[j]))) <==> j in [0] + shifted) {
      assert j in [0] + shifted <==> j in shifted;
    }
  }

  /** Keeping the first tag's name in front of a shifted selection. */
  lemma KeepFirstSelection(tags: seq<Json>, names: seq<Json>, inner: seq<int>)
    requires tags != [] && Truthy(Some(TagName(tags[0])))
    requires SelectsNamedTags(tags[1..], names, inner)
    ensures SelectsNamedTags(tags, [TagName(tags[0])] + names, [0] + Shift(inner))
  {
    ShiftPicks(tags, names, inner);
    ShiftIncreasing(inner);
    ShiftCovers(tags, inner);
    PrependPicks(tags, names, Shift(inner));
    PrependIncreasing(Shift(inner));
    PrependCovers(tags, Shift(inner));
  }

  /** Dropping the first tag, whose name is empty. */
  lemma DropFirstSelection(tags: seq<Json>, names: seq<Json>, inner: seq<int>)
    requires tags != [] && !Truthy(Some(TagName(tags[0])))
    requires SelectsNamedTags(tags[1..], names, inner)
    ensures SelectsNamedTags(tags, names, Shift(inner))
  {
    ShiftPicks(tags, names, inner);
    ShiftIncreasing(inner);
    ShiftCovers(tags, inner);
    assert CoversNamed(tags, Shift(inner)) by {
      forall j | 0 <= j < |tags| ensures (Truthy(Some(TagName(tags[j]))) <==> j in Shift(inner)) {
      }
    }
  }

  /** The names are those of the tags with a truthy name, each kept once
      and in the order of the tags: `.filter(Boolean)` drops exactly the
      empty ones. */
  lemma {:induction false} TagNamesSelects(tags: seq<Json>)
    ensures exists idx :: SelectsNamedTags(tags, TagNames(tags), idx)
  {
    if tags == [] {
      assert TagNames(tags) == [];
      assert SelectsNamedTags(tags, [], []);
    } else {
      var rest := tags[1..];
      TagNamesSelects(rest);
      var inner :| SelectsNamedTags(rest, TagNames(rest), inner);
      if Truthy(Some(TagName(tags[0]))) {
        KeepFirstSelection(tags, TagNames(rest), inner);
        assert SelectsNamedTags(tags, TagNames(tags), [0] + Shift(inner));
      } else {
        DropFirstSelection(tags, TagNames(rest), inner);
        assert SelectsNamedTags(tags, TagNames(tags), Shift(inner));
      }
    }
  }

  /** A list of non-empty strings passes through unchanged. */
  lemma TagNamesOfNames(tags: seq<Json>)
    requires forall i :: 0 <= i < |tags| ==> tags[i].JStr? && tags[i].s != ""
    ensures TagNames(tags) == tags
  {
    TagNamesKeepsNamedTags(tags);
  }

  /** Only a truthy value copied by `||` can differ from the literal
      fallback, so a field read this way is a string when every truthy
      value it may copy is one. */
  predicate StringWhenTruthy(x: Option<Json>)
  {
    Truthy(x) ==> x.value.JStr?
  }

  predicate TagHasStringName(t: Json)
  {
    t.JStr? || (StringWhenTruthy(Prop(t, "name")) && StringWhenTruthy(Prop(t, "slug")))
  }

  lemma {:induction false} TagNamesAreStrings(tags: seq<Json>)
    requires forall i :: 0 <= i < |tags| ==> TagHasStringName(tags[i])
    ensures forall i :: 0 <= i < |TagNames(tags)| ==> TagNames(tags)[i].JStr?
  {
    var names := TagNames(tags);
    forall i | 0 <= i < |names| ensures names[i].JStr? {
      var j :| 0 <= j < |tags| && TagName(tags[j]) == names[i];
      assert TagHasStringName(tags[j]);
    }
  }

  /** `array.map(f)` as a JSON array. */
  function MapToArray(f: Json -> Completion<Json>, xs: seq<Json>): Completion<Json>
  {
    match MapAll(f, xs)
    case Throw(err) => Throw(err)
    case Normal(ys) => Normal(JArr(ys))
  }

  // ---- search_recipes ----

  /** The first parameter named `name`. */
  function ParamValue(params: seq<Param>, name: string): (r: Option<Json>)
    ensures r.Some? <==> exists i :: 0 <= i < |params| && params[i].name == name
  {
    if params == [] then None
    else if params[0].name == name then Some(params[0].value)
    else
      var r := ParamValue(params[1..], name);
      assert forall i :: 1 <= i < |params| ==> params[i] == params[1..][i - 1];
      r
  }

  /** The search request: `search` is the query, `perPage` the limit (10
      when it is undefined), `tags` only when it is a non-empty array. The
      HTTP client leaves an undefined parameter out. */
  function SearchRequest(args: Json): HttpRequest
  {
    var query := Prop(args, "query");
    var limit := Prop(args, "limit");
    var tags := Prop(args, "tags");
    var perPage := if limit.None? then JNum(10) else limit.value;
    var tagList := if tags.None? then JArr([]) else tags.value;
    HttpGet("/api/recipes",
      (if query.Some? then [Param("search", query.value)] else [])
      + [Param("perPage", perPage)]
      + (if tagList.JArr? && |tagList.elems| > 0 then [Param("tags", tagList)] else []))
  }

  /** For accepted arguments the request carries the query, a page size in
      [1, 100] that is the caller's limit when given, and the tags exactly
      when the caller gave some; `page`, `perPage` and `requireAllTags` of
      the arguments are not forwarded. */
  lemma SearchRequestForwards(args: Json)
    requires SearchArgsAccepted(args)
    ensures var req := SearchRequest(args);
      var f := args.fields;
      && req.path == "/api/recipes"
      && ParamValue(req.params, "search") == Lookup(f, "query")
      && (var n := ParamValue(req.params, "perPage");
          n.Some? && n.value.JNum? && 1 <= n.value.n <= 100
          && (Lookup(f, "limit").Some? ==> n == Lookup(f, "limit"))
          && (Lookup(f, "limit").None? ==> n == Some(JNum(10))))
      && (ParamValue(req.params, "tags").Some? <==> Lookup(f, "tags").Some? && Lookup(f, "tags").value.elems != [])
      && (ParamValue(req.params, "tags").Some? ==> ParamValue(req.params, "tags") == Lookup(f, "tags"))
      && ParamValue(req.params, "page").None?
      && ParamValue(req.params, "requireAllTags").None?
  {
    var req := SearchRequest(args);
    var ps := req.params;
    assert ps[0].name == "search" && ps[1].name == "perPage";
    assert forall i :: 0 <= i < |ps| ==> ps[i].name in {"search", "perPage", "tags"};
    assert ParamValue(ps, "search") == Some(ps[0].value);
    assert ParamValue(ps, "perPage") == Some(ps[1].value) by {
      assert ParamValue(ps[1..], "perPage") == Some(ps[1].value);
    }
    if |ps| == 3 {
      assert ParamValue(ps, "tags") == Some(ps[2].value) by {
        assert ParamValue(ps[2..], "tags") == Some(ps[2].value);
        assert ps[1..][1..] == ps[2..];
      }
    }
  }

  /** Where the items of a search response are: `body.items` when it is an
      array, else the body itself when it is one, else nothing. */
  function SearchItems(body: Json): seq<Json>
  {
    var items := Prop(body, "items");
    if items.Some? && items.value.JArr? then items.value.elems
    else if body.JArr? then body.elems
    else []
  }

  /** One search result. A null item throws reading its `id`; an id or
      slug that `String` cannot convert throws the TypeError of the
      conversion. */
  function SearchItem(baseUrl: string, r: Json): Completion<Json>
  {
    if r == JNull then Throw(CannotReadProperty(Some(JNull), "id"))
    else
      var id := OrElse(Or(Prop(r, "id"), Prop(r, "slug")), JStr(""));
      var link := OrElse(Or(Prop(r, "slug"), Prop(r, "id")), JStr(""));
      if StringThrows(id) || StringThrows(link) then Throw(CannotConvertToPrimitive)
      else
        var tags := Prop(r, "tags");
        Normal(SearchResultObject(
          JStr(ValueString(id)),
          OrElse(Or(Prop(r, "name"), Prop(r, "title")), JStr("Untitled")),
          OrElse(Or(Prop(r, "description"), Prop(r, "summary")), JStr("")),
          JArr(if tags.Some? && tags.value.JArr? then TagNames(tags.value.elems) else []),
          JStr(RecipeUrl(baseUrl, ValueString(link)))))
  }

  /** The items a search result cannot be made from. */
  predicate UnshapeableItem(r: Json)
  {
    r == JNull || Unconvertible(Prop(r, "id")) || Unconvertible(Prop(r, "slug"))
  }

  /** An item fails exactly when it is null or its id or slug cannot be
      converted to a string; only a null item fails reading a property. */
  lemma SearchItemThrows(baseUrl: string, r: Json)
    ensures SearchItem(baseUrl, r).Throw? <==> UnshapeableItem(r)
    ensures r != JNull && UnshapeableItem(r) ==> SearchItem(baseUrl, r) == Throw(CannotConvertToPrimitive)
  {
  }

  /** One search result object, its members in the order the handler
      writes them. */
  function SearchResultObject(id: Json, title: Json, summary: Json, tags: Json, url: Json): Json
  {
    JObj([Field("id", id), Field("title", title), Field("summary", summary), Field("tags", tags), Field("url", url)])
  }

  lemma SearchResultObjectMembers(id: Json, title: Json, summary: Json, tags: Json, url: Json)
    ensures var f := SearchResultObject(id, title, summary, tags, url).fields;
      && Lookup(f, "id") == Some(id) && Lookup(f, "title") == Some(title)
      && Lookup(f, "summary") == Some(summary) && Lookup(f, "tags") == Some(tags)
      && Lookup(f, "url") == Some(url) && Lookup(f, "slug").None?
  {
    var f := SearchResultObject(id, title, summary, tags, url).fields;
    LookupAt(f, 0);
    LookupAt(f, 1);
    LookupAt(f, 2);
    LookupAt(f, 3);
    LookupAt(f, 4);
    LookupAbsent(f, "slug");
  }

  lemma SearchResultObjectAccepted(id: Json, title: Json, summary: Json, tags: Json, url: Json)
    requires id.JStr? && title.JStr? && summary.JStr? && IsStringArray(tags) && url.JStr?
    ensures SearchItemAccepted(SearchResultObject(id, title, summary, tags, url))
  {
    SearchResultObjectMembers(id, title, summary, tags, url);
  }

  /** The search result for a response body (`res.data || {}`). */
  function ShapeSearch(baseUrl: string, data: Option<Json>): Completion<Json>
  {
    var body := OrElse(data, JObj([]));
    match MapAll((r: Json) => SearchItem(baseUrl, r), SearchItems(body))
    case Throw(err) => Throw(err)
    case Normal(mapped) => Normal(JObj([Field("results", JArr(mapped))]))
  }

  /** The `search_recipes` handler. */
  function SearchRecipes(env: Env, args: Json): ToolRun
  {
    var invalid := Validate(SearchRecipesInput, args, env.report(SearchRecipesInput, args));
    if invalid.Some? then ToolRun([], Throw(invalid.value))
    else
      var req := SearchRequest(args);
      var outcome := match env.get(req)
        case Rejected(err) => Throw(err)
        case Fetched(data) => ShapeSearch(env.baseUrl, data);
      ToolRun([req], Rewrapped(outcome))
  }

  /** Rejected arguments fail with VALIDATION_ERROR before any request;
      accepted ones send exactly the search request. */
  lemma SearchValidatesFirst(env: Env, args: Json)
    ensures var run := SearchRecipes(env, args);
      && (!SearchArgsAccepted(args) ==>
            run.requests == [] && run.outcome.Throw?
            && run.outcome.error.code == Some(ValidationCode)
            && run.outcome.error.message == ValidationMessage(env.report(SearchRecipesInput, args)))
      && (SearchArgsAccepted(args) ==> run.requests == [SearchRequest(args)])
  {
    SearchRecipesInputMeaning(args);
  }

  /** After validation the tool returns the shaped response when the API
      answers and shaping succeeds; every failure, of the API or of the
      shaping, is reported with code MEALIE_HTTP_ERROR and the normalized
      message. */
  lemma SearchFailuresRewrapped(env: Env, args: Json)
    requires SearchArgsAccepted(args)
    ensures var req := SearchRequest(args);
      var run := SearchRecipes(env, args);
      && (env.get(req).Rejected? ==> run.outcome == Throw(UpstreamError(env.get(req).error)))
      && (env.get(req).Fetched? && ShapeSearch(env.baseUrl, env.get(req).data).Normal? ==>
            run.outcome == ShapeSearch(env.baseUrl, env.get(req).data))
      && (env.get(req).Fetched? && ShapeSearch(env.baseUrl, env.get(req).data).Throw? ==>
            run.outcome == Throw(UpstreamError(ShapeSearch(env.baseUrl, env.get(req).data).error)))
      && (run.outcome.Throw? ==> run.outcome.error.code == Some(UpstreamCode))
  {
    SearchRecipesInputMeaning(args);
  }

  /** Shaping fails exactly when the response lists a null item or one
      whose id or slug cannot be converted to a string; otherwise there is
      one result per item, in order. */
  lemma ShapeSearchOnePerItem(baseUrl: string, data: Option<Json>)
    ensures var items := SearchItems(OrElse(data, JObj([])));
      var out := ShapeSearch(baseUrl, data);
      && (out.Throw? <==> exists i :: 0 <= i < |items| && UnshapeableItem(items[i]))
      && (out.Normal? ==>
            var results := Lookup(out.value.fields, "results").value;
            out.value.JObj? && Keys(out.value.fields) == {"results"}
            && results.JArr? && |results.elems| == |items|
            && forall i :: 0 <= i < |items| ==> results.elems[i] == SearchItem(baseUrl, items[i]).value)
  {
    var out := ShapeSearch(baseUrl, data);
    var items := SearchItems(OrElse(data, JObj([])));
    forall i | 0 <= i < |items| ensures SearchItem(baseUrl, items[i]).Throw? <==> UnshapeableItem(items[i]) {
      SearchItemThrows(baseUrl, items[i]);
    }
    if out.Normal? {
      LookupAt(out.value.fields, 0);
      KeysWithin(out.value.fields, {"results"});
    }
  }

  /** An upstream item whose id and slug convert to strings and whose
      copied fields are strings when truthy. */
  predicate StringyItem(r: Json)
  {
    var tags := Prop(r, "tags");
    && !Unconvertible(Prop(r, "id")) && !Unconvertible(Prop(r, "slug"))
    && StringWhenTruthy(Prop(r, "name")) && StringWhenTruthy(Prop(r, "title"))
    && StringWhenTruthy(Prop(r, "description")) && StringWhenTruthy(Prop(r, "summary"))
    && (tags.Some? && tags.value.JArr? ==> forall j :: 0 <= j < |tags.value.elems| ==> TagHasStringName(tags.value.elems[j]))
  }

  lemma SearchItemConforms(baseUrl: string, r: Json)
    requires r != JNull && StringyItem(r)
    ensures SearchItemAccepted(SearchItem(baseUrl, r).value)
  {
    var tags := Prop(r, "tags");
    if tags.Some? && tags.value.JArr? {
      TagNamesAreStrings(tags.value.elems);
    }
    SearchResultObjectAccepted(
      JStr(ValueString(OrElse(Or(Prop(r, "id"), Prop(r, "slug")), JStr("")))),
      OrElse(Or(Prop(r, "name"), Prop(r, "title")), JStr("Untitled")),
      OrElse(Or(Prop(r, "description"), Prop(r, "summary")), JStr("")),
      JArr(if tags.Some? && tags.value.JArr? then TagNames(tags.value.elems) else []),
      JStr(RecipeUrl(baseUrl, ValueString(OrElse(Or(Prop(r, "slug"), Prop(r, "id")), JStr(""))))));
  }

  /** The fallbacks of one search result: `id` is the item's id, else its
      slug, else ""; `title` its name, else its title, else "Untitled";
      `summary` its description, else its summary, else ""; `tags` the
      names of its tags when they are an array, else none; `url` the link
      to its slug, else its id. An id or slug that cannot be converted to a
      string makes the item fail instead. */
  lemma SearchItemFallbacks(baseUrl: string, r: Json)
    requires r != JNull
    ensures var out := SearchItem(baseUrl, r);
      && (out.Throw? <==> Unconvertible(Prop(r, "id")) || Unconvertible(Prop(r, "slug")))
      && (out.Throw? ==> out.error == CannotConvertToPrimitive)
    ensures var out := SearchItem(baseUrl, r);
      var id, slug := Prop(r, "id"), Prop(r, "slug");
      var tags := Prop(r, "tags");
      out.Normal? ==>
        var f := out.value.fields;
        && Lookup(f, "id") == Some(JStr(if Truthy(id) then ValueString(id.value)
                                        else if Truthy(slug) then ValueString(slug.value) else ""))
        && (Truthy(Prop(r, "name")) ==> Lookup(f, "title") == Prop(r, "name"))
        && (!Truthy(Prop(r, "name")) && Truthy(Prop(r, "title")) ==> Lookup(f, "title") == Prop(r, "title"))
        && (!Truthy(Prop(r, "name")) && !Truthy(Prop(r, "title")) ==> Lookup(f, "title") == Some(JStr("Untitled")))
        && (Truthy(Prop(r, "description")) ==> Lookup(f, "summary") == Prop(r, "description"))
        && (!Truthy(Prop(r, "description")) && Truthy(Prop(r, "summary")) ==> Lookup(f, "summary") == Prop(r, "summary"))
        && (!Truthy(Prop(r, "description")) && !Truthy(Prop(r, "summary")) ==> Lookup(f, "summary") == Some(JStr("")))
        && Lookup(f, "tags") == Some(JArr(if tags.Some? && tags.value.JArr? then TagNames(tags.value.elems) else []))
        && Lookup(f, "url") == Some(JStr(RecipeUrl(baseUrl,
             if Truthy(slug) then ValueString(slug.value) else if Truthy(id) then ValueString(id.value) else "")))
  {
    SearchItemThrows(baseUrl, r);
    var tags := Prop(r, "tags");
    SearchResultObjectMembers(
      JStr(ValueString(OrElse(Or(Prop(r, "id"), Prop(r, "slug")), JStr("")))),
      OrElse(Or(Prop(r, "name"), Prop(r, "title")), JStr("Untitled")),
      OrElse(Or(Prop(r, "description"), Prop(r, "summary")), JStr("")),
      JArr(if tags.Some? && tags.value.JArr? then TagNames(tags.value.elems) else []),
      JStr(RecipeUrl(baseUrl, ValueString(OrElse(Or(Prop(r, "slug"), Prop(r, "id")), JStr(""))))));
  }

  /** The search output matches its declared output schema whenever every
      listed item is non-null and its copied fields are strings. */
  lemma SearchOutputConforms(baseUrl: string, data: Option<Json>)
    requires var items := SearchItems(OrElse(data, JObj([])));
      forall i :: 0 <= i < |items| ==> items[i] != JNull && StringyItem(items[i])
    ensures ShapeSearch(baseUrl, data).Normal?
    ensures Conforms(SearchRecipesOutput, ShapeSearch(baseUrl, data).value)
  {
    var items := SearchItems(OrElse(data, JObj([])));
    ShapeSearchOnePerItem(baseUrl, data);
    var out := ShapeSearch(baseUrl, data).value;
    var results := Lookup(out.fields, "results").value;
    forall i | 0 <= i < |results.elems| ensures SearchItemAccepted(results.elems[i]) {
      SearchItemConforms(baseUrl, items[i]);
    }
    SearchRecipesOutputMeaning(out);
  }

  // ---- get_recipe_by_id ----

  /** `i => i.note || i.text || i.name || ""`. */
  function IngredientLine(i: Json): Completion<Json>
  {
    if i == JNull then Throw(CannotReadProperty(Some(JNull), "note"))
    else Normal(OrElse(Or(Or(Prop(i, "note"), Prop(i, "text")), Prop(i, "name")), JStr("")))
  }

  /** `s => s.text || s.step || ""`. */
  function StepText(s: Json): Completion<Json>
  {
    if s == JNull then Throw(CannotReadProperty(Some(JNull), "text"))
    else Normal(OrElse(Or(Prop(s, "text"), Prop(s, "step")), JStr("")))
  }

  /** A string step as it is, else its text. */
  function InstructionStep(s: Json): Completion<Json>
  {
    if s.JStr? then Normal(s) else StepText(s)
  }

  /** The ingredients: `recipeIngredient` as it is when truthy, else one
      line per entry of `ingredients` (none when it is falsy). The final
      `|| []` of the source never applies: an array is truthy. */
  function Ingredients(d: Json): Completion<Json>
  {
    var given := Prop(d, "recipeIngredient");
    if Truthy(given) then Normal(given.value)
    else
      var list := OrElse(Prop(d, "ingredients"), JArr([]));
      if !list.JArr? then Throw(NotAFunction("(data.ingredients || []).map"))
      else MapToArray(IngredientLine, list.elems)
  }

  /** The instructions: the steps of `recipeInstructions` when truthy,
      else the texts of `steps` or `instructions`. */
  function Instructions(d: Json): Completion<Json>
  {
    var given := Prop(d, "recipeInstructions");
    if Truthy(given) then
      if !given.value.JArr? then Throw(NotAFunction("data.recipeInstructions.map"))
      else MapToArray(InstructionStep, given.value.elems)
    else
      var list := OrElse(Or(Prop(d, "steps"), Prop(d, "instructions")), JArr([]));
      if !list.JArr? then Throw(NotAFunction("(data.steps || data.instructions || []).map"))
      else MapToArray(StepText, list.elems)
  }

  /** The tag names of `tags`, else of `recipeCategory`. */
  function RecipeTags(d: Json): Completion<Json>
  {
    var list := OrElse(Or(Prop(d, "tags"), Prop(d, "recipeCategory")), JArr([]));
    if !list.JArr? then Throw(NotAFunction("(data.tags || data.recipeCategory || []).map"))
    else Normal(JArr(TagNames(list.elems)))
  }

  /** The recipe output for the body `data` of the response to the request
      for `key`. */
  function ShapeRecipe(baseUrl: string, key: Option<Json>, data: Option<Json>): Completion<Json>
  {
    if data.None? || data.value == JNull then Throw(CannotReadProperty(data, "recipeIngredient"))
    else
      var d := data.value;
      match Ingredients(d)
      case Throw(err) => Throw(err)
      case Normal(ingredients) =>
        match Instructions(d)
        case Throw(err) => Throw(err)
        case Normal(instructions) =>
          match RecipeTags(d)
          case Throw(err) => Throw(err)
          case Normal(tags) =>
            var id := Or(Prop(d, "id"), key);
            var link := Or(Prop(d, "slug"), key);
            if Unconvertible(id) || Unconvertible(link) then Throw(CannotConvertToPrimitive)
            else
              Normal(RecipeObject(
                JStr(JsString(id)),
                OrElse(Or(Prop(d, "name"), Prop(d, "title")), JStr("Untitled")),
                OrElse(Prop(d, "description"), JStr("")),
                ingredients,
                instructions,
                tags,
                JStr(RecipeUrl(baseUrl, JsString(link)))))
  }

  /** The recipe output object, its members in the order the handler
      writes them. */
  function RecipeObject(id: Json, title: Json, description: Json, ingredients: Json,
                        instructions: Json, tags: Json, url: Json): Json
  {
    JObj([
      Field("id", id), Field("title", title), Field("description", description),
      Field("ingredients", ingredients), Field("instructions", instructions),
      Field("tags", tags), Field("url", url)])
  }

  /** The get-recipe handler once it has chosen the `key` it asks for. */
  function FetchRecipe(env: Env, args: Json, key: Option<Json>): ToolRun
  {
    var invalid := Validate(GetRecipeInput, args, env.report(GetRecipeInput, args));
    if invalid.Some? then ToolRun([], Throw(invalid.value))
    else
      var req := HttpGet("/api/recipes/" + JsString(key), []);
      var outcome := match env.get(req)
        case Rejected(err) => Throw(err)
        case Fetched(data) => ShapeRecipe(env.baseUrl, key, data);
      ToolRun([req], Rewrapped(outcome))
  }

  /** `get_recipe_by_id` as written: it asks for `args.id` only. */
  function GetRecipeByIdAsWritten(env: Env, args: Json): ToolRun
  {
    FetchRecipe(env, args, Prop(args, "id"))
  }

  /** The recipe the caller names: `id ?? slug`. */
  function RecipeKey(args: Json): Option<Json>
  {
    var id := Prop(args, "id");
    if id.Some? then id else Prop(args, "slug")
  }

  /** `get_recipe_by_id` asking for the id or, failing that, the slug. */
  function GetRecipeById(env: Env, args: Json): ToolRun
  {
    FetchRecipe(env, args, RecipeKey(args))
  }

  /** Arguments naming a recipe by slug alone are accepted, yet the handler
      as written asks for "/api/recipes/undefined". */
  lemma SlugOnlyRequestAsWritten(env: Env)
    ensures var args := JObj([Field("slug", JStr("pasta"))]);
      && GetRecipeArgsAccepted(args)
      && GetRecipeByIdAsWritten(env, args).requests == [HttpGet("/api/recipes/" + "undefined", [])]
  {
    var args := JObj([Field("slug", JStr("pasta"))]);
    KeysWithin(args.fields, {"slug"});
    LookupAt(args.fields, 0);
    LookupAbsent(args.fields, "id");
    assert GetRecipeArgsAccepted(args);
    GetRecipeInputMeaning(args);
    assert GetRecipeByIdAsWritten(env, args) == FetchRecipe(env, args, None);
  }

  /** Accepted arguments make the handler ask for exactly the id or slug
      the caller gave; rejected ones fail with VALIDATION_ERROR before any
      request. */
  lemma GetRecipeRequestsNamedRecipe(env: Env, args: Json)
    ensures var run := GetRecipeById(env, args);
      && (GetRecipeArgsAccepted(args) ==>
            exists name: string, key: string ::
              && name in {"id", "slug"}
              && Lookup(args.fields, name) == Some(JStr(key))
              && key != ""
              && run.requests == [HttpGet("/api/recipes/" + key, [])])
      && (!GetRecipeArgsAccepted(args) ==>
            run.requests == [] && run.outcome.Throw? && run.outcome.error.code == Some(ValidationCode))
  {
    GetRecipeInputMeaning(args);
    if GetRecipeArgsAccepted(args) {
      var name := if "id" in Keys(args.fields) then "id" else "slug";
      var key := Lookup(args.fields, name).value.s;
      assert RecipeKey(args) == Some(JStr(key));
      assert GetRecipeById(env, args).requests == [HttpGet("/api/recipes/" + key, [])];
    }
  }

  /** After validation the handler, whatever key it asks for, sends one
      request for that key and returns the shaped recipe when the API
      answers and shaping succeeds; every failure, of the API or of the
      shaping, is reported with code MEALIE_HTTP_ERROR and the normalized
      message. */
  lemma FetchRecipeRewrapped(env: Env, args: Json, key: Option<Json>)
    requires GetRecipeArgsAccepted(args)
    ensures var req := HttpGet("/api/recipes/" + JsString(key), []);
      var run := FetchRecipe(env, args, key);
      && run.requests == [req]
      && (env.get(req).Rejected? ==> run.outcome == Throw(UpstreamError(env.get(req).error)))
      && (env.get(req).Fetched? && ShapeRecipe(env.baseUrl, key, env.get(req).data).Normal? ==>
            run.outcome == ShapeRecipe(env.baseUrl, key, env.get(req).data))
      && (env.get(req).Fetched? && ShapeRecipe(env.baseUrl, key, env.get(req).data).Throw? ==>
            run.outcome == Throw(UpstreamError(ShapeRecipe(env.baseUrl, key, env.get(req).data).error)))
      && (run.outcome.Throw? ==> run.outcome.error.code == Some(UpstreamCode))
  {
    GetRecipeInputMeaning(args);
  }

  /** The handler as written, which asks for `args.id`: its failures are
      rewrapped in the same way, for the request it actually sends. */
  lemma GetRecipeAsWrittenRewrapped(env: Env, args: Json)
    requires GetRecipeArgsAccepted(args)
    ensures var key := Prop(args, "id");
      var req := HttpGet("/api/recipes/" + JsString(key), []);
      var run := GetRecipeByIdAsWritten(env, args);
      && run.requests == [req]
      && (env.get(req).Rejected? ==> run.outcome == Throw(UpstreamError(env.get(req).error)))
      && (env.get(req).Fetched? && ShapeRecipe(env.baseUrl, key, env.get(req).data).Normal? ==>
            run.outcome == ShapeRecipe(env.baseUrl, key, env.get(req).data))
      && (env.get(req).Fetched? && ShapeRecipe(env.baseUrl, key, env.get(req).data).Throw? ==>
            run.outcome == Throw(UpstreamError(ShapeRecipe(env.baseUrl, key, env.get(req).data).error)))
      && (run.outcome.Throw? ==> run.outcome.error.code == Some(UpstreamCode))
  {
    FetchRecipeRewrapped(env, args, Prop(args, "id"));
  }

  /** The corrected handler, which asks for `id ?? slug`: the same, for the
      request naming the recipe the caller gave. */
  lemma GetRecipeFailuresRewrapped(env: Env, args: Json)
    requires GetRecipeArgsAccepted(args)
    ensures var req := HttpGet("/api/recipes/" + JsString(RecipeKey(args)), []);
      var run := GetRecipeById(env, args);
      && run.requests == [req]
      && (env.get(req).Rejected? ==> run.outcome == Throw(UpstreamError(env.get(req).error)))
      && (env.get(req).Fetched? && ShapeRecipe(env.baseUrl, RecipeKey(args), env.get(req).data).Normal? ==>
            run.outcome == ShapeRecipe(env.baseUrl, RecipeKey(args), env.get(req).data))
      && (env.get(req).Fetched? && ShapeRecipe(env.baseUrl, RecipeKey(args), env.get(req).data).Throw? ==>
            run.outcome == Throw(UpstreamError(ShapeRecipe(env.baseUrl, RecipeKey(args), env.get(req).data).error)))
      && (run.outcome.Throw? ==> run.outcome.error.code == Some(UpstreamCode))
  {
    FetchRecipeRewrapped(env, args, RecipeKey(args));
  }

  /** Shaping reads the ingredients, then the instructions, then the
      tags, and converts the id and the link reference last: the first of
      these that fails decides the error, and shaping succeeds exactly when
      none fails. The tags fail only when their list is not an array. */
  lemma ShapeRecipeFailsInOrder(baseUrl: string, key: Option<Json>, d: Json)
    requires d != JNull
    ensures var out := ShapeRecipe(baseUrl, key, Some(d));
      var id, link := Or(Prop(d, "id"), key), Or(Prop(d, "slug"), key);
      && (out.Normal? <==> Ingredients(d).Normal? && Instructions(d).Normal? && RecipeTags(d).Normal?
                           && !Unconvertible(id) && !Unconvertible(link))
      && (Ingredients(d).Throw? ==> out == Throw(Ingredients(d).error))
      && (Ingredients(d).Normal? && Instructions(d).Throw? ==> out == Throw(Instructions(d).error))
      && (Ingredients(d).Normal? && Instructions(d).Normal? && RecipeTags(d).Throw? ==> out == Throw(RecipeTags(d).error))
      && (Ingredients(d).Normal? && Instructions(d).Normal? && RecipeTags(d).Normal? && out.Throw? ==>
            out.error == CannotConvertToPrimitive)
    ensures RecipeTags(d).Normal? <==> OrElse(Or(Prop(d, "tags"), Prop(d, "recipeCategory")), JArr([])).JArr?
  {
  }

  /** A missing or null body fails reading its ingredients. */
  lemma EmptyRecipeBodyFails(baseUrl: string, key: Option<Json>, data: Option<Json>)
    requires data.None? || data == Some(JNull)
    ensures ShapeRecipe(baseUrl, key, data) == Throw(CannotReadProperty(data, "recipeIngredient"))
    ensures ShapeRecipe(baseUrl, key, data).error.name == "TypeError"
  {
  }

  /** The instructions keep one entry per step, in order and unfiltered:
      from `recipeInstructions` when it is truthy, a string step kept as it
      is; otherwise from `steps` or `instructions`. The list used must be
      an array without null steps: a list that is not an array fails
      calling `map`, a null step fails reading its `text`. */
  lemma InstructionsOnePerStep(d: Json)
    ensures var given := Prop(d, "recipeInstructions");
      var others := OrElse(Or(Prop(d, "steps"), Prop(d, "instructions")), JArr([]));
      var out := Instructions(d);
      && (Truthy(given) ==>
            (out.Normal? <==> given.value.JArr? && forall i :: 0 <= i < |given.value.elems| ==> given.value.elems[i] != JNull))
      && (!Truthy(given) ==>
            (out.Normal? <==> others.JArr? && forall i :: 0 <= i < |others.elems| ==> others.elems[i] != JNull))
      && (Truthy(given) && !given.value.JArr? ==> out == Throw(NotAFunction("data.recipeInstructions.map")))
      && (!Truthy(given) && !others.JArr? ==> out == Throw(NotAFunction("(data.steps || data.instructions || []).map")))
      && (Truthy(given) && given.value.JArr? && out.Normal? ==>
            && out.value.JArr? && |out.value.elems| == |given.value.elems|
            && forall i :: 0 <= i < |given.value.elems| ==>
                 (given.value.elems[i].JStr? ==> out.value.elems[i] == given.value.elems[i])
                 && out.value.elems[i] == InstructionStep(given.value.elems[i]).value)
      && (!Truthy(given) && others.JArr? && out.Normal? ==>
            && out.value.JArr? && |out.value.elems| == |others.elems|
            && forall i :: 0 <= i < |others.elems| ==> out.value.elems[i] == StepText(others.elems[i]).value)
  {
  }

  /** The ingredients are `recipeIngredient` as given when it is truthy;
      otherwise one line per entry of `ingredients`, in order, which must
      be an array without null entries: a list that is not an array fails
      calling `map`, a null entry fails reading its `note`. */
  lemma IngredientsOnePerEntry(d: Json)
    ensures var given := Prop(d, "recipeIngredient");
      var list := OrElse(Prop(d, "ingredients"), JArr([]));
      var out := Ingredients(d);
      && (Truthy(given) ==> out == Normal(given.value))
      && (!Truthy(given) ==>
            (out.Normal? <==> list.JArr? && forall i :: 0 <= i < |list.elems| ==> list.elems[i] != JNull))
      && (!Truthy(given) && !list.JArr? ==> out == Throw(NotAFunction("(data.ingredients || []).map")))
      && (!Truthy(given) && list.JArr? && out.Normal? ==>
            && out.value.JArr? && |out.value.elems| == |list.elems|
            && forall i :: 0 <= i < |list.elems| ==> out.value.elems[i] == IngredientLine(list.elems[i]).value)
  {
  }

  /** The fallbacks of a recipe: `id` is the recipe's id, else the key it
      was requested by; `title` its name, else its title, else "Untitled";
      `description` its description, else ""; `tags` the non-empty names of its
      tags, else of its categories; `url` the link to its slug, else to the
      key. */
  lemma RecipeFallbacks(baseUrl: string, key: Option<Json>, d: Json)
    requires ShapeRecipe(baseUrl, key, Some(d)).Normal?
    ensures var f := ShapeRecipe(baseUrl, key, Some(d)).value.fields;
      var id, slug := Prop(d, "id"), Prop(d, "slug");
      && Lookup(f, "id") == Some(JStr(if Truthy(id) then ValueString(id.value) else JsString(key)))
      && (Truthy(Prop(d, "name")) ==> Lookup(f, "title") == Prop(d, "name"))
      && (!Truthy(Prop(d, "name")) && Truthy(Prop(d, "title")) ==> Lookup(f, "title") == Prop(d, "title"))
      && (!Truthy(Prop(d, "name")) && !Truthy(Prop(d, "title")) ==> Lookup(f, "title") == Some(JStr("Untitled")))
      && (Truthy(Prop(d, "description")) ==> Lookup(f, "description") == Prop(d, "description"))
      && (!Truthy(Prop(d, "description")) ==> Lookup(f, "description") == Some(JStr("")))
      && Lookup(f, "ingredients") == Some(Ingredients(d).value)
      && Lookup(f, "instructions") == Some(Instructions(d).value)
      && Lookup(f, "tags") == Some(RecipeTags(d).value)
      && RecipeTags(d).value.JArr?
      && (forall i :: 0 <= i < |RecipeTags(d).value.elems| ==> Truthy(Some(RecipeTags(d).value.elems[i])))
      && Lookup(f, "url") == Some(JStr(RecipeUrl(baseUrl, if Truthy(slug) then ValueString(slug.value) else JsString(key))))
  {
    var id := JStr(JsString(Or(Prop(d, "id"), key)));
    var title := OrElse(Or(Prop(d, "name"), Prop(d, "title")), JStr("Untitled"));
    var description := OrElse(Prop(d, "description"), JStr(""));
    var url := JStr(RecipeUrl(baseUrl, JsString(Or(Prop(d, "slug"), key))));
    assert ShapeRecipe(baseUrl, key, Some(d)).value
      == RecipeObject(id, title, description, Ingredients(d).value, Instructions(d).value, RecipeTags(d).value, url);
    RecipeObjectMembers(id, title, description, Ingredients(d).value, Instructions(d).value, RecipeTags(d).value, url);
  }

  /** An upstream recipe whose id and slug convert to strings, whose
      copied fields are strings when truthy and
      whose lists are lists of strings or of objects with string texts. */
  predicate StringyRecipe(d: Json)
  {
    var given := Prop(d, "recipeIngredient");
    var ingredients := OrElse(Prop(d, "ingredients"), JArr([]));
    var steps := Prop(d, "recipeInstructions");
    var otherSteps := OrElse(Or(Prop(d, "steps"), Prop(d, "instructions")), JArr([]));
    var tags := OrElse(Or(Prop(d, "tags"), Prop(d, "recipeCategory")), JArr([]));
    && d.JObj?
    && !Unconvertible(Prop(d, "id")) && !Unconvertible(Prop(d, "slug"))
    && StringWhenTruthy(Prop(d, "name")) && StringWhenTruthy(Prop(d, "title"))
    && StringWhenTruthy(Prop(d, "description"))
    && (Truthy(given) ==> IsStringArray(given.value))
    && (!Truthy(given) ==> ingredients.JArr? && forall i :: 0 <= i < |ingredients.elems| ==> StringyIngredient(ingredients.elems[i]))
    && (Truthy(steps) ==> steps.value.JArr? && forall i :: 0 <= i < |steps.value.elems| ==> steps.value.elems[i].JStr? || StringyStep(steps.value.elems[i]))
    && (!Truthy(steps) ==> otherSteps.JArr? && forall i :: 0 <= i < |otherSteps.elems| ==> StringyStep(otherSteps.elems[i]))
    && tags.JArr? && forall i :: 0 <= i < |tags.elems| ==> TagHasStringName(tags.elems[i])
  }

  predicate StringyIngredient(i: Json)
  {
    i != JNull && StringWhenTruthy(Prop(i, "note")) && StringWhenTruthy(Prop(i, "text")) && StringWhenTruthy(Prop(i, "name"))
  }

  predicate StringyStep(s: Json)
  {
    s != JNull && StringWhenTruthy(Prop(s, "text")) && StringWhenTruthy(Prop(s, "step"))
  }

  lemma MapToArrayStrings(f: Json -> Completion<Json>, xs: seq<Json>)
    requires forall i :: 0 <= i < |xs| ==> f(xs[i]).Normal? && f(xs[i]).value.JStr?
    ensures MapToArray(f, xs).Normal? && IsStringArray(MapToArray(f, xs).value)
  {
  }

  lemma IngredientsAreStrings(d: Json)
    requires StringyRecipe(d)
    ensures Ingredients(d).Normal? && IsStringArray(Ingredients(d).value)
  {
    if !Truthy(Prop(d, "recipeIngredient")) {
      var list := OrElse(Prop(d, "ingredients"), JArr([]));
      MapToArrayStrings(IngredientLine, list.elems);
    }
  }

  lemma InstructionsAreStrings(d: Json)
    requires StringyRecipe(d)
    ensures Instructions(d).Normal? && IsStringArray(Instructions(d).value)
  {
    var steps := Prop(d, "recipeInstructions");
    if Truthy(steps) {
      MapToArrayStrings(InstructionStep, steps.value.elems);
    } else {
      var list := OrElse(Or(Prop(d, "steps"), Prop(d, "instructions")), JArr([]));
      MapToArrayStrings(StepText, list.elems);
    }
  }

  lemma RecipeTagsAreStrings(d: Json)
    requires StringyRecipe(d)
    ensures RecipeTags(d).Normal? && IsStringArray(RecipeTags(d).value)
  {
    var tags := OrElse(Or(Prop(d, "tags"), Prop(d, "recipeCategory")), JArr([]));
    TagNamesAreStrings(tags.elems);
  }

  lemma RecipeObjectLeadingMembers(id: Json, title: Json, description: Json, ingredients: Json,
                                   instructions: Json, tags: Json, url: Json)
    ensures var f := RecipeObject(id, title, description, ingredients, instructions, tags, url).fields;
      && Lookup(f, "id") == Some(id) && Lookup(f, "title") == Some(title)
      && Lookup(f, "description") == Some(description) && Lookup(f, "ingredients") == Some(ingredients)
  {
    var f := RecipeObject(id, title, description, ingredients, instructions, tags, url).fields;
    LookupAt(f, 0);
    LookupAt(f, 1);
    LookupAt(f, 2);
    LookupAt(f, 3);
  }

  lemma RecipeObjectTrailingMembers(id: Json, title: Json, description: Json, ingredients: Json,
                                    instructions: Json, tags: Json, url: Json)
    ensures var f := RecipeObject(id, title, description, ingredients, instructions, tags, url).fields;
      && Lookup(f, "instructions") == Some(instructions) && Lookup(f, "tags") == Some(tags)
      && Lookup(f, "url") == Some(url) && Lookup(f, "slug").None?
  {
    var f := RecipeObject(id, title, description, ingredients, instructions, tags, url).fields;
    LookupAt(f, 4);
    LookupAt(f, 5);
    LookupAt(f, 6);
    LookupAbsent(f, "slug");
  }

  /** The recipe object reads back each member it was built from, and has
      no slug. */
  lemma RecipeObjectMembers(id: Json, title: Json, description: Json, ingredients: Json,
                            instructions: Json, tags: Json, url: Json)
    ensures var f := RecipeObject(id, title, description, ingredients, instructions, tags, url).fields;
      && Lookup(f, "id") == Some(id) && Lookup(f, "title") == Some(title)
      && Lookup(f, "description") == Some(description) && Lookup(f, "ingredients") == Some(ingredients)
      && Lookup(f, "instructions") == Some(instructions) && Lookup(f, "tags") == Some(tags)
      && Lookup(f, "url") == Some(url) && Lookup(f, "slug").None?
  {
    RecipeObjectLeadingMembers(id, title, description, ingredients, instructions, tags, url);
    RecipeObjectTrailingMembers(id, title, description, ingredients, instructions, tags, url);
  }

  lemma RecipeObjectKeys(id: Json, title: Json, description: Json, ingredients: Json,
                         instructions: Json, tags: Json, url: Json)
    ensures var f := RecipeObject(id, title, description, ingredients, instructions, tags, url).fields;
      Keys(f) <= {"id", "title", "description", "ingredients", "instructions", "tags", "slug", "url"}
  {
    var f := RecipeObject(id, title, description, ingredients, instructions, tags, url).fields;
    KeysWithin(f, {"id", "title", "description", "ingredients", "instructions", "tags", "slug", "url"});
  }

  lemma RecipeObjectAccepted(id: Json, title: Json, description: Json, ingredients: Json,
                             instructions: Json, tags: Json, url: Json)
    requires id.JStr? && title.JStr? && description.JStr? && url.JStr?
    requires IsStringArray(ingredients) && IsStringArray(instructions) && IsStringArray(tags)
    ensures RecipeOutputAccepted(RecipeObject(id, title, description, ingredients, instructions, tags, url))
  {
    RecipeObjectMembers(id, title, description, ingredients, instructions, tags, url);
    RecipeObjectKeys(id, title, description, ingredients, instructions, tags, url);
  }

  /** The recipe output matches its declared output schema whenever the
      upstream recipe is a stringy one. */
  lemma RecipeOutputConforms(baseUrl: string, key: Option<Json>, d: Json)
    requires StringyRecipe(d) && !Unconvertible(key)
    ensures ShapeRecipe(baseUrl, key, Some(d)).Normal?
    ensures Conforms(GetRecipeOutput, ShapeRecipe(baseUrl, key, Some(d)).value)
  {
    IngredientsAreStrings(d);
    InstructionsAreStrings(d);
    RecipeTagsAreStrings(d);
    var title := OrElse(Or(Prop(d, "name"), Prop(d, "title")), JStr("Untitled"));
    var description := OrElse(Prop(d, "description"), JStr(""));
    RecipeObjectAccepted(
      JStr(JsString(Or(Prop(d, "id"), key))), title, description,
      Ingredients(d).value, Instructions(d).value, RecipeTags(d).value,
      JStr(RecipeUrl(baseUrl, JsString(Or(Prop(d, "slug"), key)))));
    GetRecipeOutputMeaning(ShapeRecipe(baseUrl, key, Some(d)).value);
  }

  // ---- the registry ----

  /** The tools the server is started with, in declaration order, each
      with its schemas rendered as JSON Schema documents. */
  function Registry(env: Env): (tools: seq<Tool>)
    ensures Serves(tools, env) && Describes(tools)
  {
    [ Tool("search_recipes", "Search Mealie recipes by text query, with optional tags and limit.",
        Some(ToJson(SearchRecipesInput)), Some(ToJson(SearchRecipesOutput)),
        (args: Json) => SearchRecipes(env, args).outcome),
      Tool("get_recipe_by_id", "Fetch a full recipe by ID (or slug).",
        Some(ToJson(GetRecipeInput)), Some(ToJson(GetRecipeOutput)),
        (args: Json) => GetRecipeById(env, args).outcome) ]
  }

  /** `tools` registers the two handlers, in this order, under their
      names. */
  ghost predicate Serves(tools: seq<Tool>, env: Env)
  {
    && |tools| == 2
    && tools[0].name == "search_recipes" && tools[1].name == "get_recipe_by_id"
    && (forall args :: tools[0].handler(args) == SearchRecipes(env, args).outcome)
    && (forall args :: tools[1].handler(args) == GetRecipeById(env, args).outcome)
  }

  /** Through the server, the registered tools (those `Registry` returns)
      are dispatched by name: `tools/call` runs the search handler for a name
      that converts to "search_recipes", the get-recipe handler for one
      that converts to "get_recipe_by_id", and fails with -32601 for a
      falsy name or any other name that converts. */
  lemma RegistryDispatch(env: Env, tools: seq<Tool>, params: Json)
    requires Serves(tools, env)
    ensures var name := Prop(params, "name");
      var args := OrElse(Prop(params, "args"), JObj([]));
      var call := CallTool(tools, params);
      && (Truthy(name) && !Unconvertible(name) && ValueString(name.value) == "search_recipes" ==>
            call.invoked == Some(Invocation(0, args)) && call.outcome == SearchRecipes(env, args).outcome)
      && (Truthy(name) && !Unconvertible(name) && ValueString(name.value) == "get_recipe_by_id" ==>
            call.invoked == Some(Invocation(1, args)) && call.outcome == GetRecipeById(env, args).outcome)
      && (!Truthy(name) || (!Unconvertible(name) && ValueString(name.value) !in {"search_recipes", "get_recipe_by_id"}) ==>
            call.invoked.None? && call.outcome == Throw(UnknownTool(name)))
  {
    var name := Prop(params, "name");
    CallToolDispatch(tools, params);
    if Truthy(name) && !Unconvertible(name) {
      var key := ValueString(name.value);
      if key == "search_recipes" {
        assert FindTool(tools, key) == Some(0);
      } else if key == "get_recipe_by_id" {
        assert FindTool(tools, key) == Some(1);
      } else {
        assert FindTool(tools, key).None?;
      }
    }
  }

  /** Through the server, the registered tools are listed: `tools/list`
      lists exactly the two tools, search
      first, each with its name, its description and its input schema. */
  lemma RegistryListing(tools: seq<Tool>, msg: Json)
    requires Describes(tools)
    requires PassesEnvelope(msg) && MethodName(msg) == Some("tools/list")
    ensures var result := Prop(Reply(tools, Parsed(msg)), "result");
      && result.Some? && Keys(result.value.fields) == {"tools"}
      && var entries := Lookup(result.value.fields, "tools").value;
      && entries.JArr? && |entries.elems| == 2
      && entries.elems[0].JObj? && entries.elems[1].JObj?
      && Lookup(entries.elems[0].fields, "name") == Some(JStr("search_recipes"))
      && Lookup(entries.elems[0].fields, "description")
         == Some(JStr("Search Mealie recipes by text query, with optional tags and limit."))
      && Lookup(entries.elems[0].fields, "inputSchema") == Some(ToJson(SearchRecipesInput))
      && Lookup(entries.elems[1].fields, "name") == Some(JStr("get_recipe_by_id"))
      && Lookup(entries.elems[1].fields, "description") == Some(JStr("Fetch a full recipe by ID (or slug)."))
      && Lookup(entries.elems[1].fields, "inputSchema") == Some(ToJson(GetRecipeInput))
  {
    ToolsListReply(tools, msg);
  }

  /** The two tools carry their descriptions and their input schemas as
      JSON Schema documents. */
  predicate Describes(tools: seq<Tool>)
  {
    && |tools| == 2
    && tools[0].name == "search_recipes" && tools[1].name == "get_recipe_by_id"
    && tools[0].description == "Search Mealie recipes by text query, with optional tags and limit."
    && tools[1].description == "Fetch a full recipe by ID (or slug)."
    && tools[0].inputSchema == Some(ToJson(SearchRecipesInput))
    && tools[1].inputSchema == Some(ToJson(GetRecipeInput))
  }

  lemma ValidationMessageNonEmpty(report: Option<seq<SchemaError>>)
    ensures ValidationMessage(report) != ""
  {
  }

  /** Through the server, a search call with rejected arguments is answered
      with -32000, the code of any error whose own code is not a number,
      and the validation message. */
  lemma RejectedSearchReply(env: Env, tools: seq<Tool>, msg: Json)
    requires Serves(tools, env)
    requires PassesEnvelope(msg) && MethodName(msg) == Some("tools/call")
    requires var params := OrElse(Prop(msg, "params"), JObj([]));
      Prop(params, "name") == Some(JStr("search_recipes"))
      && !SearchArgsAccepted(OrElse(Prop(params, "args"), JObj([])))
    ensures var args := OrElse(Prop(OrElse(Prop(msg, "params"), JObj([])), "args"), JObj([]));
      var reply := Reply(tools, Parsed(msg));
      && ErrorCode(reply) == Some(JNum(-32000))
      && ErrorMessage(reply) == Some(JStr(ValidationMessage(env.report(SearchRecipesInput, args))))
  {
    var params := OrElse(Prop(msg, "params"), JObj([]));
    var args := OrElse(Prop(params, "args"), JObj([]));
    SearchValidatesFirst(env, args);
    ValidationMessageNonEmpty(env.report(SearchRecipesInput, args));
    CallToolDispatch(tools, params);
    assert tools[0].name == ValueString(JStr("search_recipes"));
    var call := CallTool(tools, params);
    assert call.invoked == Some(Invocation(0, args));
    assert call.outcome == SearchRecipes(env, args).outcome;
    ToolCallReply(tools, msg);
  }
}
