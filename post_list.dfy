/**
 * The blog-post list: the query string sent to the posts endpoint (page,
 * title filter, status filter and the sort parameter parsed from the sort
 * key), the normalisation of the posts that come back, the page-button window
 * under the list, the slug column and the status badge.
 */
module PostList {
  import opened Js

  // ---------------------------------------------------------------------------
  // Query parameters
  // ---------------------------------------------------------------------------

  /** A `URLSearchParams` object: its name/value pairs in insertion order. */
  class SearchParams {
    var entries: seq<(string, string)>

    constructor ()
      ensures entries == []
    {
      entries := [];
    }

    /** `params.append(name, value)`. */
    method Append(name: string, value: string)
      modifies this
      ensures entries == old(entries) + [(name, value)]
    {
      entries := entries + [(name, value)];
    }
  }

  /** `params.get(name)`: the value of the first pair with that name. */
  function Lookup(entries: seq<(string, string)>, name: string): (r: Option<string>)
    ensures r.None? <==> forall i :: 0 <= i < |entries| ==> entries[i].0 != name
    ensures r.Some? ==> exists i :: 0 <= i < |entries| && entries[i] == (name, r.value)
  {
    if entries == [] then None
    else if entries[0].0 == name then Some(entries[0].1)
    else
      var rest := Lookup(entries[1..], name);
      assert rest.Some? ==> exists i :: 1 <= i < |entries| && entries[i] == (name, rest.value) by {
        if rest.Some? {
          var i :| 0 <= i < |entries[1..]| && entries[1..][i] == (name, rest.value);
          assert entries[i + 1] == (name, rest.value);
        }
      }
      rest
  }

  /** Looking a name up in two lists of pairs joined: the first list answers when it can. */
  lemma {:induction false} LookupAppend(a: seq<(string, string)>, b: seq<(string, string)>, name: string)
    ensures Lookup(a + b, name) == if Lookup(a, name).Some? then Lookup(a, name) else Lookup(b, name)
  {
    if a != [] {
      assert (a + b)[1..] == a[1..] + b;
      LookupAppend(a[1..], b, name);
    } else {
      assert a + b == b;
    }
  }

  /** The field aliases applied after the direction is split off. */
  function Alias(field: string): (r: string)
    ensures field == "created" ==> r == "created_at"
    ensures field == "seo" ==> r == "seo_score"
    ensures field != "created" && field != "seo" ==> r == field
  {
    if field == "created" then "created_at"
    else if field == "seo" then "seo_score"
    else field
  }

  /**
   * The field and direction read from a sort key: the first `_desc` or, failing
   * that, the first `_asc` is cut out; a key with neither is split on `_`.
   */
  function ParseSortKey(sortField: string): (string, Option<string>) {
    if Includes(sortField, "_desc") then (ReplaceFirst(sortField, "_desc", ""), Some("desc"))
    else if Includes(sortField, "_asc") then (ReplaceFirst(sortField, "_asc", ""), Some("asc"))
    else SplitFirstTwo(sortField, '_')
  }

  /** The `sort` parameter for a sort key: the aliased field, with `-` in front when descending. */
  function SortParameter(sortField: string): string {
    var (field, direction) := ParseSortKey(sortField);
    if direction == Some("desc") then "-" + Alias(field) else Alias(field)
  }

  /** The pairs `fetchPosts` puts in the query. */
  function PostQuery(currentPage: int, debouncedQuery: string, statusFilter: string,
                     sortField: string): seq<(string, string)>
  {
    [("page", IntToString(currentPage))] + TitlePart(debouncedQuery) + StatusPart(statusFilter) + SortPart(sortField)
  }

  function TitlePart(debouncedQuery: string): seq<(string, string)> {
    if debouncedQuery != "" then [("filter[title]", debouncedQuery)] else []
  }

  function StatusPart(statusFilter: string): seq<(string, string)> {
    if statusFilter != "all" then [("filter[status]", if statusFilter == "published" then "1" else "0")] else []
  }

  function SortPart(sortField: string): seq<(string, string)> {
    if sortField != "" then [("sort", SortParameter(sortField))] else []
  }

  /** The sort parameter, computed the way `fetchPosts` does: `field` and `direction` are reassigned per branch. */
  method SortParam(sortField: string) returns (sortParam: string)
    ensures sortParam == SortParameter(sortField)
  {
    var field: string;
    var direction: Option<string>;
    if Includes(sortField, "_desc") {
      field := ReplaceFirst(sortField, "_desc", "");
      direction := Some("desc");
    } else if Includes(sortField, "_asc") {
      field := ReplaceFirst(sortField, "_asc", "");
      direction := Some("asc");
    } else {
      var parts := SplitFirstTwo(sortField, '_');
      field := parts.0;
      direction := parts.1;
    }
    if field == "created" {
      field := "created_at";
    }
    if field == "seo" {
      field := "seo_score";
    }
    sortParam := if direction == Some("desc") then "-" + field else field;
  }

  /** Builds the query of `fetchPosts` by appending to a fresh `URLSearchParams`. */
  method BuildPostQuery(currentPage: int, debouncedQuery: string, statusFilter: string,
                        sortField: string) returns (params: SearchParams)
    ensures fresh(params)
    ensures params.entries == PostQuery(currentPage, debouncedQuery, statusFilter, sortField)
  {
    params := new SearchParams();
    params.Append("page", IntToString(currentPage));
    ghost var soFar := params.entries;
    assert soFar == [("page", IntToString(currentPage))];
    if debouncedQuery != "" {
      params.Append("filter[title]", debouncedQuery);
    }
    assert params.entries == soFar + TitlePart(debouncedQuery);
    soFar := params.entries;
    if statusFilter != "all" {
      params.Append("filter[status]", if statusFilter == "published" then "1" else "0");
    }
    assert params.entries == soFar + StatusPart(statusFilter);
    soFar := params.entries;
    if sortField != "" {
      var sortParam := SortParam(sortField);
      params.Append("sort", sortParam);
    }
    assert params.entries == soFar + SortPart(sortField);
  }

  /**
   * What the endpoint reads from the query: the page always; the title filter
   * exactly when the search box is non-empty; the status filter `1` for
   * published and `0` for any other choice except `all`; the sort parameter
   * exactly when a sort key is set.
   */
  lemma PostQueryParameters(currentPage: int, debouncedQuery: string, statusFilter: string,
                            sortField: string)
    ensures var q := PostQuery(currentPage, debouncedQuery, statusFilter, sortField);
      && q[0] == ("page", IntToString(currentPage))
      && Lookup(q, "page") == Some(IntToString(currentPage))
      && Lookup(q, "filter[title]") == (if debouncedQuery != "" then Some(debouncedQuery) else None)
      && Lookup(q, "filter[status]") ==
           (if statusFilter == "all" then None
            else if statusFilter == "published" then Some("1") else Some("0"))
      && Lookup(q, "sort") == (if sortField != "" then Some(SortParameter(sortField)) else None)
  {
    var p := [("page", IntToString(currentPage))];
    var t: seq<(string, string)> := if debouncedQuery != "" then [("filter[title]", debouncedQuery)] else [];
    var st: seq<(string, string)> := if statusFilter != "all" then [("filter[status]", if statusFilter == "published" then "1" else "0")] else [];
    var so: seq<(string, string)> := if sortField != "" then [("sort", SortParameter(sortField))] else [];
    assert PostQuery(currentPage, debouncedQuery, statusFilter, sortField) == p + t + st + so;
    LookupsOfJoin(p, t, st, so, "page");
    LookupsOfJoin(p, t, st, so, "filter[title]");
    LookupsOfJoin(p, t, st, so, "filter[status]");
    LookupsOfJoin(p, t, st, so, "sort");
  }

  /** No parameter appears twice in the query. */
  lemma PostQueryKeysDistinct(currentPage: int, debouncedQuery: string, statusFilter: string,
                              sortField: string)
    ensures var q := PostQuery(currentPage, debouncedQuery, statusFilter, sortField);
      forall i, j :: 0 <= i < j < |q| ==> q[i].0 != q[j].0
  {
    var p := [("page", IntToString(currentPage))];
    var t: seq<(string, string)> := if debouncedQuery != "" then [("filter[title]", debouncedQuery)] else [];
    var st: seq<(string, string)> := if statusFilter != "all" then [("filter[status]", if statusFilter == "published" then "1" else "0")] else [];
    var so: seq<(string, string)> := if sortField != "" then [("sort", SortParameter(sortField))] else [];
    assert PostQuery(currentPage, debouncedQuery, statusFilter, sortField) == p + t + st + so;
    // The four parts hold names of increasing rank, at most one each.
    RankedJoin(p, 0, t, 1);
    RankedJoin(p + t, 1, st, 2);
    RankedJoin(p + t + st, 2, so, 3);
  }

  /** The position of each parameter name in the query's fixed order. */
  function Rank(name: string): int {
    if name == "page" then 0
    else if name == "filter[title]" then 1
    else if name == "filter[status]" then 2
    else if name == "sort" then 3
    else 4
  }

  /** Every name ranks at most `below`, and ranks strictly increase along the list. */
  predicate RanksIncrease(q: seq<(string, string)>, below: int) {
    && (forall i :: 0 <= i < |q| ==> Rank(q[i].0) <= below)
    && (forall i, j :: 0 <= i < j < |q| ==> Rank(q[i].0) < Rank(q[j].0))
  }

  /** Appending at most one name of a higher rank keeps the ranks increasing. */
  lemma RankedJoin(a: seq<(string, string)>, ra: int, b: seq<(string, string)>, rb: int)
    requires RanksIncrease(a, ra) && ra < rb
    requires |b| <= 1 && forall i :: 0 <= i < |b| ==> Rank(b[i].0) == rb
    ensures RanksIncrease(a + b, rb)
  {
  }

  lemma LookupsOfJoin(p: seq<(string, string)>, t: seq<(string, string)>, st: seq<(string, string)>,
                      so: seq<(string, string)>, name: string)
    ensures Lookup(p + t + st + so, name) ==
        if Lookup(p, name).Some? then Lookup(p, name)
        else if Lookup(t, name).Some? then Lookup(t, name)
        else if Lookup(st, name).Some? then Lookup(st, name)
        else Lookup(so, name)
  {
    LookupAppend(p + t + st, so, name);
    LookupAppend(p + t, st, name);
    LookupAppend(p, t, name);
  }

  /** With the screen's initial state the query asks for page 1, newest first. */
  lemma InitialQuery()
    ensures PostQuery(1, "", "all", "created_at_desc") == [("page", "1"), ("sort", "-created_at")]
  {
    CreatedAtDescending();
    UnfilteredQuery(1, "created_at_desc");
    assert IntToString(1) == "1";
  }

  /** Without a search and with every status, the query is the page and the sort parameter. */
  lemma UnfilteredQuery(currentPage: int, sortField: string)
    requires sortField != ""
    ensures PostQuery(currentPage, "", "all", sortField)
            == [("page", IntToString(currentPage)), ("sort", SortParameter(sortField))]
  {
  }

  // ---------------------------------------------------------------------------
  // Sort-key round trips
  // ---------------------------------------------------------------------------

  /** `f + t` matches `pat` at `j` exactly when `f` or `t` does, for windows inside one of them. */
  lemma OccursAtAppend(f: string, t: string, pat: string, j: nat)
    ensures j + |pat| <= |f| ==> (OccursAt(f + t, pat, j) <==> OccursAt(f, pat, j))
    ensures j >= |f| ==> (OccursAt(f + t, pat, j) <==> OccursAt(t, pat, j - |f|))
  {
    if j + |pat| <= |f| {
      assert (f + t)[j..j + |pat|] == f[j..j + |pat|];
    }
    if j >= |f| && j + |pat| <= |f| + |t| {
      assert (f + t)[j..j + |pat|] == t[j - |f|..j - |f| + |pat|];
    }
  }

  /** A pattern whose first character does not recur in it cannot match across a join that starts with that character. */
  lemma NoStraddle(f: string, t: string, pat: string, j: nat)
    requires j < |f| < j + |pat|
    requires |t| >= 1 && t[0] == pat[0]
    requires forall m :: 1 <= m < |pat| ==> pat[m] != pat[0]
    ensures !OccursAt(f + t, pat, j)
  {
    if j + |pat| <= |f + t| {
      assert (f + t)[j..j + |pat|][|f| - j] == t[0];
    }
  }

  /** Where neither piece holds `pat`, the join holds it nowhere. */
  lemma NoMatchAcrossJoin(f: string, t: string, pat: string)
    requires !Includes(f, pat) && !Includes(t, pat)
    requires |t| >= 1 && |pat| >= 1 && t[0] == pat[0]
    requires forall m :: 1 <= m < |pat| ==> pat[m] != pat[0]
    ensures !Includes(f + t, pat)
  {
    forall j: nat ensures !OccursAt(f + t, pat, j) {
      OccursAtAppend(f, t, pat, j);
      if j < |f| < j + |pat| {
        NoStraddle(f, t, pat, j);
      }
    }
  }

  /** Appending `pat` to a string that lacks it puts the first occurrence at the join. */
  lemma FirstMatchAtJoin(f: string, pat: string)
    requires !Includes(f, pat) && |pat| >= 1
    requires forall m :: 1 <= m < |pat| ==> pat[m] != pat[0]
    ensures IndexOf(f + pat, pat) == Some(|f|)
  {
    assert (f + pat)[|f|..|f| + |pat|] == pat;
    assert OccursAt(f + pat, pat, |f|);
    forall j: nat | j < |f| ensures !OccursAt(f + pat, pat, j) {
      OccursAtAppend(f, pat, pat, j);
      if |f| < j + |pat| {
        NoStraddle(f, pat, pat, j);
      }
    }
  }

  /** A descending key `f_desc` sorts by `-f` (aliased), for a field name without `_desc`. */
  lemma SortKeyDesc(f: string)
    requires !Includes(f, "_desc")
    ensures SortParameter(f + "_desc") == "-" + Alias(f)
  {
    FirstMatchAtJoin(f, "_desc");
    assert (f + "_desc")[..|f|] + "" + (f + "_desc")[|f| + 5..] == f;
  }

  /** An ascending key `f_asc` sorts by `f` (aliased), for a field name without `_desc` or `_asc`. */
  lemma SortKeyAsc(f: string)
    requires !Includes(f, "_desc") && !Includes(f, "_asc")
    ensures SortParameter(f + "_asc") == Alias(f)
  {
    assert !Includes("_asc", "_desc");
    NoMatchAcrossJoin(f, "_asc", "_desc");
    FirstMatchAtJoin(f, "_asc");
    assert (f + "_asc")[..|f|] + "" + (f + "_asc")[|f| + 4..] == f;
  }

  /** A key with no `_desc` falls back to the split and then never sorts descending. */
  lemma {:induction false} FallbackIsAscending(sortField: string)
    requires !Includes(sortField, "_desc")
    ensures ParseSortKey(sortField).1 != Some("desc")
    ensures SortParameter(sortField) == Alias(ParseSortKey(sortField).0)
  {
    var parts := SplitFirstTwo(sortField, '_');
    if parts.1.Some? && |parts.1.value| == 4 {
      var k := |parts.0|;
      assert StartsWith(sortField, parts.0 + ['_'] + parts.1.value);
      assert sortField[k..k + 5] == ['_'] + parts.1.value;
      assert !OccursAt(sortField, "_desc", k);
    }
  }

  /** A field name without `_` holds neither direction suffix. */
  lemma NoUnderscoreNoSuffix(f: string)
    requires forall i :: 0 <= i < |f| ==> f[i] != '_'
    ensures !Includes(f, "_desc") && !Includes(f, "_asc")
  {
    forall j: nat | j < |f| ensures !OccursAt(f, "_desc", j) && !OccursAt(f, "_asc", j) {
      assert j + 4 <= |f| ==> f[j..j + 4][0] == f[j];
      assert j + 5 <= |f| ==> f[j..j + 5][0] == f[j];
    }
  }

  /** The descending key `created_at_desc` sorts by `-created_at`. */
  lemma CreatedAtDescending()
    ensures SortParameter("created_at_desc") == "-created_at"
  {
    assert "created" + "_at" + "_desc" == "created_at_desc";
    DescExample("created", "_at", "-created_at");
  }

  /** The descending key `seo_score_desc` sorts by `-seo_score`. */
  lemma SeoScoreDescending()
    ensures SortParameter("seo_score_desc") == "-seo_score"
  {
    assert "seo" + "_score" + "_desc" == "seo_score_desc";
    DescExample("seo", "_score", "-seo_score");
  }

  /** The alias `created`: `created_desc` sorts by `-created_at`. */
  lemma CreatedAliasDescending()
    ensures SortParameter("created_desc") == "-created_at"
  {
    assert "created" + "" + "_desc" == "created_desc";
    DescExample("created", "", "-created_at");
  }

  /** The alias `seo`: `seo_asc` sorts by `seo_score`. */
  lemma SeoAliasAscending()
    ensures SortParameter("seo_asc") == "seo_score"
  {
    assert "seo" + "_asc" == "seo_asc";
    AscExample("seo", "seo_score");
  }

  /** An ascending key: `title_asc` sorts by `title`. */
  lemma AscendingKeyExample()
    ensures SortParameter("title_asc") == "title"
  {
    assert "title" + "_asc" == "title_asc";
    AscExample("title", "title");
  }

  lemma DescExample(f: string, g: string, expected: string)
    requires forall i :: 0 <= i < |f| ==> f[i] != '_'
    requires |g| >= 1 ==> g[0] == '_' && forall i :: 1 <= i < |g| ==> g[i] != '_'
    requires |g| >= 2 ==> g[1] != 'd'
    requires expected == "-" + Alias(f + g)
    ensures SortParameter(f + g + "_desc") == expected
  {
    NoUnderscoreNoSuffix(f);
    if |g| >= 1 {
      OneUnderscoreNoDesc(g);
      NoMatchAcrossJoin(f, g, "_desc");
    } else {
      assert f + g == f;
    }
    SortKeyDesc(f + g);
  }

  /** A piece `_x...` with no other `_` and not starting `_d` holds no `_desc`. */
  lemma OneUnderscoreNoDesc(g: string)
    requires |g| >= 1 && g[0] == '_' && forall i :: 1 <= i < |g| ==> g[i] != '_'
    requires |g| >= 2 ==> g[1] != 'd'
    ensures !Includes(g, "_desc")
  {
    forall j: nat ensures !OccursAt(g, "_desc", j) {
      assert j + 5 <= |g| ==> g[j..j + 5][0] == g[j] && g[j..j + 5][1] == g[j + 1];
    }
  }

  lemma AscExample(f: string, expected: string)
    requires forall i :: 0 <= i < |f| ==> f[i] != '_'
    requires expected == Alias(f)
    ensures SortParameter(f + "_asc") == expected
  {
    NoUnderscoreNoSuffix(f);
    SortKeyAsc(f);
  }

  // ---------------------------------------------------------------------------
  // Post normalisation
  // ---------------------------------------------------------------------------

  /** A post as the API returns it; the fields the list uses. */
  datatype RawPost = RawPost(id: Value, title: Value, name: Value, slug: string,
                             status: Value, outstanding: Value)

  /** A post as the list holds it. */
  datatype Post = Post(id: Value, title: Value, name: Value, slug: string,
                       status: bool, outstanding: bool)

  /** `status`: a number is published only when it is 1; anything else by truthiness. */
  predicate PublishedStatus(status: Value) {
    if status.Num? then status.n == 1 else Truthy(status)
  }

  function NormalizePost(p: RawPost): (r: Post)
    ensures r.id == p.id && r.name == p.name && r.slug == p.slug
    ensures Truthy(p.title) ==> r.title == p.title
    ensures !Truthy(p.title) ==> r.title == p.name
    ensures r.status <==> PublishedStatus(p.status)
    ensures r.outstanding <==> Truthy(p.outstanding)
  {
    Post(p.id, Or(p.title, p.name), p.name, p.slug, PublishedStatus(p.status), Truthy(p.outstanding))
  }

  /** A normalised post read back as API data. */
  function AsRaw(p: Post): RawPost {
    RawPost(p.id, p.title, p.name, p.slug, Bool(p.status), Bool(p.outstanding))
  }

  /** Normalising twice changes nothing: the normal form is a fixed point. */
  lemma NormalizeIdempotent(p: RawPost)
    ensures NormalizePost(AsRaw(NormalizePost(p))) == NormalizePost(p)
  {
  }

  /** Numeric 2 is not published although it is truthy; the string "0" is published because it is non-empty. */
  lemma StatusCoercionExamples()
    ensures !PublishedStatus(Num(2)) && Truthy(Num(2))
    ensures PublishedStatus(Str("0"))
    ensures PublishedStatus(Num(1)) && !PublishedStatus(Num(0)) && !PublishedStatus(Null)
  {
  }

  function NormalizePosts(ps: seq<RawPost>): (r: seq<Post>)
    ensures |r| == |ps|
    ensures forall i :: 0 <= i < |ps| ==> r[i] == NormalizePost(ps[i])
  {
    seq(|ps|, i requires 0 <= i < |ps| => NormalizePost(ps[i]))
  }

  // ---------------------------------------------------------------------------
  // The response and the list state
  // ---------------------------------------------------------------------------

  /** The pagination fields (`current_page`, `last_page`). */
  datatype Meta = Meta(currentPage: int, lastPage: int)

  /**
   * `response.data`: either an array of posts, or an object with an optional
   * `data` array, an optional `meta` object and, optionally, the pagination
   * fields at its own level.
   */
  datatype Payload =
    | Bare(posts: seq<RawPost>)
    | Wrapped(data: Option<seq<RawPost>>, meta: Option<Meta>, pageFields: Option<Meta>)

  /** A request that threw, or a response with its optional `data` and root-level `meta`. */
  datatype FetchOutcome = Failed | Response(data: Option<Payload>, rootMeta: Option<Meta>)

  datatype ListState = ListState(posts: seq<Post>, currentPage: int, totalPages: int)

  /** The six response shapes `fetchPosts` recognises (each one is a case of `ExtractShapes`): the posts found and the pagination meta found. */
  function Extract(payload: Payload, rootMeta: Option<Meta>): (seq<RawPost>, Option<Meta>) {
    match payload
    case Bare(ps) => (ps, rootMeta)
    case Wrapped(data, meta, pageFields) =>
      if data.None? then ([], None)
      else if meta.Some? then (data.value, meta)
      else if pageFields.Some? && pageFields.value.lastPage != 0 then (data.value, pageFields)
      else (data.value, None)
  }

  /** The list state after a fetch. */
  function AfterFetch(s: ListState, o: FetchOutcome): (r: ListState)
    ensures o.Failed? || o.data.None? ==> r == s.(posts := [], totalPages := 1)
  {
    match o
    case Failed => s.(posts := [], totalPages := 1)
    case Response(data, rootMeta) =>
      if data.None? then s.(posts := [], totalPages := 1)
      else
        var (raw, meta) := Extract(data.value, rootMeta);
        var posts := if |raw| > 0 then NormalizePosts(raw) else [];
        match meta
        case Some(m) => ListState(posts, m.currentPage, m.lastPage)
        case None => s.(posts := posts, totalPages := 1)
  }

  /**
   * After a response the list holds the normalised posts of the shape found;
   * the page numbers come from the meta when there is one, and otherwise the
   * current page is kept and there is one page.
   */
  lemma AfterFetchResponse(s: ListState, data: Payload, rootMeta: Option<Meta>)
    ensures var r := AfterFetch(s, Response(Some(data), rootMeta));
            var (raw, meta) := Extract(data, rootMeta);
      && r.posts == NormalizePosts(raw)
      && (meta.None? ==> r.currentPage == s.currentPage && r.totalPages == 1)
      && (meta.Some? ==> r.currentPage == meta.value.currentPage && r.totalPages == meta.value.lastPage)
  {
  }

  /**
   * A bare array carries its meta at the root; a wrapped object prefers
   * `data.meta`, then its own pagination fields, and without either (or with
   * a zero `last_page`) its array is taken with no meta.
   */
  lemma ExtractShapes(ps: seq<RawPost>, m: Meta, f: Meta)
    ensures Extract(Bare(ps), Some(m)) == (ps, Some(m))
    ensures Extract(Bare(ps), None) == (ps, None)
    ensures Extract(Wrapped(Some(ps), Some(m), Some(f)), None) == (ps, Some(m))
    ensures f.lastPage != 0 ==> Extract(Wrapped(Some(ps), None, Some(f)), Some(m)) == (ps, Some(f))
    ensures Extract(Wrapped(Some(ps), None, None), Some(m)) == (ps, None)
    ensures f.lastPage == 0 ==> Extract(Wrapped(Some(ps), None, Some(f)), None) == (ps, None)
    ensures Extract(Wrapped(None, Some(m), Some(f)), Some(m)) == ([], None)
  {
  }

  // ---------------------------------------------------------------------------
  // Page-button window
  // ---------------------------------------------------------------------------

  /** What the bar renders for one page number. */
  datatype Slot = Button | Ellipsis | Nothing

  /** The bar is rendered only when there is more than one page. */
  predicate ShowBar(totalPages: int) {
    totalPages > 1
  }

  /** Neighbours of the current page, the first and the last page get a button. */
  predicate NearCurrent(p: int, cur: int, totalPages: int) {
    (-1 <= p - cur <= 1) || p == 1 || p == totalPages
  }

  function PageSlot(p: int, cur: int, totalPages: int): (r: Slot)
    ensures r == Button <==> NearCurrent(p, cur, totalPages)
    ensures r == Ellipsis <==> !NearCurrent(p, cur, totalPages) && (p == 2 || p == totalPages - 1)
  {
    if NearCurrent(p, cur, totalPages) then Button
    else if p == 2 || p == totalPages - 1 then Ellipsis
    else Nothing
  }

  /** The first, the last and the current page always have a button. */
  lemma WindowKeepsAnchors(cur: int, totalPages: int)
    requires 1 <= cur <= totalPages
    ensures PageSlot(1, cur, totalPages) == Button
    ensures PageSlot(totalPages, cur, totalPages) == Button
    ensures PageSlot(cur, cur, totalPages) == Button
  {
  }

  /**
   * Every page without a button lies in a gap that is marked: below the
   * current page with an ellipsis on page 2, or above it with an ellipsis on
   * the second-to-last page.
   */
  lemma WindowMarksGaps(cur: int, totalPages: int, p: int)
    requires 1 <= cur <= totalPages && 1 <= p <= totalPages
    requires PageSlot(p, cur, totalPages) != Button
    ensures (2 <= p < cur - 1 && PageSlot(2, cur, totalPages) == Ellipsis)
         || (cur + 1 < p <= totalPages - 1 && PageSlot(totalPages - 1, cur, totalPages) == Ellipsis)
  {
  }

  /** At most seven things are rendered: pages 1, 2, cur-1, cur, cur+1, total-1 and total. */
  lemma WindowIsSmall(cur: int, totalPages: int, p: int)
    requires PageSlot(p, cur, totalPages) != Nothing
    ensures p in {1, 2, cur - 1, cur, cur + 1, totalPages - 1, totalPages}
  {
  }

  // ---------------------------------------------------------------------------
  // Slug column and status badge
  // ---------------------------------------------------------------------------

  function TruncateSlug(slug: string): (r: string)
    ensures |slug| <= 18 ==> r == slug
    ensures |slug| > 18 ==> |r| == 21 && r[..18] == slug[..18] && EndsWith(r, "...")
  {
    if |slug| > 18 then slug[..18] + "..." else slug
  }

  /** The shown slug is never longer than 21 characters and always begins like the slug. */
  lemma TruncatedSlugShape(slug: string)
    ensures |TruncateSlug(slug)| <= 21
    ensures var n := if |slug| < 18 then |slug| else 18; TruncateSlug(slug)[..n] == slug[..n]
  {
  }

  function StatusText(published: bool): (r: string)
    ensures published ==> r == "Đã đăng"
    ensures !published ==> r == "Ẩn"
  {
    if published then "Đã đăng" else "Ẩn"
  }

  function StatusColor(published: bool): (r: string)
    ensures published ==> r == "success"
    ensures !published ==> r == "error"
  {
    if published then "success" else "error"
  }

  /** The badge tells the two states apart by both its text and its colour. */
  lemma BadgeDistinguishesStatus(a: bool, b: bool)
    ensures StatusText(a) == StatusText(b) <==> a == b
    ensures StatusColor(a) == StatusColor(b) <==> a == b
  {
  }
}
