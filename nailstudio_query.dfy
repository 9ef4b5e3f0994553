/**
 * The query logic of `GET /nail-studios` (routes/nailstudio_routes.py):
 * reading the query string, the list of SQL filters, the sort order, the
 * pagination arithmetic, the `open_today` filter applied to a page after
 * pagination, and the sorted list of distinct desa names.
 */
module NailStudioQuery {
  import opened Wrappers
  import opened Text
  import opened Sorting
  import opened NailStudioModel

  // ---------------------------------------------------------------------
  // The query string

  /** The arguments of `GET /nail-studios`; an argument missing from the query string is `None`. */
  datatype ListArgs = ListArgs(
    page: Option<string>,
    perPage: Option<string>,
    search: Option<string>,
    desa: Option<string>,
    surveyStatus: Option<string>,
    ratingMin: Option<string>,
    sortBy: Option<string>,
    sortOrder: Option<string>,
    openToday: Option<string>)

  /** The arguments once read, with their defaults applied. */
  datatype ListQuery = ListQuery(
    page: int,
    perPage: int,
    search: string,
    desa: string,
    surveyStatus: string,
    ratingMin: real,
    sortBy: string,
    sortOrder: string,
    openToday: string)

  /** The largest page size a client may ask for. */
  const MaxPerPage: int := 100

  /** The page size when none is asked for. */
  const DefaultPerPage: int := 20

  function Min(a: int, b: int): int
  {
    if a <= b then a else b
  }

  /** `request.args.get(name, default, type=int)`: a value `int()` rejects gives the default. */
  function IntArg(raw: Option<string>, default: int): int
  {
    match raw
    case None => default
    case Some(s) => ParseInt(s).GetOr(default)
  }

  /** `request.args.get(name, default, type=float)`. */
  function FloatArg(raw: Option<string>, default: real): real
  {
    match raw
    case None => default
    case Some(s) => ParseFloat(s).GetOr(default)
  }

  /** Reads the query string as the handler's first statements do. */
  function ReadQuery(args: ListArgs): ListQuery
  {
    ListQuery(
      IntArg(args.page, 1),
      Min(IntArg(args.perPage, DefaultPerPage), MaxPerPage),
      Strip(args.search.GetOr("")),
      Strip(args.desa.GetOr("")),
      Strip(args.surveyStatus.GetOr("")),
      FloatArg(args.ratingMin, 0.0),
      args.sortBy.GetOr("nama"),
      args.sortOrder.GetOr("asc"),
      Strip(args.openToday.GetOr("")))
  }

  /** The page size is the one asked for (20 by default), capped at 100. */
  lemma PerPageCapped(args: ListArgs)
    ensures ReadQuery(args).perPage <= MaxPerPage
    ensures IntArg(args.perPage, DefaultPerPage) <= MaxPerPage ==>
              ReadQuery(args).perPage == IntArg(args.perPage, DefaultPerPage)
    ensures IntArg(args.perPage, DefaultPerPage) > MaxPerPage ==> ReadQuery(args).perPage == MaxPerPage
    ensures args.perPage.None? ==> ReadQuery(args).perPage == DefaultPerPage
  {
  }

  // ---------------------------------------------------------------------
  // Filters

  /** One of the conditions the handler appends to `filters`. */
  datatype Filter =
    | SearchFilter(term: string)
    | DesaFilter(term: string)
    | SurveyFilter(surveyed: bool)
    | RatingFilter(minimum: real)

  /** `column ILIKE '%term%'`; a NULL column never matches. */
  predicate Like(column: Option<string>, term: string)
  {
    column.Some? && ContainsIgnoreCase(column.value, term)
  }

  predicate Matches(s: Studio, f: Filter)
  {
    match f
    case SearchFilter(t) => Like(Some(s.nama), t) || Like(s.alamat, t) || Like(s.desa, t) || Like(s.description, t)
    case DesaFilter(t) => Like(s.desa, t)
    case SurveyFilter(b) => s.surveyStatus == b
    case RatingFilter(m) => s.rating >= m
  }

  /** `and_(*filters)`; with no filters every row passes. */
  predicate PassesAll(s: Studio, filters: seq<Filter>)
  {
    forall i :: 0 <= i < |filters| ==> Matches(s, filters[i])
  }

  /** `survey_status` takes effect only when it reads `true` or `false`, in any case. */
  predicate SurveyArgActive(v: string)
  {
    Lower(v) == "true" || Lower(v) == "false"
  }

  predicate AnyFilterActive(q: ListQuery)
  {
    q.search != "" || q.desa != "" || SurveyArgActive(q.surveyStatus) || q.ratingMin > 0.0
  }

  /**
   * The rows the query selects, stated on its own: a studio is selected when
   * it meets every condition whose argument is active.
   */
  predicate Selected(q: ListQuery, s: Studio)
  {
    && (q.search != "" ==>
          ContainsIgnoreCase(s.nama, q.search)
          || (s.alamat.Some? && ContainsIgnoreCase(s.alamat.value, q.search))
          || (s.desa.Some? && ContainsIgnoreCase(s.desa.value, q.search))
          || (s.description.Some? && ContainsIgnoreCase(s.description.value, q.search)))
    && (q.desa != "" ==> s.desa.Some? && ContainsIgnoreCase(s.desa.value, q.desa))
    && (SurveyArgActive(q.surveyStatus) ==> s.surveyStatus == (Lower(q.surveyStatus) == "true"))
    && (q.ratingMin > 0.0 ==> s.rating >= q.ratingMin)
  }

  /** With no active argument the query selects every studio. */
  lemma NoFilterSelectsAll(q: ListQuery, s: Studio)
    requires !AnyFilterActive(q)
    ensures Selected(q, s)
  {
  }

  /** Builds `filters` by appending one condition per active argument. */
  method BuildFilters(q: ListQuery) returns (filters: seq<Filter>)
    ensures |filters| <= 4
    ensures filters == [] <==> !AnyFilterActive(q)
    ensures forall s :: PassesAll(s, filters) <==> Selected(q, s)
  {
    filters := [];
    if q.search != "" {
      filters := filters + [SearchFilter(q.search)];
    }
    if q.desa != "" {
      filters := filters + [DesaFilter(q.desa)];
    }
    var survey := Lower(q.surveyStatus);
    if survey == "true" || survey == "false" {
      filters := filters + [SurveyFilter(survey == "true")];
    }
    if q.ratingMin > 0.0 {
      filters := filters + [RatingFilter(q.ratingMin)];
    }
    forall s ensures PassesAll(s, filters) <==> Selected(q, s) {
      FiltersMeanSelected(q, filters, s);
    }
  }

  /** The filters in the order the handler appends them. */
  function FilterList(q: ListQuery): seq<Filter>
  {
    (if q.search != "" then [SearchFilter(q.search)] else [])
    + (if q.desa != "" then [DesaFilter(q.desa)] else [])
    + (if SurveyArgActive(q.surveyStatus) then [SurveyFilter(Lower(q.surveyStatus) == "true")] else [])
    + (if q.ratingMin > 0.0 then [RatingFilter(q.ratingMin)] else [])
  }

  lemma PassesAllAppend(s: Studio, a: seq<Filter>, b: seq<Filter>)
    ensures PassesAll(s, a + b) <==> PassesAll(s, a) && PassesAll(s, b)
  {
    if PassesAll(s, a) && PassesAll(s, b) {
      forall i | 0 <= i < |a + b| ensures Matches(s, (a + b)[i]) {
        if i >= |a| {
          assert (a + b)[i] == b[i - |a|];
        }
      }
    }
    if PassesAll(s, a + b) {
      forall i | 0 <= i < |a| ensures Matches(s, a[i]) {
        assert (a + b)[i] == a[i];
      }
      forall i | 0 <= i < |b| ensures Matches(s, b[i]) {
        assert (a + b)[|a| + i] == b[i];
      }
    }
  }

  lemma FiltersMeanSelected(q: ListQuery, filters: seq<Filter>, s: Studio)
    requires filters == FilterList(q)
    ensures PassesAll(s, filters) <==> Selected(q, s)
  {
    var a := if q.search != "" then [SearchFilter(q.search)] else [];
    var b := if q.desa != "" then [DesaFilter(q.desa)] else [];
    var c := if SurveyArgActive(q.surveyStatus) then [SurveyFilter(Lower(q.surveyStatus) == "true")] else [];
    var d := if q.ratingMin > 0.0 then [RatingFilter(q.ratingMin)] else [];
    assert filters == a + b + c + d;
    PassesAllAppend(s, a + b + c, d);
    PassesAllAppend(s, a + b, c);
    PassesAllAppend(s, a, b);
    forall f: Filter ensures PassesAll(s, [f]) <==> Matches(s, f) {
      assert [f][0] == f;
    }
  }

  // ---------------------------------------------------------------------
  // Order

  datatype SortKey = ByRating | ByCreatedAt | ByNama

  /** `sort_by`: `rating`, `created_at`, and anything else sorts by name. */
  function SortKeyOf(sortBy: string): SortKey
  {
    if sortBy == "rating" then ByRating
    else if sortBy == "created_at" then ByCreatedAt
    else ByNama
  }

  /** The ascending order on one column. */
  function AscendingBy(k: SortKey): (Studio, Studio) -> bool
  {
    match k
    case ByRating => (a: Studio, b: Studio) => a.rating <= b.rating
    case ByCreatedAt => (a: Studio, b: Studio) => a.createdAt <= b.createdAt
    case ByNama => (a: Studio, b: Studio) => StrLe(a.nama, b.nama)
  }

  /** The `ORDER BY` of the query: descending exactly when `sort_order` is `desc`. */
  function OrderOf(q: ListQuery): (Studio, Studio) -> bool
  {
    if q.sortOrder == "desc" then Flip(AscendingBy(SortKeyOf(q.sortBy))) else AscendingBy(SortKeyOf(q.sortBy))
  }

  lemma AscendingTotal(k: SortKey)
    ensures TotalPreorder(AscendingBy(k))
  {
    if k == ByNama {
      var le := AscendingBy(k);
      forall x: Studio, y: Studio ensures le(x, y) || le(y, x) {
        StrLeTotal(x.nama, y.nama);
      }
      forall x: Studio, y: Studio, z: Studio | le(x, y) && le(y, z) ensures le(x, z) {
        StrLeTransitive(x.nama, y.nama, z.nama);
      }
    }
  }

  lemma OrderTotal(q: ListQuery)
    ensures TotalPreorder(OrderOf(q))
  {
    AscendingTotal(SortKeyOf(q.sortBy));
    FlipTotalPreorder(AscendingBy(SortKeyOf(q.sortBy)));
  }

  // ---------------------------------------------------------------------
  // Pagination

  /** The `pagination` object of the response. */
  datatype PageInfo = PageInfo(page: int, perPage: int, total: nat, pages: nat, hasNext: bool, hasPrev: bool)

  /** `ceil(total / perPage)`, the number of pages `total` rows fill. */
  function PageCount(total: nat, perPage: int): nat
    requires perPage >= 1
    decreases total
  {
    if total == 0 then 0 else if total <= perPage then 1 else 1 + PageCount(total - perPage, perPage)
  }

  /** `PageCount` is the least count of pages of `perPage` rows that holds `total` rows. */
  lemma {:induction false} PageCountBounds(total: nat, perPage: int)
    requires perPage >= 1
    ensures PageCount(total, perPage) * perPage >= total
    ensures PageCount(total, perPage) > 0 ==> (PageCount(total, perPage) - 1) * perPage < total
    ensures total == 0 <==> PageCount(total, perPage) == 0
    decreases total
  {
    if total > perPage {
      PageCountBounds(total - perPage, perPage);
      var n := PageCount(total - perPage, perPage);
      assert (n + 1) * perPage == n * perPage + perPage;
      assert n * perPage == (n - 1) * perPage + perPage;
    }
  }

  /**
   * `query.paginate(page, per_page, error_out=False)` over `total` rows:
   * a page below 1 reads as 1 and a page size below 1 as 20.
   */
  function Paginate(total: nat, page: int, perPage: int): (p: PageInfo)
    ensures p.page == (if page < 1 then 1 else page)
    ensures p.perPage == (if perPage < 1 then DefaultPerPage else perPage)
    ensures p.total == total
    ensures p.hasPrev <==> p.page > 1
    ensures p.hasNext <==> p.page < p.pages
  {
    var pg := if page < 1 then 1 else page;
    var pp := if perPage < 1 then DefaultPerPage else perPage;
    var n := PageCount(total, pp);
    PageInfo(pg, pp, total, n, pg < n, pg > 1)
  }

  /** `pages` is the least number of pages that holds every row; an empty result has no pages. */
  lemma PaginatePages(total: nat, page: int, perPage: int)
    ensures var p := Paginate(total, page, perPage);
      && p.pages * p.perPage >= total
      && (p.pages > 0 ==> (p.pages - 1) * p.perPage < total)
      && (total == 0 <==> p.pages == 0)
  {
    var p := Paginate(total, page, perPage);
    PageCountBounds(total, p.perPage);
  }

  /** The number of rows before page `page`: `(page - 1) * perPage`. */
  function PageOffset(page: int, perPage: nat): (r: nat)
    requires page >= 1
    decreases page
  {
    if page == 1 then 0 else perPage + PageOffset(page - 1, perPage)
  }

  lemma {:induction false} PageOffsetIsProduct(page: int, perPage: nat)
    requires page >= 1
    ensures PageOffset(page, perPage) == (page - 1) * perPage
    decreases page
  {
    if page > 1 {
      PageOffsetIsProduct(page - 1, perPage);
      assert (page - 1) * perPage == (page - 2) * perPage + perPage;
    }
  }

  /** The rows of page `p.page`: the `p.perPage` rows, or fewer on the last page, after the earlier pages' rows. */
  function PageItems<T>(rows: seq<T>, p: PageInfo): (r: seq<T>)
    requires p.page >= 1 && p.perPage >= 1
    ensures |r| <= p.perPage
    ensures var offset := PageOffset(p.page, p.perPage);
      && |r| == (if offset >= |rows| then 0 else Min(p.perPage, |rows| - offset))
      && (forall k :: 0 <= k < |r| ==> offset + k < |rows| && r[k] == rows[offset + k])
  {
    var offset := PageOffset(p.page, p.perPage);
    if offset >= |rows| then [] else rows[offset..offset + Min(p.perPage, |rows| - offset)]
  }

  // ---------------------------------------------------------------------
  // The `open_today` filter on a page

  predicate OpenFlag(d: StudioDict)
  {
    d.today.Some? && d.today.value.isOpenToday
  }

  /** Whether the loop over the page keeps a studio's dictionary for `open_today = mode`. */
  predicate KeptByOpenToday(mode: string, d: StudioDict)
  {
    (Lower(mode) == "true" ==> OpenFlag(d)) && (Lower(mode) == "false" ==> !OpenFlag(d))
  }

  /** The dictionaries the loop over a page keeps, in page order. */
  function PostFiltered(items: seq<Studio>, mode: string, today: Weekday): seq<StudioDict>
  {
    if items == [] then []
    else
      var d := ToDict(items[|items| - 1], true, today);
      PostFiltered(items[..|items| - 1], mode, today) + (if KeptByOpenToday(mode, d) then [d] else [])
  }

  /** The loop over `paginated.items` that skips, with `continue`, the studios `open_today` excludes. */
  method PostFilter(items: seq<Studio>, mode: string, today: Weekday) returns (data: seq<StudioDict>)
    ensures data == PostFiltered(items, mode, today)
  {
    data := [];
    var m := Lower(mode);
    for i := 0 to |items|
      invariant data == PostFiltered(items[..i], mode, today)
    {
      assert items[..i + 1][..i] == items[..i];
      var d := ToDict(items[i], true, today);
      if m == "true" && !d.today.value.isOpenToday {
        continue;
      } else if m == "false" && d.today.value.isOpenToday {
        continue;
      }
      data := data + [d];
    }
    assert items[..|items|] == items;
  }

  /**
   * The post-filtered page is an order-preserving subsequence of the page:
   * `idx` lists, ascending, the positions kept, and these are exactly the
   * positions whose dictionary the `open_today` argument admits.
   */
  lemma {:induction false} PostFilteredSubsequence(items: seq<Studio>, mode: string, today: Weekday)
    returns (idx: seq<int>)
    ensures var r := PostFiltered(items, mode, today);
      && |idx| == |r|
      && (forall k :: 0 <= k < |idx| ==> 0 <= idx[k] < |items| && r[k] == ToDict(items[idx[k]], true, today))
      && (forall k, l :: 0 <= k < l < |idx| ==> idx[k] < idx[l])
      && (forall i :: 0 <= i < |items| ==> (i in idx <==> KeptByOpenToday(mode, ToDict(items[i], true, today))))
  {
    if items == [] {
      idx := [];
    } else {
      var n := |items| - 1;
      var init := items[..n];
      var prev := PostFilteredSubsequence(init, mode, today);
      var r0 := PostFiltered(init, mode, today);
      var d := ToDict(items[n], true, today);
      var kept := KeptByOpenToday(mode, d);
      var r := PostFiltered(items, mode, today);
      assert r == r0 + (if kept then [d] else []);
      idx := if kept then prev + [n] else prev;
      forall k | 0 <= k < |idx|
        ensures 0 <= idx[k] < |items| && r[k] == ToDict(items[idx[k]], true, today)
      {
        if k < |prev| {
          assert idx[k] == prev[k] && r[k] == r0[k] && init[prev[k]] == items[prev[k]];
        }
      }
      forall i | 0 <= i < |items|
        ensures i in idx <==> KeptByOpenToday(mode, ToDict(items[i], true, today))
      {
        if i < n {
          assert init[i] == items[i];
          assert i in idx <==> i in prev;
        }
      }
    }
  }

  /** An `open_today` that is neither `true` nor `false` (in any case) keeps the whole page. */
  lemma {:induction false} PostFilterInactive(items: seq<Studio>, mode: string, today: Weekday)
    requires Lower(mode) != "true" && Lower(mode) != "false"
    ensures |PostFiltered(items, mode, today)| == |items|
    ensures forall k :: 0 <= k < |items| ==> PostFiltered(items, mode, today)[k] == ToDict(items[k], true, today)
  {
    if items != [] {
      PostFilterInactive(items[..|items| - 1], mode, today);
    }
  }

  // ---------------------------------------------------------------------
  // `sorted(desa_list)`

  predicate StrLt(a: string, b: string)
  {
    StrLe(a, b) && a != b
  }

  predicate StrictlyIncreasing(s: seq<string>)
  {
    forall i, j :: 0 <= i < j < |s| ==> StrLt(s[i], s[j])
  }

  lemma StrLtTransitive(a: string, b: string, c: string)
    requires StrLt(a, b) && StrLe(b, c)
    ensures StrLt(a, c)
  {
    StrLeTransitive(a, b, c);
    if a == c {
      StrLeAntisymmetric(a, b);
    }
  }

  /** Inserts `x` into a strictly increasing list unless it is already there. */
  function InsertDistinct(x: string, s: seq<string>): (r: seq<string>)
    requires StrictlyIncreasing(s)
    ensures StrictlyIncreasing(r)
    ensures forall y :: y in r <==> y == x || y in s
  {
    if s == [] then [x]
    else if x == s[0] then s
    else if StrLe(x, s[0]) then
      assert forall k :: 0 <= k < |s| ==> StrLt(x, s[k]) by {
        forall k | 0 <= k < |s| ensures StrLt(x, s[k]) {
          if k > 0 {
            StrLtTransitive(x, s[0], s[k]);
          }
        }
      }
      [x] + s
    else
      StrLeTotal(x, s[0]);
      assert StrictlyIncreasing(s[1..]);
      var rest := InsertDistinct(x, s[1..]);
      assert forall k :: 0 <= k < |rest| ==> StrLt(s[0], rest[k]) by {
        forall k | 0 <= k < |rest| ensures StrLt(s[0], rest[k]) {
          if rest[k] != x {
            assert rest[k] in rest;
            var j :| 0 <= j < |s[1..]| && s[1..][j] == rest[k];
            assert s[j + 1] == rest[k];
          }
        }
      }
      [s[0]] + rest
  }

  /** The distinct elements of `names`, in ascending order: `sorted` of a duplicate-free list. */
  function SortedDistinct(names: seq<string>): (r: seq<string>)
    ensures StrictlyIncreasing(r)
    ensures forall y :: y in r <==> y in names
  {
    if names == [] then []
    else InsertDistinct(names[|names| - 1], SortedDistinct(names[..|names| - 1]))
  }

  /** A strictly increasing list has no repeated element. */
  lemma StrictlyIncreasingDistinct(s: seq<string>)
    requires StrictlyIncreasing(s)
    ensures forall i, j :: 0 <= i < j < |s| ==> s[i] != s[j]
  {
  }
}
