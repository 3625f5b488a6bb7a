/**
 * `GET /api/users`: one page of the user directory. The page number and
 * size come from the query string through `parseInt`, so either may be
 * NaN; numbers that are not finite (NaN, Infinity) are `None` here, and
 * JSON writes them as null.
 */
module UsersApi {

  import opened Wrappers
  import opened Js
  import opened Strings
  import opened ApiUtils

  const DEFAULT_PAGE := "1"
  const DEFAULT_PAGE_SIZE := "20"
  const MAX_PAGE_SIZE := 50

  /** `url.searchParams.get(name) || fallback`: an absent or empty parameter takes the fallback. */
  function ParamOr(p: Option<string>, fallback: string): (s: string)
    ensures p.Some? && p.value != "" ==> s == p.value
    ensures p.None? || p.value == "" ==> s == fallback
  {
    if p.Some? && p.value != "" then p.value else fallback
  }

  function PageOf(pageParam: Option<string>): Option<int> {
    ParseInt(ParamOr(pageParam, DEFAULT_PAGE))
  }

  /** `Math.min(parseInt(...), 50)`: NaN stays NaN. */
  function PageSizeOf(sizeParam: Option<string>): Option<int> {
    match ParseInt(ParamOr(sizeParam, DEFAULT_PAGE_SIZE))
    case None => None
    case Some(n) => Some(if n < MAX_PAGE_SIZE then n else MAX_PAGE_SIZE)
  }

  /** Without parameters the first page, of twenty rows. */
  lemma PagingDefaults()
    ensures PageOf(None) == Some(1)
    ensures PageSizeOf(None) == Some(20)
  {
    assert ParamOr(None, DEFAULT_PAGE) == "1";
    assert ParamOr(None, DEFAULT_PAGE_SIZE) == "20";
    OneParses();
    TwentyParses();
  }

  lemma OneParses()
    ensures ParseInt("1") == Some(1)
  {
    assert IntToString(1) == [DigitChar(1)] == "1";
    ParseIntOfIntToString(1);
  }

  lemma TwentyParses()
    ensures ParseInt("20") == Some(20)
  {
    assert NatToString(2) == [DigitChar(2)];
    assert IntToString(20) == NatToString(2) + [DigitChar(0)] == "20";
    ParseIntOfIntToString(20);
  }

  /** The size is what the parameter says, but never more than fifty. */
  lemma PageSizeCapped(sizeParam: Option<string>)
    ensures PageSizeOf(sizeParam).Some? ==> PageSizeOf(sizeParam).value <= MAX_PAGE_SIZE
    ensures sizeParam.Some? && sizeParam.value != "" && ParseInt(sizeParam.value).Some? ==>
              PageSizeOf(sizeParam).value ==
                (if ParseInt(sizeParam.value).value <= MAX_PAGE_SIZE then ParseInt(sizeParam.value).value else MAX_PAGE_SIZE)
  {
  }

  /** `from` and `to`, the inclusive bounds of `.range(from, to)`. */
  function RangeOf(page: Option<int>, size: Option<int>): (r: Option<(int, int)>)
    ensures r.Some? <==> page.Some? && size.Some?
  {
    if page.None? || size.None? then None
    else
      var from := (page.value - 1) * size.value;
      Some((from, from + size.value - 1))
  }

  /** A range covers exactly `size` rows, starting after the previous pages. */
  lemma RangeSpansPageSize(page: int, size: int)
    ensures var r := RangeOf(Some(page), Some(size)).value;
            r.1 - r.0 + 1 == size && r.0 == (page - 1) * size
  {
  }

  /** Consecutive pages are contiguous and, for a positive size, disjoint. */
  lemma PagesContiguous(page: int, size: int)
    ensures RangeOf(Some(page), Some(size)).value.1 + 1 == RangeOf(Some(page + 1), Some(size)).value.0
    ensures size > 0 ==> RangeOf(Some(page), Some(size)).value.1 < RangeOf(Some(page + 1), Some(size)).value.0
  {
  }

  /** `Math.ceil(count / size)` for a non-negative count: dividing by zero gives NaN or Infinity. */
  function CeilDiv(count: nat, size: int): (q: Option<int>)
  {
    if size == 0 then None
    else if size > 0 then Some((count + size - 1) / size)
    else Some(-(count / -size))
  }

  /** For a positive size, the quotient is the least number of pages holding `count` rows. */
  lemma CeilDivIsLeastCover(count: nat, size: int)
    requires size > 0
    ensures CeilDiv(count, size).Some?
    ensures var q := CeilDiv(count, size).value;
            q * size >= count && (q - 1) * size < count && q >= 0
  {
    var q := (count + size - 1) / size;
    var m := (count + size - 1) % size;
    assert q * size + m == count + size - 1;
    assert 0 <= m < size;
  }

  /** `count ? Math.ceil(count / pageSize) : 0`, with a null count reading as zero. */
  function TotalPages(count: Option<nat>, size: Option<int>): (t: Option<int>)
    ensures count.None? || count.value == 0 ==> t == Some(0)
  {
    if count.None? || count.value == 0 then Some(0)
    else if size.None? then None
    else CeilDiv(count.value, size.value)
  }

  /** The last row of a non-empty result lies on the last page, which is the page `totalPages` names. */
  lemma LastRowOnLastPage(count: nat, page: int, size: int)
    requires count > 0 && size > 0
    ensures var t := TotalPages(Some(count), Some(size)).value;
            var r := RangeOf(Some(t), Some(size)).value;
            t >= 1 && r.0 <= count - 1 <= r.1
  {
    CeilDivIsLeastCover(count, size);
  }

  /** The name/email filter, sent only for a non-empty query. */
  function SearchFilter(query: Option<string>): (f: Option<string>)
    ensures f.Some? <==> query.Some? && query.value != ""
    ensures f.Some? ==> f.value == "display_name.ilike.%" + query.value + "%,email.ilike.%" + query.value + "%"
  {
    var q := ParamOr(query, "");
    if q == "" then None else Some("display_name.ilike.%" + q + "%,email.ilike.%" + q + "%")
  }

  /** What the handler asks of the `users` table. */
  datatype UsersQuery = UsersQuery(filter: Option<string>, range: Option<(int, int)>)

  /** What the table answers: the rows and the exact count, either of which may be null. */
  datatype UsersPage = UsersPage(data: Option<seq<Value>>, count: Option<nat>)

  function NumberJson(n: Option<int>): (v: Value)
    ensures n.None? <==> v == Null
  {
    if n.None? then Null else Num(n.value)
  }

  function QueryOf(pageParam: Option<string>, sizeParam: Option<string>, query: Option<string>): UsersQuery {
    UsersQuery(SearchFilter(query), RangeOf(PageOf(pageParam), PageSizeOf(sizeParam)))
  }

  /** The handler, with the table given as the function that answers a query. */
  function ListUsers(pageParam: Option<string>, sizeParam: Option<string>, query: Option<string>,
                     users: UsersQuery -> Result<UsersPage, DbError>): (r: Response)
    ensures r.body.Success? <==> users(QueryOf(pageParam, sizeParam, query)).Ok?
  {
    var page := PageOf(pageParam);
    var size := PageSizeOf(sizeParam);
    match users(QueryOf(pageParam, sizeParam, query))
    case Err(e) => HandleDbError(e)
    case Ok(UsersPage(data, count)) =>
      ApiSuccess(Obj(map[
        "users" := Arr(data.GetOr([])),
        "pagination" := Obj(map[
          "page" := NumberJson(page),
          "pageSize" := NumberJson(size),
          "total" := Num(count.GetOr(0)),
          "totalPages" := NumberJson(TotalPages(count, size))])]))
  }

  /**
   * A successful answer is echoed with its rows (none for null), the total
   * (zero for null) and the page count of that total; a failed query is
   * mapped like any database error.
   */
  lemma ListUsersAnswers(pageParam: Option<string>, sizeParam: Option<string>, query: Option<string>,
                         users: UsersQuery -> Result<UsersPage, DbError>)
    ensures var q := QueryOf(pageParam, sizeParam, query);
            var r := ListUsers(pageParam, sizeParam, query, users);
            (users(q).Err? ==> r == HandleDbError(users(q).error)) &&
            (users(q).Ok? ==>
               r.status == 200 && r.body.Success? && r.body.data.Obj? &&
               r.body.data.fields["users"] == Arr(users(q).value.data.GetOr([])) &&
               r.body.data.fields["pagination"].fields["total"] == Num(users(q).value.count.GetOr(0)) &&
               r.body.data.fields["pagination"].fields["totalPages"] ==
                 NumberJson(TotalPages(users(q).value.count, PageSizeOf(sizeParam))))
  {
    var q := QueryOf(pageParam, sizeParam, query);
    var r := ListUsers(pageParam, sizeParam, query, users);
    if users(q).Ok? {
      var UsersPage(data, count) := users(q).value;
      var pagination := map["page" := NumberJson(PageOf(pageParam)), "pageSize" := NumberJson(PageSizeOf(sizeParam)),
                             "total" := Num(count.GetOr(0)), "totalPages" := NumberJson(TotalPages(count, PageSizeOf(sizeParam)))];
      assert r == ApiSuccess(Obj(map["users" := Arr(data.GetOr([])), "pagination" := Obj(pagination)]));
    }
  }

  /** The filter is sent exactly for a non-empty query, over the range of the page asked for. */
  lemma ListUsersQuery(pageParam: Option<string>, sizeParam: Option<string>, query: Option<string>)
    ensures var q := QueryOf(pageParam, sizeParam, query);
            (q.filter.Some? <==> query.Some? && query.value != "") &&
            q.range == RangeOf(PageOf(pageParam), PageSizeOf(sizeParam))
  {
  }

  /** Without parameters, rows 0 to 19 are asked for. */
  lemma DefaultRange()
    ensures RangeOf(PageOf(None), PageSizeOf(None)) == Some((0, 19))
  {
    PagingDefaults();
  }
}
