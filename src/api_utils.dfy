/**
 * The API helpers of app/api/utils.py: pagination headers with an
 * RFC 8288 section 3 Link header, enum parameter validation, the Texas
 * filter dictionary and the paginated legislation response.
 */
module ApiUtils {
  import opened Wrappers
  import opened PyValue
  import Text
  import BaseStore

  type Dict = seq<(string, Value)>

  // ---------------------------------------------------------------------
  // Page arithmetic

  datatype Pages = Pages(pageSize: int, currentPage: int, totalPages: int)

  /**
   * page_size = max(1, limit), current_page = offset // page_size + 1 and
   * total_pages = ceil(total / page_size); Python's // floors, which for a
   * positive divisor is Dafny's /.
   */
  function PagesOf(total: int, limit: int, offset: int): (p: Pages)
    ensures p.pageSize >= 1 && p.pageSize >= limit
  {
    var ps := if limit > 1 then limit else 1;
    Pages(ps, offset / ps + 1, (total + ps - 1) / ps)
  }

  /** The four rels of the Link header, each with the offset its URL carries. */
  datatype Link = Link(rel: string, offset: int)

  /** The prev link's offset, max(0, offset - limit), present past the first page. */
  function PrevOffset(total: int, limit: int, offset: int): Option<int>
  {
    if PagesOf(total, limit, offset).currentPage > 1 then Some(if offset - limit > 0 then offset - limit else 0) else None
  }

  /** The next link's offset, offset + limit, present before the last page. */
  function NextOffset(total: int, limit: int, offset: int): Option<int>
  {
    var p := PagesOf(total, limit, offset);
    if p.currentPage < p.totalPages then Some(offset + limit) else None
  }

  /** The last link's offset, max(0, (total_pages - 1) * limit). */
  function LastOffset(total: int, limit: int, offset: int): int
  {
    var p := PagesOf(total, limit, offset);
    if (p.totalPages - 1) * limit > 0 then (p.totalPages - 1) * limit else 0
  }

  function OptLink(rel: string, offset: Option<int>): seq<Link>
  {
    if offset.Some? then [Link(rel, offset.value)] else []
  }

  function Links(total: int, limit: int, offset: int): (ls: seq<Link>)
    ensures 2 <= |ls| <= 4 && ls[0] == Link("first", 0) && ls[|ls| - 1] == Link("last", LastOffset(total, limit, offset))
  {
    LinksOf(PrevOffset(total, limit, offset), NextOffset(total, limit, offset), LastOffset(total, limit, offset))
  }

  /** The first link, the optional prev and next links, and the last link. */
  function LinksOf(prev: Option<int>, next: Option<int>, last: int): (ls: seq<Link>)
    ensures 2 <= |ls| <= 4 && ls[0] == Link("first", 0) && ls[|ls| - 1] == Link("last", last)
  {
    [Link("first", 0)] + OptLink("prev", prev) + OptLink("next", next) + [Link("last", last)]
  }

  lemma {:induction false} DivUnique(x: int, k: int, q: int, r: int)
    requires k > 0 && 0 <= r < k && x == q * k + r
    ensures x / k == q
  {
    var q', r' := x / k, x % k;
    assert x == q' * k + r';
    if q' > q {
      MulMono(q + 1, q', k);
    } else if q' < q {
      MulMono(q' + 1, q, k);
    }
  }

  lemma {:induction false} MulMono(a: int, b: int, k: int)
    requires a <= b && k >= 0
    ensures a * k <= b * k
  {
  }

  /** A page that starts on the first page has no prev link, one past it has. */
  lemma {:induction false} PrevIffPastFirstPage(total: int, limit: int, offset: int)
    requires offset >= 0
    ensures PrevOffset(total, limit, offset).Some? <==> offset >= PagesOf(total, limit, offset).pageSize
  {
    var p := PagesOf(total, limit, offset);
    if offset < p.pageSize {
      DivUnique(offset, p.pageSize, 0, offset);
    } else {
      DivUnique(offset, p.pageSize, 1 + (offset - p.pageSize) / p.pageSize, (offset - p.pageSize) % p.pageSize);
    }
  }

  /**
   * On a page-aligned offset the next link exists exactly when there are
   * items past the current page, and it points at the following page.
   */
  lemma {:induction false} AlignedNextIffMore(total: int, limit: int, q: nat)
    requires limit >= 1
    ensures NextOffset(total, limit, q * limit) == if (q + 1) * limit < total then Some((q + 1) * limit) else None
  {
    var offset := q * limit;
    DivUnique(offset, limit, q, 0);
    var t := (total + limit - 1) / limit;
    var rem := (total + limit - 1) % limit;
    assert total + limit - 1 == t * limit + rem;
    assert offset + limit == (q + 1) * limit;
    if q + 1 < t {
      MulMono(q + 2, t, limit);
      assert (q + 2) * limit == (q + 1) * limit + limit;
    } else {
      MulMono(t, q + 1, limit);
    }
  }

  /** The last link points at a page that holds items when any exist. */
  lemma {:induction false} LastPageHoldsItems(total: int, limit: int, offset: int)
    requires limit >= 1 && total >= 1
    ensures LastOffset(total, limit, offset) < total <= LastOffset(total, limit, offset) + limit
  {
    var t := (total + limit - 1) / limit;
    var rem := (total + limit - 1) % limit;
    assert total + limit - 1 == t * limit + rem;
    assert t >= 1 by {
      if t < 1 { MulMono(t, 0, limit); }
    }
  }

  // ---------------------------------------------------------------------
  // Rendering the headers

  /**
   * dict(request.query_params): a repeated key keeps its first position
   * and takes its last value.
   */
  function DictOf(pairs: seq<(string, string)>): Dict
  {
    if pairs == [] then []
    else
      var last := pairs[|pairs| - 1];
      Set(DictOf(pairs[..|pairs| - 1]), last.0, PyStr(last.1))
  }

  /** "&".join(f"{k}={v}" for k, v in params.items()), without URL encoding. */
  function QueryString(params: Dict): string
  {
    Text.Join(Assignments(params), "&")
  }

  function Assignments(params: Dict): (r: seq<string>)
    ensures |r| == |params|
  {
    if params == [] then [] else [params[0].0 + "=" + Str(params[0].1)] + Assignments(params[1..])
  }

  /** str(request.url).split('?')[0]. */
  function BaseUrl(url: string): string
  {
    Text.SplitOn(url, '?')[0]
  }

  /** dict(request.query_params) | {"limit": str(limit), "offset": "0"}. */
  function FirstParams(queryParams: seq<(string, string)>, limit: int): Dict
  {
    Set(Set(DictOf(queryParams), "limit", PyStr(Text.IntToString(limit))), "offset", PyStr("0"))
  }

  /** f'<{base_url}?{query_string}>; rel="{rel}"'. */
  function LinkText(base: string, query: string, rel: string): string
  {
    "<" + base + "?" + query + ">; rel=\"" + rel + "\""
  }

  function RenderLink(base: string, params: Dict, l: Link): string
  {
    LinkText(base, QueryString(Set(params, "offset", PyStr(Text.IntToString(l.offset)))), l.rel)
  }

  function RenderLinks(base: string, params: Dict, ls: seq<Link>): (r: seq<string>)
    ensures |r| == |ls|
    ensures forall i :: 0 <= i < |ls| ==> r[i] == RenderLink(base, params, ls[i])
  {
    if ls == [] then [] else [RenderLink(base, params, ls[0])] + RenderLinks(base, params, ls[1..])
  }

  /** The Link header value: the rendered links joined by ", ". */
  function LinkHeader(url: string, queryParams: seq<(string, string)>, total: int, limit: int, offset: int): string
  {
    Text.Join(RenderLinks(BaseUrl(url), FirstParams(queryParams, limit), Links(total, limit, offset)), ", ")
  }

  /** The headers after add_pagination_headers, set in the order it sets them. */
  function PaginationHeaders(headers: Dict, url: string, queryParams: seq<(string, string)>,
                             total: int, limit: int, offset: int): Dict
  {
    var p := PagesOf(total, limit, offset);
    var h1 := Set(headers, "X-Total-Count", PyStr(Text.IntToString(total)));
    var h2 := Set(h1, "X-Page-Count", PyStr(Text.IntToString(p.totalPages)));
    var h3 := Set(h2, "X-Current-Page", PyStr(Text.IntToString(p.currentPage)));
    var h4 := Set(h3, "X-Page-Size", PyStr(Text.IntToString(p.pageSize)));
    Set(h4, "Link", PyStr(LinkHeader(url, queryParams, total, limit, offset)))
  }

  /** Looking one key up in the headers after the five writes. */
  lemma {:induction false} GetPaginationHeader(headers: Dict, url: string, queryParams: seq<(string, string)>,
                            total: int, limit: int, offset: int, k: string)
    ensures var p := PagesOf(total, limit, offset);
      Get(PaginationHeaders(headers, url, queryParams, total, limit, offset), k) ==
        if k == "Link" then Some(PyStr(LinkHeader(url, queryParams, total, limit, offset)))
        else if k == "X-Page-Size" then Some(PyStr(Text.IntToString(p.pageSize)))
        else if k == "X-Current-Page" then Some(PyStr(Text.IntToString(p.currentPage)))
        else if k == "X-Page-Count" then Some(PyStr(Text.IntToString(p.totalPages)))
        else if k == "X-Total-Count" then Some(PyStr(Text.IntToString(total)))
        else Get(headers, k)
  {
    var p := PagesOf(total, limit, offset);
    var h1 := Set(headers, "X-Total-Count", PyStr(Text.IntToString(total)));
    var h2 := Set(h1, "X-Page-Count", PyStr(Text.IntToString(p.totalPages)));
    var h3 := Set(h2, "X-Current-Page", PyStr(Text.IntToString(p.currentPage)));
    var h4 := Set(h3, "X-Page-Size", PyStr(Text.IntToString(p.pageSize)));
    GetSet(headers, "X-Total-Count", PyStr(Text.IntToString(total)), k);
    GetSet(h1, "X-Page-Count", PyStr(Text.IntToString(p.totalPages)), k);
    GetSet(h2, "X-Current-Page", PyStr(Text.IntToString(p.currentPage)), k);
    GetSet(h3, "X-Page-Size", PyStr(Text.IntToString(p.pageSize)), k);
    GetSet(h4, "Link", PyStr(LinkHeader(url, queryParams, total, limit, offset)), k);
  }

  /** Each count header carries its number as decimal text, and other headers are kept. */
  lemma {:induction false} HeadersCarryCounts(headers: Dict, url: string, queryParams: seq<(string, string)>,
                           total: int, limit: int, offset: int, other: string)
    requires other != "X-Total-Count" && other != "X-Page-Count" && other != "X-Current-Page"
    requires other != "X-Page-Size" && other != "Link"
    ensures var h := PaginationHeaders(headers, url, queryParams, total, limit, offset);
      var p := PagesOf(total, limit, offset);
      && Get(h, "X-Total-Count") == Some(PyStr(Text.IntToString(total)))
      && Get(h, "X-Page-Count") == Some(PyStr(Text.IntToString(p.totalPages)))
      && Get(h, "X-Current-Page") == Some(PyStr(Text.IntToString(p.currentPage)))
      && Get(h, "X-Page-Size") == Some(PyStr(Text.IntToString(p.pageSize)))
      && Get(h, "Link") == Some(PyStr(LinkHeader(url, queryParams, total, limit, offset)))
      && Get(h, other) == Get(headers, other)
  {
    GetPaginationHeader(headers, url, queryParams, total, limit, offset, "X-Total-Count");
    GetPaginationHeader(headers, url, queryParams, total, limit, offset, "X-Page-Count");
    GetPaginationHeader(headers, url, queryParams, total, limit, offset, "X-Current-Page");
    GetPaginationHeader(headers, url, queryParams, total, limit, offset, "X-Page-Size");
    GetPaginationHeader(headers, url, queryParams, total, limit, offset, "Link");
    GetPaginationHeader(headers, url, queryParams, total, limit, offset, other);
  }

  /** A second d[k] = v overwrites the first. */
  lemma {:induction false} SetOverwrites(es: Dict, k: string, v1: Value, v2: Value)
    ensures Set(Set(es, k, v1), k, v2) == Set(es, k, v2)
    decreases |es|
  {
    if |es| > 0 && es[0].0 != k {
      SetOverwrites(es[1..], k, v1, v2);
      assert Set(es, k, v1)[1..] == Set(es[1..], k, v1);
    }
  }

  /** A response whose headers the helpers write. */
  class Response {
    var headers: Dict

    constructor (headers: Dict)
      ensures this.headers == headers
    {
      this.headers := headers;
    }
  }

  /**
   * add_pagination_headers: four count headers, then the Link header
   * built by rewriting the offset of one query-parameter dict link by link.
   */
  method AddPaginationHeaders(response: Response, url: string, queryParams: seq<(string, string)>,
                              total: int, limit: int, offset: int)
    modifies response
    ensures response.headers == PaginationHeaders(old(response.headers), url, queryParams, total, limit, offset)
  {
    var pageSize := if limit > 1 then limit else 1;
    var currentPage := offset / pageSize + 1;
    var totalPages := (total + pageSize - 1) / pageSize;
    assert PagesOf(total, limit, offset) == Pages(pageSize, currentPage, totalPages);
    response.headers := Set(response.headers, "X-Total-Count", PyStr(Text.IntToString(total)));
    response.headers := Set(response.headers, "X-Page-Count", PyStr(Text.IntToString(totalPages)));
    response.headers := Set(response.headers, "X-Current-Page", PyStr(Text.IntToString(currentPage)));
    response.headers := Set(response.headers, "X-Page-Size", PyStr(Text.IntToString(pageSize)));

    var pre := Set(DictOf(queryParams), "limit", PyStr(Text.IntToString(limit)));
    var links := BuildLinks(BaseUrl(url), Set(pre, "offset", PyStr("0")), total, limit, offset, currentPage, totalPages);
    LinkStringsRenderLinks(BaseUrl(url), pre, PrevOffset(total, limit, offset), NextOffset(total, limit, offset), LastOffset(total, limit, offset));
    response.headers := Set(response.headers, "Link", PyStr(Text.Join(links, ", ")));
  }

  /**
   * The link strings as add_pagination_headers produces them: one dict
   * whose "offset" is rewritten before each link after the first.
   */
  function LinkStrings(base: string, first: Dict, prev: Option<int>, next: Option<int>, last: int): seq<string>
  {
    var p1 := if prev.Some? then Set(first, "offset", PyStr(Text.IntToString(prev.value))) else first;
    var p2 := if next.Some? then Set(p1, "offset", PyStr(Text.IntToString(next.value))) else p1;
    var p3 := Set(p2, "offset", PyStr(Text.IntToString(last)));
    [LinkText(base, QueryString(first), "first")]
    + (if prev.Some? then [LinkText(base, QueryString(p1), "prev")] else [])
    + (if next.Some? then [LinkText(base, QueryString(p2), "next")] else [])
    + [LinkText(base, QueryString(p3), "last")]
  }

  lemma {:induction false} RenderOptLink(base: string, params: Dict, rel: string, off: Option<int>)
    ensures RenderLinks(base, params, OptLink(rel, off))
         == if off.Some? then [RenderLink(base, params, Link(rel, off.value))] else []
  {
  }

  lemma {:induction false} RenderLinksConcat(base: string, params: Dict, xs: seq<Link>, ys: seq<Link>)
    ensures RenderLinks(base, params, xs + ys) == RenderLinks(base, params, xs) + RenderLinks(base, params, ys)
  {
    var l, r := RenderLinks(base, params, xs + ys), RenderLinks(base, params, xs) + RenderLinks(base, params, ys);
    assert |l| == |r|;
    forall i | 0 <= i < |l| ensures l[i] == r[i] {
      if i < |xs| { assert (xs + ys)[i] == xs[i]; } else { assert (xs + ys)[i] == ys[i - |xs|]; }
    }
  }

  /** The links rendered one by one from the merged parameters. */
  lemma {:induction false} RenderLinksParts(base: string, first: Dict, prev: Option<int>, next: Option<int>, last: int)
    ensures RenderLinks(base, first, LinksOf(prev, next, last))
         == [RenderLink(base, first, Link("first", 0))]
          + RenderLinks(base, first, OptLink("prev", prev))
          + RenderLinks(base, first, OptLink("next", next))
          + [RenderLink(base, first, Link("last", last))]
  {
    var a, b, c, d := [Link("first", 0)], OptLink("prev", prev), OptLink("next", next), [Link("last", last)];
    assert LinksOf(prev, next, last) == a + b + c + d;
    RenderLinksConcat(base, first, a + b + c, d);
    RenderLinksConcat(base, first, a + b, c);
    RenderLinksConcat(base, first, a, b);
    RenderLinksSingle(base, first, a[0]);
    RenderLinksSingle(base, first, d[0]);
  }

  lemma {:induction false} RenderLinksSingle(base: string, params: Dict, l: Link)
    ensures RenderLinks(base, params, [l]) == [RenderLink(base, params, l)]
  {
  }

  /** Rendering from the merged parameters is rendering from the rewritten ones. */
  lemma {:induction false} RenderFromRewritten(base: string, pre: Dict, v: Value, rel: string, n: int)
    ensures RenderLink(base, Set(pre, "offset", v), Link(rel, n))
         == LinkText(base, QueryString(Set(pre, "offset", PyStr(Text.IntToString(n)))), rel)
  {
    SetOverwrites(pre, "offset", v, PyStr(Text.IntToString(n)));
  }

  /** Rewriting one dict link by link renders each link from the merged parameters. */
  lemma {:induction false} LinkStringsRenderLinks(base: string, pre: Dict, prev: Option<int>, next: Option<int>, last: int)
    ensures LinkStrings(base, Set(pre, "offset", PyStr("0")), prev, next, last)
         == RenderLinks(base, Set(pre, "offset", PyStr("0")), LinksOf(prev, next, last))
  {
    var zero := PyStr("0");
    var first := Set(pre, "offset", zero);
    RenderLinksParts(base, first, prev, next, last);
    RenderOptLink(base, first, "prev", prev);
    RenderOptLink(base, first, "next", next);
    assert Text.IntToString(0) == "0";
    RenderFromRewritten(base, pre, zero, "first", 0);
    RenderFromRewritten(base, pre, zero, "last", last);
    var v1 := if prev.Some? then PyStr(Text.IntToString(prev.value)) else zero;
    if prev.Some? {
      RenderFromRewritten(base, pre, zero, "prev", prev.value);
      SetOverwrites(pre, "offset", zero, v1);
    }
    var v2 := if next.Some? then PyStr(Text.IntToString(next.value)) else v1;
    if next.Some? {
      RenderFromRewritten(base, pre, zero, "next", next.value);
      SetOverwrites(pre, "offset", v1, v2);
    }
    SetOverwrites(pre, "offset", v2, PyStr(Text.IntToString(last)));
  }

  /** The link offsets in terms of the page numbers add_pagination_headers computes. */
  lemma {:induction false} OffsetsFromPages(total: int, limit: int, offset: int, currentPage: int, totalPages: int)
    requires PagesOf(total, limit, offset) == Pages(PagesOf(total, limit, offset).pageSize, currentPage, totalPages)
    ensures PrevOffset(total, limit, offset) == if currentPage > 1 then Some(if offset - limit > 0 then offset - limit else 0) else None
    ensures NextOffset(total, limit, offset) == if currentPage < totalPages then Some(offset + limit) else None
    ensures LastOffset(total, limit, offset) == if (totalPages - 1) * limit > 0 then (totalPages - 1) * limit else 0
  {
  }

  /**
   * The link list of add_pagination_headers: the first link from the
   * merged parameters, then each further link after rewriting "offset".
   */
  method BuildLinks(base: string, first: Dict, total: int, limit: int, offset: int,
                    currentPage: int, totalPages: int) returns (links: seq<string>)
    requires PagesOf(total, limit, offset) == Pages(PagesOf(total, limit, offset).pageSize, currentPage, totalPages)
    ensures links == LinkStrings(base, first, PrevOffset(total, limit, offset), NextOffset(total, limit, offset), LastOffset(total, limit, offset))
  {
    OffsetsFromPages(total, limit, offset, currentPage, totalPages);
    ghost var prev, next, last := PrevOffset(total, limit, offset), NextOffset(total, limit, offset), LastOffset(total, limit, offset);
    var params := first;
    links := [LinkText(base, QueryString(params), "first")];
    ghost var l0 := links;
    if currentPage > 1 {
      params := Set(params, "offset", PyStr(Text.IntToString(if offset - limit > 0 then offset - limit else 0)));
      links := links + [LinkText(base, QueryString(params), "prev")];
    }
    ghost var p1, l1 := params, links;
    assert p1 == (if prev.Some? then Set(first, "offset", PyStr(Text.IntToString(prev.value))) else first);
    assert l1 == l0 + (if prev.Some? then [LinkText(base, QueryString(p1), "prev")] else []);
    if currentPage < totalPages {
      params := Set(params, "offset", PyStr(Text.IntToString(offset + limit)));
      links := links + [LinkText(base, QueryString(params), "next")];
    }
    ghost var p2, l2 := params, links;
    assert p2 == (if next.Some? then Set(p1, "offset", PyStr(Text.IntToString(next.value))) else p1);
    assert l2 == l1 + (if next.Some? then [LinkText(base, QueryString(p2), "next")] else []);
    var lastOffset := if (totalPages - 1) * limit > 0 then (totalPages - 1) * limit else 0;
    params := Set(params, "offset", PyStr(Text.IntToString(lastOffset)));
    links := links + [LinkText(base, QueryString(params), "last")];
  }

  // ---------------------------------------------------------------------
  // Enum parameters

  /**
   * validate_enum_parameter: an empty value passes, any other value must
   * equal one of the enum's string values.
   */
  function ValidateEnumParameter(value: Value, choices: seq<string>, name: string): (r: Result<(), BaseStore.StoreError>)
    ensures r.Ok? <==> !Truthy(value) || (value.PyStr? && value.s in choices)
    ensures r.Err? ==> r.error == BaseStore.ValidationError("Invalid " + name + ": " + Str(value))
  {
    if Truthy(value) && !(value.PyStr? && value.s in choices) then
      Err(BaseStore.ValidationError("Invalid " + name + ": " + Str(value)))
    else
      Ok(())
  }

  /** Only strings can be enum values: a non-empty value of another type is refused. */
  lemma {:induction false} NonStringEnumRefused(value: Value, choices: seq<string>, name: string)
    requires Truthy(value) && !value.PyStr?
    ensures ValidateEnumParameter(value, choices, name).Err?
  {
  }

  // ---------------------------------------------------------------------
  // Texas filters

  /** The filter arguments of build_texas_legislation_filters. */
  datatype FilterArgs = FilterArgs(focus: Value, billStatus: Value, impactLevel: Value, introducedAfter: Value,
                                   keywords: Value, municipalityType: Value, relevanceThreshold: Value)

  function StrValues(ss: seq<string>): (r: seq<Value>)
    ensures |r| == |ss| && forall i :: 0 <= i < |ss| ==> r[i] == PyStr(ss[i])
  {
    if ss == [] then [] else [PyStr(ss[0])] + StrValues(ss[1..])
  }

  /** One conditional write filters[key] = value. */
  datatype Write = Write(key: string, value: Value, kept: bool)

  /** The writes in order, each done when its condition holds. */
  function WriteAll(d: Dict, ws: seq<Write>): Dict
    decreases |ws|
  {
    if ws == [] then d
    else WriteAll(if ws[0].kept then Set(d, ws[0].key, ws[0].value) else d, ws[1..])
  }

  predicate DistinctKeys(ws: seq<Write>)
  {
    forall i, j :: 0 <= i < j < |ws| ==> ws[i].key != ws[j].key
  }

  /** A key no write names keeps its value. */
  lemma {:induction false} WriteAllGetOther(d: Dict, ws: seq<Write>, k: string)
    requires forall i :: 0 <= i < |ws| ==> ws[i].key != k
    ensures Get(WriteAll(d, ws), k) == Get(d, k)
    decreases |ws|
  {
    if ws != [] {
      var d' := if ws[0].kept then Set(d, ws[0].key, ws[0].value) else d;
      if ws[0].kept { GetSet(d, ws[0].key, ws[0].value, k); }
      assert forall i :: 0 <= i < |ws[1..]| ==> ws[1..][i] == ws[i + 1];
      WriteAllGetOther(d', ws[1..], k);
    }
  }

  /** With distinct keys, the i-th key holds its value when its write is done. */
  lemma {:induction false} WriteAllGetAt(d: Dict, ws: seq<Write>, i: nat)
    requires DistinctKeys(ws) && i < |ws|
    ensures Get(WriteAll(d, ws), ws[i].key) == if ws[i].kept then Some(ws[i].value) else Get(d, ws[i].key)
    decreases |ws|
  {
    var d' := if ws[0].kept then Set(d, ws[0].key, ws[0].value) else d;
    assert forall j :: 0 <= j < |ws[1..]| ==> ws[1..][j] == ws[j + 1];
    if ws[0].kept { GetSet(d, ws[0].key, ws[0].value, ws[i].key); }
    if i == 0 {
      WriteAllGetOther(d', ws[1..], ws[0].key);
    } else {
      WriteAllGetAt(d', ws[1..], i - 1);
    }
  }

  /**
   * The keyword list: the comma-separated pieces, stripped, empty ones
   * dropped.  Only a str has split(","): bytes.split refuses a str
   * separator and other values have no split at all.
   */
  function KeywordFilter(keywords: Value): Result<Value, BaseStore.StoreError>
  {
    match keywords
    case PyStr(s) => Ok(PyList(StrValues(Text.SplitStripNonEmpty(s, ','))))
    case PyBytes(_) => Err(BaseStore.Unhandled("TypeError", "a bytes-like object is required, not 'str'"))
    case _ => Err(BaseStore.Unhandled("AttributeError", "'" + TypeName(keywords) + "' object has no attribute 'split'"))
  }

  /** The writes of build_texas_legislation_filters, in its order, with the parsed keywords kw. */
  function FilterWrites(a: FilterArgs, kw: Value): (ws: seq<Write>)
    ensures |ws| == 7 && DistinctKeys(ws)
  {
    [Write("focus", a.focus, Truthy(a.focus)),
     Write("bill_status", a.billStatus, Truthy(a.billStatus)),
     Write("impact_level", a.impactLevel, Truthy(a.impactLevel)),
     Write("introduced_after", a.introducedAfter, Truthy(a.introducedAfter)),
     Write("keywords", kw, Truthy(a.keywords)),
     Write("municipality_type", a.municipalityType, Truthy(a.municipalityType)),
     Write("relevance_threshold", a.relevanceThreshold, !a.relevanceThreshold.PyNone?)]
  }

  /**
   * build_texas_legislation_filters: each truthy argument under its key, in
   * argument order, except relevance_threshold, which is kept whenever it
   * is not None.
   */
  function TexasFilters(a: FilterArgs): (r: Result<Dict, BaseStore.StoreError>)
    ensures r.Err? <==> Truthy(a.keywords) && !a.keywords.PyStr?
  {
    var kw := if Truthy(a.keywords) then KeywordFilter(a.keywords) else Ok(PyNone);
    if kw.Err? then Err(kw.error) else Ok(WriteAll([], FilterWrites(a, kw.value)))
  }

  /**
   * Each argument is stored unchanged under its key exactly when it is
   * included (truthy, or not None for relevance_threshold); the keywords
   * are stored as their stripped pieces.
   */
  lemma {:induction false} TexasFiltersValues(a: FilterArgs)
    requires TexasFilters(a).Ok?
    ensures Get(TexasFilters(a).value, "focus") == if Truthy(a.focus) then Some(a.focus) else None
    ensures Get(TexasFilters(a).value, "bill_status") == if Truthy(a.billStatus) then Some(a.billStatus) else None
    ensures Get(TexasFilters(a).value, "impact_level") == if Truthy(a.impactLevel) then Some(a.impactLevel) else None
    ensures Get(TexasFilters(a).value, "introduced_after") == if Truthy(a.introducedAfter) then Some(a.introducedAfter) else None
    ensures Get(TexasFilters(a).value, "keywords")
         == if Truthy(a.keywords) then Some(PyList(StrValues(Text.SplitStripNonEmpty(a.keywords.s, ',')))) else None
    ensures Get(TexasFilters(a).value, "municipality_type") == if Truthy(a.municipalityType) then Some(a.municipalityType) else None
    ensures Get(TexasFilters(a).value, "relevance_threshold") == if a.relevanceThreshold.PyNone? then None else Some(a.relevanceThreshold)
  {
    var kw := if Truthy(a.keywords) then KeywordFilter(a.keywords) else Ok(PyNone);
    var ws := FilterWrites(a, kw.value);
    WriteAllGetAt([], ws, 0);
    WriteAllGetAt([], ws, 1);
    WriteAllGetAt([], ws, 2);
    WriteAllGetAt([], ws, 3);
    WriteAllGetAt([], ws, 4);
    WriteAllGetAt([], ws, 5);
    WriteAllGetAt([], ws, 6);
  }

  /** The filters hold no key besides the seven argument names. */
  lemma {:induction false} TexasFiltersNoOtherKey(a: FilterArgs, k: string)
    requires TexasFilters(a).Ok?
    requires k !in ["focus", "bill_status", "impact_level", "introduced_after", "keywords", "municipality_type", "relevance_threshold"]
    ensures !HasKey(TexasFilters(a).value, k)
  {
    var kw := if Truthy(a.keywords) then KeywordFilter(a.keywords) else Ok(PyNone);
    var ws := FilterWrites(a, kw.value);
    WriteAllGetOther([], ws, k);
    GetFindsKey(TexasFilters(a).value, k);
  }

  /** Every keyword in the filters is non-empty, stripped and free of commas. */
  lemma {:induction false} FilterKeywordsClean(s: string)
    requires s != []
    ensures forall k :: k in StrValues(Text.SplitStripNonEmpty(s, ',')) ==> k.PyStr? && k.s != [] && Text.Strip(k.s) == k.s && ',' !in k.s
  {
    var ks := Text.SplitStripNonEmpty(s, ',');
    Text.SplitStripNonEmptyKeepsOut(s, ',');
    forall k | k in StrValues(ks) ensures k.PyStr? && k.s != [] && Text.Strip(k.s) == k.s && ',' !in k.s {
      var i :| 0 <= i < |ks| && StrValues(ks)[i] == k;
      assert ks[i] in ks;
    }
  }

  // ---------------------------------------------------------------------
  // Paginated legislation response

  /** The LegislationListResponse dict: count, items and page_info. */
  datatype ListResponse = ListResponse(count: int, items: seq<Value>, total: int, limit: int, offset: int, hasMore: bool)

  /** The response body for a page of items out of total. */
  function ListResponseOf(total: int, items: seq<Value>, limit: int, offset: int): (r: ListResponse)
    ensures r.count == |r.items| && r.items == items && r.total == total
    ensures r.hasMore <==> offset + |items| < total
  {
    ListResponse(|items|, items, total, limit, offset, offset + |items| < total)
  }

  /**
   * When the page holds every row it can (limit of them, or all that are
   * left), has_more says whether rows lie past the page.
   */
  lemma {:induction false} HasMoreIffRowsPastPage(total: int, items: seq<Value>, limit: int, offset: int)
    requires 0 <= offset && 0 <= limit
    requires |items| == if offset + limit <= total then limit else if offset <= total then total - offset else 0
    ensures ListResponseOf(total, items, limit, offset).hasMore <==> offset + limit < total
  {
  }

  /**
   * On a full, page-aligned page the response has more rows exactly when
   * the Link header carries a next link.
   */
  lemma {:induction false} HasMoreIffNextLink(total: int, items: seq<Value>, limit: int, q: nat)
    requires 1 <= limit
    requires |items| == if q * limit + limit <= total then limit else if q * limit <= total then total - q * limit else 0
    ensures ListResponseOf(total, items, limit, q * limit).hasMore <==> NextOffset(total, limit, q * limit).Some?
  {
    HasMoreIffRowsPastPage(total, items, limit, q * limit);
    AlignedNextIffMore(total, limit, q);
    assert q * limit + limit == (q + 1) * limit;
  }

  /**
   * get_paginated_legislation_response: `filters or {}`, the count and the
   * page from the two query callables, then the pagination headers.
   */
  method GetPaginatedLegislationResponse(response: Response, url: string, queryParams: seq<(string, string)>,
                                         countMethod: Value -> int, getMethod: (int, int, Value) -> seq<Value>,
                                         limit: int, offset: int, filters: Value) returns (r: ListResponse)
    modifies response
    ensures var f := if Truthy(filters) then filters else PyDict([]);
            r == ListResponseOf(countMethod(f), getMethod(limit, offset, f), limit, offset)
    ensures response.headers == PaginationHeaders(old(response.headers), url, queryParams, r.total, limit, offset)
  {
    var f := if Truthy(filters) then filters else PyDict([]);
    var totalCount := countMethod(f);
    var legislation := getMethod(limit, offset, f);
    AddPaginationHeaders(response, url, queryParams, totalCount, limit, offset);
    r := ListResponse(|legislation|, legislation, totalCount, limit, offset, offset + |legislation| < totalCount);
  }
}
