/**
  The two paged fetch loops of the API client. The HTTP client is a response
  oracle: a function from a request URI to the response it gets (status code
  and, when the body is JSON, the parts of it the loops read). Each loop also
  returns, as a ghost value, the URIs it requested, in order.
 */
module Api {
  import opened Wrappers
  import opened Text
  import opened Records

  /**
    The parts of a JSON response body the client reads; each is None when the
    body lacks it: `page.total_pages`, `_embedded.applications`,
    `_embedded.findings` and `_links.findings.href`.
   */
  datatype Body = Body(
    totalPages: Option<int>,
    applications: Option<seq<RawApp>>,
    findings: Option<seq<RawFinding>>,
    findingsHref: Option<string>)

  /** A response: its status code, and its body when that is JSON. */
  datatype Response = Response(status: int, body: Option<Body>)

  /** `response.ok`: the status is not a client or server error. */
  predicate IsOk(resp: Response) {
    !(400 <= resp.status < 600)
  }

  /** `page_data.get('page', {}).get('total_pages', 0)`. */
  function PageCount(b: Body): int {
    b.totalPages.GetOr(0)
  }

  function AppsOf(b: Body): seq<RawApp> {
    b.applications.GetOr([])
  }

  function FindingsOf(b: Body): seq<RawFinding> {
    b.findings.GetOr([])
  }

  /**
    No response announces more than `bound` pages. The loops terminate only
    under such a bound; it is a ghost parameter of the model.
   */
  ghost predicate PagesBounded(http: string -> Response, bound: nat) {
    forall u :: http(u).body.Some? ==> PageCount(http(u).body.value) <= bound
  }

  const BaseUri: string := "https://api.veracode.com/appsec/v1/applications"

  /** `base_uri + "?page={}"` filled with the page number. */
  function AppsUri(page: nat): string {
    BaseUri + "?page=" + NatToString(page)
  }

  /** The application-detail resource, `base_uri + "/{}"` filled with the GUID. */
  function DetailUri(guid: string): string {
    BaseUri + "/" + guid
  }

  /** The findings link followed by the date filters that are given, found-after first. */
  function FilteredUri(href: string, foundAfter: Option<string>, modifiedAfter: Option<string>): (u: string)
    ensures !Given(foundAfter) && !Given(modifiedAfter) ==> u == href
    ensures Given(foundAfter) && !Given(modifiedAfter) ==> u == href + "&found_after=" + foundAfter.value
    ensures !Given(foundAfter) && Given(modifiedAfter) ==> u == href + "&modified_after=" + modifiedAfter.value
    ensures Given(foundAfter) && Given(modifiedAfter) ==>
      u == href + "&found_after=" + foundAfter.value + "&modified_after=" + modifiedAfter.value
  {
    var u := if Given(foundAfter) then href + "&found_after=" + foundAfter.value else href;
    if Given(modifiedAfter) then u + "&modified_after=" + modifiedAfter.value else u
  }

  const PageParam: string := "&page="

  /** The findings URI after the first page: `&page={}` appended unless the URI already has a page parameter. */
  function Template(base: string): string {
    if Contains(base, PageParam) then base else base + PageParam + "{}"
  }

  /** `template.format(page)`, for a template whose only replacement field is a trailing `{}`. */
  function FillPage(template: string, page: nat): string {
    if |template| >= 2 && template[|template| - 2..] == "{}" then template[..|template| - 2] + NatToString(page)
    else template
  }

  /** Which collection a walk pages through; the findings walk starts from its filtered base URI. */
  datatype Pager = AppsPager | FindingsPager(base: string)

  /** The URI requested for page `page`. */
  function UriOf(pager: Pager, page: nat): string {
    match pager
    case AppsPager => AppsUri(page)
    case FindingsPager(base) => if page == 0 then base else FillPage(Template(base), page)
  }

  /** Only the findings walk lets a 404 response through. */
  predicate Tolerates404(pager: Pager) {
    pager.FindingsPager?
  }

  /** What one page contributes: its items and its page total, or the error it raises. */
  function ReadPage<T>(resp: Response, itemsOf: Body -> seq<T>, pager: Pager): Result<(seq<T>, int), Error> {
    if !IsOk(resp) && !(Tolerates404(pager) && resp.status == 404) then Err(HttpStatus(resp.status))
    else if resp.body.None? then Err(BadJson)
    else Ok((itemsOf(resp.body.value), PageCount(resp.body.value)))
  }

  /**
    A page fails on an error status (a 404 lets a findings page through) and
    then with that status, or on a body that is not JSON; otherwise it yields
    its items and its total.
   */
  lemma ReadPageMeaning<T>(resp: Response, itemsOf: Body -> seq<T>, pager: Pager)
    ensures var r := ReadPage(resp, itemsOf, pager);
      (r.Err? <==> (!IsOk(resp) && !(Tolerates404(pager) && resp.status == 404)) || resp.body.None?) &&
      (r.Err? && !IsOk(resp) && !(Tolerates404(pager) && resp.status == 404) ==> r.error == HttpStatus(resp.status)) &&
      (r.Err? && (IsOk(resp) || (Tolerates404(pager) && resp.status == 404)) ==> r.error == BadJson) &&
      (r.Ok? ==> r.value == (itemsOf(resp.body.value), PageCount(resp.body.value)))
  {
  }

  /** After reading page `p`, the walk goes on: the page was read and `p + 1 < total_pages`. */
  predicate Continues<T>(read: Result<(seq<T>, int), Error>, p: nat) {
    read.Ok? && p + 1 < read.value.1
  }

  /** The outcome of a walk and the URIs it requested, in order. */
  datatype Fetch<T> = Fetch(result: Result<seq<T>, Error>, requests: seq<string>)

  /** The items of the `count` pages from `page` on, concatenated in page order. */
  function Items<T>(http: string -> Response, itemsOf: Body -> seq<T>, pager: Pager, page: nat, count: nat): seq<T>
    decreases count
  {
    if count == 0 then []
    else
      var read := ReadPage(http(UriOf(pager, page)), itemsOf, pager);
      (if read.Ok? then read.value.0 else []) + Items(http, itemsOf, pager, page + 1, count - 1)
  }

  /** A walk continued after `done` items were collected by the requests `asked`. */
  function Then<T>(done: seq<T>, asked: seq<string>, w: Fetch<T>): Fetch<T> {
    Fetch(if w.result.Ok? then Ok(done + w.result.value) else w.result, asked + w.requests)
  }

  /**
    The page walk from page `page` on: request the page, stop on an error or
    when `page + 1` reaches its total, otherwise go on with the next page.
   */
  function Walk<T>(http: string -> Response, itemsOf: Body -> seq<T>, pager: Pager, bound: nat, page: nat): (w: Fetch<T>)
    requires PagesBounded(http, bound)
    decreases bound - page
  {
    var uri := UriOf(pager, page);
    var read := ReadPage(http(uri), itemsOf, pager);
    if read.Err? then Fetch(Err(read.error), [uri])
    else if Continues(read, page) then Then(read.value.0, [uri], Walk(http, itemsOf, pager, bound, page + 1))
    else Fetch(Ok(read.value.0), [uri])
  }

  /** The URIs of the `count` pages from `page` on, in page order. */
  function PageUris(pager: Pager, page: nat, count: nat): seq<string>
    decreases count
  {
    if count == 0 then [] else [UriOf(pager, page)] + PageUris(pager, page + 1, count - 1)
  }

  /** The walk requests pages `page`, `page + 1`, … in turn, at least one. */
  lemma {:induction false} WalkRequests<T>(http: string -> Response, itemsOf: Body -> seq<T>, pager: Pager,
                                           bound: nat, page: nat)
    requires PagesBounded(http, bound)
    decreases bound - page
    ensures var w := Walk(http, itemsOf, pager, bound, page);
      1 <= |w.requests| && w.requests == PageUris(pager, page, |w.requests|)
  {
    var read := ReadPage(http(UriOf(pager, page)), itemsOf, pager);
    if read.Ok? && Continues(read, page) {
      WalkRequests(http, itemsOf, pager, bound, page + 1);
    }
  }

  /** The walk goes on after every page it requests but the last. */
  lemma {:induction false} WalkContinues<T>(http: string -> Response, itemsOf: Body -> seq<T>, pager: Pager,
                                            bound: nat, page: nat)
    requires PagesBounded(http, bound)
    decreases bound - page
    ensures var w := Walk(http, itemsOf, pager, bound, page);
      forall p :: page <= p < page + |w.requests| - 1 ==> Continues(ReadPage(http(UriOf(pager, p)), itemsOf, pager), p)
  {
    var read := ReadPage(http(UriOf(pager, page)), itemsOf, pager);
    if read.Ok? && Continues(read, page) {
      WalkContinues(http, itemsOf, pager, bound, page + 1);
    }
  }

  /**
    The last page the walk requests is the first that fails or does not
    continue, and the walk fails exactly when it fails, with its error.
   */
  lemma {:induction false} WalkStops<T>(http: string -> Response, itemsOf: Body -> seq<T>, pager: Pager,
                                        bound: nat, page: nat)
    requires PagesBounded(http, bound)
    decreases bound - page
    ensures var w := Walk(http, itemsOf, pager, bound, page);
      |w.requests| >= 1 &&
      var last := page + |w.requests| - 1;
      var read := ReadPage(http(UriOf(pager, last)), itemsOf, pager);
      !Continues(read, last) && (w.result.Err? <==> read.Err?) && (read.Err? ==> w.result.error == read.error)
  {
    var read := ReadPage(http(UriOf(pager, page)), itemsOf, pager);
    if read.Ok? && Continues(read, page) {
      WalkStops(http, itemsOf, pager, bound, page + 1);
    }
  }

  /** A walk that succeeds yields the items of every page it requested, in page order. */
  lemma {:induction false} WalkItems<T>(http: string -> Response, itemsOf: Body -> seq<T>, pager: Pager,
                                        bound: nat, page: nat)
    requires PagesBounded(http, bound)
    decreases bound - page
    ensures var w := Walk(http, itemsOf, pager, bound, page);
      w.result.Ok? ==> w.result.value == Items(http, itemsOf, pager, page, |w.requests|)
  {
    var read := ReadPage(http(UriOf(pager, page)), itemsOf, pager);
    if read.Ok? && Continues(read, page) {
      WalkItems(http, itemsOf, pager, bound, page + 1);
    }
  }

  /**
    When every page reports the same total `total`, the walk from page `page`
    makes exactly `total - page` requests and yields the items of those pages.
   */
  lemma {:induction false} ConstantTotal<T>(http: string -> Response, itemsOf: Body -> seq<T>, pager: Pager,
                                            bound: nat, page: nat, total: nat)
    requires PagesBounded(http, bound)
    requires page < total
    requires forall p :: page <= p < total ==>
      ReadPage(http(UriOf(pager, p)), itemsOf, pager).Ok? && ReadPage(http(UriOf(pager, p)), itemsOf, pager).value.1 == total
    decreases total - page
    ensures var w := Walk(http, itemsOf, pager, bound, page);
      |w.requests| == total - page && w.result == Ok(Items(http, itemsOf, pager, page, total - page))
  {
    var read := ReadPage(http(UriOf(pager, page)), itemsOf, pager);
    assert read.Ok? && read.value.1 == total;
    assert Items(http, itemsOf, pager, page, total - page) ==
      read.value.0 + Items(http, itemsOf, pager, page + 1, total - page - 1);
    if page + 1 < total {
      ConstantTotal(http, itemsOf, pager, bound, page + 1, total);
      assert Walk(http, itemsOf, pager, bound, page) ==
        Then(read.value.0, [UriOf(pager, page)], Walk(http, itemsOf, pager, bound, page + 1));
    } else {
      assert read.value.0 + [] == read.value.0;
    }
  }

  /** A page without `page.total_pages` ends the walk: one request, that page's items. */
  lemma MissingTotal<T>(http: string -> Response, itemsOf: Body -> seq<T>, pager: Pager, bound: nat, page: nat)
    requires PagesBounded(http, bound)
    requires IsOk(http(UriOf(pager, page))) && http(UriOf(pager, page)).body.Some?
    requires http(UriOf(pager, page)).body.value.totalPages.None?
    ensures Walk(http, itemsOf, pager, bound, page) ==
      Fetch(Ok(itemsOf(http(UriOf(pager, page)).body.value)), [UriOf(pager, page)])
  {
  }

  /** A 404 findings page is read like any other; the applications walk raises on it. */
  lemma NotFoundPage<T>(b: Body, itemsOf: Body -> seq<T>, base: string)
    ensures ReadPage(Response(404, Some(b)), itemsOf, FindingsPager(base)) == Ok((itemsOf(b), PageCount(b)))
    ensures ReadPage(Response(404, Some(b)), itemsOf, AppsPager) == Err(HttpStatus(404))
  {
  }

  /** Without a page parameter in the base URI, page `p > 0` is requested with `&page=p` appended once. */
  lemma PageParamAppended(base: string, p: nat)
    requires !Contains(base, PageParam) && p > 0
    ensures UriOf(FindingsPager(base), p) == base + PageParam + NatToString(p)
  {
    var t := base + PageParam + "{}";
    assert t[|t| - 2..] == "{}";
    assert t[..|t| - 2] == base + PageParam;
  }

  /** A base URI that already has a page parameter (and no trailing `{}`) is requested unchanged on every page. */
  lemma PageParamPresent(base: string, p: nat)
    requires Contains(base, PageParam)
    requires !(|base| >= 2 && base[|base| - 2..] == "{}")
    ensures UriOf(FindingsPager(base), p) == base
  {
  }

  lemma ThenThen<T>(done: seq<T>, asked: seq<string>, more: seq<T>, next: seq<string>, w: Fetch<T>)
    ensures Then(done, asked, Then(more, next, w)) == Then(done + more, asked + next, w)
  {
    assert asked + (next + w.requests) == asked + next + w.requests;
    if w.result.Ok? {
      assert done + (more + w.result.value) == done + more + w.result.value;
    }
  }

  lemma ThenNothing<T>(w: Fetch<T>)
    ensures Then([], [], w) == w
  {
    assert [] + w.requests == w.requests;
    if w.result.Ok? {
      assert [] + w.result.value == w.result.value;
    }
  }

  /** The applications walk. */
  function AppsFetch(http: string -> Response, bound: nat): Fetch<RawApp>
    requires PagesBounded(http, bound)
  {
    Walk(http, AppsOf, AppsPager, bound, 0)
  }

  /** `get_apps`: request pages 0, 1, … of the applications collection until `page >= total_pages`. */
  method GetApps(http: string -> Response, ghost bound: nat) returns (r: Result<seq<RawApp>, Error>, ghost requests: seq<string>)
    requires PagesBounded(http, bound)
    ensures r == AppsFetch(http, bound).result
    ensures requests == AppsFetch(http, bound).requests
  {
    var allApps: seq<RawApp> := [];
    var page: nat := 0;
    var morePages := true;
    requests := [];
    ThenNothing(AppsFetch(http, bound));
    while morePages
      invariant morePages ==> page <= bound
      invariant morePages ==> AppsFetch(http, bound) == Then(allApps, requests, Walk(http, AppsOf, AppsPager, bound, page))
      invariant !morePages ==> AppsFetch(http, bound) == Fetch(Ok(allApps), requests)
      decreases if morePages then bound + 1 - page else 0
    {
      var uri := AppsUri(page);
      var response := http(uri);
      ghost var before := requests;
      requests := requests + [uri];
      if !IsOk(response) {
        r := Err(HttpStatus(response.status));
        return;
      }
      if response.body.None? {
        r := Err(BadJson);
        return;
      }
      var pageData := response.body.value;
      var totalPages := PageCount(pageData);
      ghost var rest := Walk(http, AppsOf, AppsPager, bound, page + 1);
      ThenThen(allApps, before, AppsOf(pageData), [uri], rest);
      allApps := allApps + AppsOf(pageData);
      page := page + 1;
      morePages := page < totalPages;
    }
    r := Ok(allApps);
  }

  /** `get_findings`: the detail request, then the findings walk from the filtered link. */
  function FindingsFetch(http: string -> Response, guid: string, foundAfter: Option<string>,
                         modifiedAfter: Option<string>, bound: nat): Fetch<RawFinding>
    requires PagesBounded(http, bound)
  {
    var detail := http(DetailUri(guid));
    if !IsOk(detail) then Fetch(Err(HttpStatus(detail.status)), [DetailUri(guid)])
    else if detail.body.None? then Fetch(Err(BadJson), [DetailUri(guid)])
    else if detail.body.value.findingsHref.None? then Fetch(Err(MissingField("href")), [DetailUri(guid)])
    else
      var base := FilteredUri(detail.body.value.findingsHref.value, foundAfter, modifiedAfter);
      Then([], [DetailUri(guid)], Walk(http, FindingsOf, FindingsPager(base), bound, 0))
  }

  lemma TemplateHasPageParam(base: string)
    ensures Contains(Template(base), PageParam)
  {
    if !Contains(base, PageParam) {
      ContainsItself(PageParam);
      ContainsInConcat(base, PageParam, "{}", PageParam);
    }
  }

  method GetFindings(http: string -> Response, guid: string, foundAfter: Option<string>,
                     modifiedAfter: Option<string>, ghost bound: nat)
    returns (r: Result<seq<RawFinding>, Error>, ghost requests: seq<string>)
    requires PagesBounded(http, bound)
    ensures r == FindingsFetch(http, guid, foundAfter, modifiedAfter, bound).result
    ensures requests == FindingsFetch(http, guid, foundAfter, modifiedAfter, bound).requests
  {
    var uri := DetailUri(guid);
    var response := http(uri);
    requests := [uri];
    if !IsOk(response) {
      r := Err(HttpStatus(response.status));
      return;
    }
    if response.body.None? {
      r := Err(BadJson);
      return;
    }
    var pageData := response.body.value;
    if pageData.findingsHref.None? {
      r := Err(MissingField("href"));
      return;
    }
    var findingsUri := pageData.findingsHref.value;
    if Given(foundAfter) {
      findingsUri := findingsUri + "&found_after=" + foundAfter.value;
    }
    if Given(modifiedAfter) {
      findingsUri := findingsUri + "&modified_after=" + modifiedAfter.value;
    }
    var found, more := WalkFindings(http, findingsUri, bound);
    assert findingsUri == FilteredUri(pageData.findingsHref.value, foundAfter, modifiedAfter);
    requests := requests + more;
    r := found;
    if r.Ok? {
      assert [] + r.value == r.value;
    }
  }

  /** The paging loop of `get_findings`, from the filtered findings link `findingsUri`. */
  method WalkFindings(http: string -> Response, findingsUri: string, ghost bound: nat)
    returns (r: Result<seq<RawFinding>, Error>, ghost requests: seq<string>)
    requires PagesBounded(http, bound)
    ensures r == Walk(http, FindingsOf, FindingsPager(findingsUri), bound, 0).result
    ensures requests == Walk(http, FindingsOf, FindingsPager(findingsUri), bound, 0).requests
  {
    ghost var pager := FindingsPager(findingsUri);
    TemplateHasPageParam(pager.base);
    ghost var whole := Walk(http, FindingsOf, pager, bound, 0);
    var template := findingsUri;
    var allFindings: seq<RawFinding> := [];
    var page: nat := 0;
    var morePages := true;
    var uri := template;
    requests := [];
    ThenNothing(whole);
    while morePages
      invariant page == 0 ==> template == pager.base
      invariant page > 0 ==> template == Template(pager.base)
      invariant uri == UriOf(pager, page)
      invariant morePages ==> page <= bound
      invariant morePages ==> whole == Then(allFindings, requests, Walk(http, FindingsOf, pager, bound, page))
      invariant !morePages ==> whole == Fetch(Ok(allFindings), requests)
      decreases if morePages then bound + 1 - page else 0
    {
      var response := http(uri);
      ghost var before := requests;
      requests := requests + [uri];
      if !IsOk(response) && response.status != 404 {
        r := Err(HttpStatus(response.status));
        return;
      }
      if response.body.None? {
        r := Err(BadJson);
        return;
      }
      var pageData := response.body.value;
      var totalPages := PageCount(pageData);
      ghost var rest := Walk(http, FindingsOf, pager, bound, page + 1);
      ThenThen(allFindings, before, FindingsOf(pageData), [uri], rest);
      allFindings := allFindings + FindingsOf(pageData);
      page := page + 1;
      morePages := page < totalPages;
      if !Contains(template, PageParam) {
        template := template + PageParam + "{}";
      }
      uri := FillPage(template, page);
    }
    r := Ok(allFindings);
  }
}
