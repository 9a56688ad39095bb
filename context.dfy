/**
 * The operation context: the per-request working state built from the incoming
 * request (pagination), filled in by processing (errors, output, status, total count,
 * events), and finally serialized into the response.
 */
module Contexts {
  import opened Elemental

  const DefaultPage: nat := 1
  const DefaultPageSize: nat := 100

  /** The pagination cursor: the page asked for and the page size. */
  datatype Page = Page(current: nat, size: nat) {
    predicate Valid() {
      current >= 1 && size >= 1
    }
  }

  /** The page numbers the first/prev/next/last links point to. */
  datatype PageNumbers = PageNumbers(first: nat, prev: nat, next: nat, last: nat)

  /** The four pagination links of a response. */
  datatype PageLinks = PageLinks(first: string, prev: string, next: string, last: string)

  /** What the processing produced: nothing, one object, or a list in order. */
  datatype Output = NoOutput | Single(item: Value) | Many(items: seq<Value>) {
    predicate Encodable() {
      match this
      case NoOutput => true
      case Single(v) => v.Encodable()
      case Many(vs) => forall i :: 0 <= i < |vs| ==> vs[i].Encodable()
    }
  }

  /** The body of a response: either the list of errors or the output. */
  datatype Body = ErrorList(errors: seq<Error>) | OutputBody(output: Output)

  /** A response as written: status, optional pagination links, body. */
  datatype Written = Written(status: nat, links: Option<PageLinks>, body: Body)

  // Pagination.

  function BadPagination(parameter: string): (e: Error)
    ensures e.code == StatusBadRequest && e.title == "Bad Request"
  {
    NewError("Bad Request", "Invalid pagination parameter " + parameter, "bahamut", StatusBadRequest)
  }

  /**
   * One pagination parameter: missing gives the default; present, it must be a
   * positive decimal number.
   */
  function ReadParameter(query: map<string, string>, key: string, default: nat): (r: Result<nat, Error>)
    requires default >= 1
    ensures key !in query ==> r == Success(default)
    ensures key in query ==>
      (r.Success? <==> ParseNat(query[key]).Some? && ParseNat(query[key]).value >= 1)
    ensures key in query && r.Success? ==> Some(r.value) == ParseNat(query[key])
    ensures r.Success? ==> r.value >= 1
    ensures r.Failure? ==> r.error == BadPagination(key)
  {
    if key !in query then Success(default)
    else match ParseNat(query[key])
      case Some(n) => if n >= 1 then Success(n) else Failure(BadPagination(key))
      case None => Failure(BadPagination(key))
  }

  /** Reads `page` and `per_page` from the query parameters, defaulting to page 1 of size 100. */
  function ReadPage(query: map<string, string>): (r: Result<Page, Error>)
    ensures r.Success? ==> r.value.Valid()
    ensures r.Success? <==> ReadParameter(query, "page", DefaultPage).Success?
                             && ReadParameter(query, "per_page", DefaultPageSize).Success?
    ensures r.Success? && "page" !in query ==> r.value.current == DefaultPage
    ensures r.Success? && "per_page" !in query ==> r.value.size == DefaultPageSize
    ensures r.Success? ==> r.value == Page(ReadParameter(query, "page", DefaultPage).value,
                                           ReadParameter(query, "per_page", DefaultPageSize).value)
    ensures r.Failure? ==> r.error.code == StatusBadRequest
  {
    match ReadParameter(query, "page", DefaultPage)
    case Failure(e) => Failure(e)
    case Success(current) =>
      match ReadParameter(query, "per_page", DefaultPageSize)
      case Failure(e) => Failure(e)
      case Success(size) => Success(Page(current, size))
  }

  /** The query that points at a page with a given size. */
  function PageQuery(page: nat, size: nat): map<string, string> {
    map["page" := NatToString(page), "per_page" := NatToString(size)]
  }

  /** Reading back the query of a page gives that page. */
  lemma PageQueryRoundTrip(p: Page)
    requires p.Valid()
    ensures ReadPage(PageQuery(p.current, p.size)) == Success(p)
  {
    ParseNatToString(p.current);
    ParseNatToString(p.size);
  }

  /** The number of pages needed for `total` items, at least one. */
  function LastPage(size: nat, total: nat): (last: nat)
    requires size >= 1
    ensures last >= 1
    ensures total <= last * size
    ensures last == 1 || (last - 1) * size < total
  {
    if total == 0 then 1
    else
      var last := (total + size - 1) / size;
      DivisionBounds(total + size - 1, size);
      last
  }

  lemma DivisionBounds(a: nat, b: nat)
    requires b >= 1
    ensures (a / b) * b <= a < (a / b) * b + b
  {
  }

  /**
   * The pages the links point to: first and last are 1 and the last page; prev steps
   * back one page, held at 1; next steps forward one page, held at the last page.
   */
  function Numbers(p: Page, total: nat): (n: PageNumbers)
    requires p.Valid()
    ensures n.first == 1 && n.last == LastPage(p.size, total)
    ensures n.prev == if p.current > 1 then p.current - 1 else 1
    ensures n.next == if p.current < n.last then p.current + 1 else n.last
    ensures 1 <= n.prev <= p.current && n.next <= n.last
    ensures p.current <= n.last ==> n.first <= n.prev <= p.current <= n.next <= n.last
  {
    var last := LastPage(p.size, total);
    PageNumbers(
      1,
      if p.current > 1 then p.current - 1 else 1,
      if p.current < last then p.current + 1 else last,
      last)
  }

  /** The link to a page: the request URL with the page and the page size in its query. */
  function PageURL(base: string, page: nat, size: nat): (url: string)
    ensures |url| > |base| && url[..|base|] == base
  {
    base + "?page=" + NatToString(page) + "&per_page=" + NatToString(size)
  }

  function Links(base: string, p: Page, total: nat): (l: PageLinks)
    requires p.Valid()
  {
    var n := Numbers(p, total);
    PageLinks(
      PageURL(base, n.first, p.size), PageURL(base, n.prev, p.size),
      PageURL(base, n.next, p.size), PageURL(base, n.last, p.size))
  }

  /** Page 2 of size 10 out of 40 items links to pages 1, 1, 3 and 4. */
  lemma PaginationExample()
    ensures Numbers(Page(2, 10), 40) == PageNumbers(1, 1, 3, 4)
  {
    assert LastPage(10, 40) == 4;
  }

  lemma SmallNumbersText()
    ensures NatToString(1) == "1" && NatToString(3) == "3" && NatToString(4) == "4"
    ensures NatToString(10) == "10"
  {
    assert NatToString(10) == NatToString(1) + [DigitChar(0)];
  }

  /** Each of those links keeps the page size in its query. */
  lemma PaginationLinksExample(base: string)
    ensures Links(base, Page(2, 10), 40) == PageLinks(
      base + "?page=1&per_page=10", base + "?page=1&per_page=10",
      base + "?page=3&per_page=10", base + "?page=4&per_page=10")
  {
    PaginationExample();
    SmallNumbersText();
  }

  // Responses.

  /**
   * The response of a context: the errors when there are any, otherwise the output;
   * the status set on the context, or 200 when none was set; encoding the chosen body
   * can fail, and then nothing is written.
   */
  function Render(base: string, statusCode: nat, errors: seq<Error>, output: Output, page: Page, total: nat)
    : (r: Result<Written, string>)
    requires page.Valid()
    ensures r.Success? <==>
      (if errors != [] then forall i :: 0 <= i < |errors| ==> errors[i].Encodable() else output.Encodable())
    ensures r.Success? ==> r.value.status == (if statusCode == 0 then StatusOK else statusCode)
    ensures r.Success? && errors != [] ==> r.value.body == ErrorList(errors)
    ensures r.Success? && errors == [] ==> r.value.body == OutputBody(output)
    ensures r.Success? ==> r.value.links == Some(Links(base, page, total))
  {
    var status := if statusCode == 0 then StatusOK else statusCode;
    if errors != [] then
      if forall i :: 0 <= i < |errors| ==> errors[i].Encodable() then
        Success(Written(status, Some(Links(base, page, total)), ErrorList(errors)))
      else Failure("unable to encode the errors")
    else if output.Encodable() then
      Success(Written(status, Some(Links(base, page, total)), OutputBody(output)))
    else Failure("unable to encode the output")
  }

  /** An error written on its own, with the status given. */
  function WriteHTTPError(status: nat, e: Error): (w: Written)
    ensures w.status == status && w.body == ErrorList([e]) && w.links == None
  {
    Written(status, None, ErrorList([e]))
  }

  class Context {
    const operation: Operation
    var page: Page
    var countTotal: nat
    var errors: seq<Error>
    var output: Output
    /** The status to answer with; 0 when none was set. */
    var statusCode: nat
    var eventsQueue: seq<Event>
    /** The query parameters of the request, as given. */
    var parameters: map<string, string>

    ghost predicate Valid()
      reads this
    {
      page.Valid()
    }

    constructor (op: Operation)
      ensures Valid()
      ensures operation == op && page == Page(DefaultPage, DefaultPageSize)
      ensures countTotal == 0 && errors == [] && output == NoOutput && statusCode == 0 && eventsQueue == []
      ensures parameters == map[]
    {
      operation := op;
      page := Page(DefaultPage, DefaultPageSize);
      countTotal := 0;
      errors := [];
      output := NoOutput;
      statusCode := 0;
      eventsQueue := [];
      parameters := map[];
    }

    /**
     * Keeps the query parameters of the request and reads its pagination; a malformed
     * pagination parameter leaves the page as it was.
     */
    method ReadRequest(query: map<string, string>) returns (err: Option<Error>)
      requires Valid()
      modifies this
      ensures Valid()
      ensures ReadPage(query).Success? ==> err == None && page == ReadPage(query).value
      ensures ReadPage(query).Failure? ==> err == Some(ReadPage(query).error) && page == old(page)
      ensures countTotal == old(countTotal) && errors == old(errors) && output == old(output)
      ensures statusCode == old(statusCode) && eventsQueue == old(eventsQueue)
      ensures parameters == query
    {
      parameters := query;
      match ReadPage(query)
      case Success(p) =>
        page := p;
        err := None;
      case Failure(e) =>
        err := Some(e);
    }

    /** Appends errors, in order; processing goes on. */
    method AddErrors(errs: seq<Error>)
      modifies this`errors
      ensures errors == old(errors) + errs
    {
      errors := errors + errs;
    }

    predicate HasErrors()
      reads this
    {
      errors != []
    }

    /** Appends events to the queue, in call order. */
    method EnqueueEvents(events: seq<Event>)
      modifies this`eventsQueue
      ensures eventsQueue == old(eventsQueue) + events
    {
      eventsQueue := eventsQueue + events;
    }

    /** Serializes the context; the base is the request URL without its query. */
    method WriteResponse(base: string) returns (r: Result<Written, string>)
      requires Valid()
      ensures r == Render(base, statusCode, errors, output, page, countTotal)
    {
      r := Render(base, statusCode, errors, output, page, countTotal);
    }
  }

  /** A fresh context has no error; after one error is added, it has. */
  method ErrorsScenario() returns (before: bool, after: bool)
    ensures !before && after
  {
    var c := new Context(RetrieveMany);
    before := c.HasErrors();
    c.AddErrors([NewError("title", "description", "subject", 42)]);
    after := c.HasErrors();
  }

  /** Enqueueing two events leaves two events in the queue. */
  method EnqueueScenario(e1: Event, e2: Event) returns (queued: nat)
    ensures queued == 2
  {
    var c := new Context(RetrieveMany);
    c.EnqueueEvents([e1, e2]);
    queued := |c.eventsQueue|;
  }

  /** `page=1&per_page=10` reads as page 1 of size 10; no parameters read as page 1 of size 100. */
  method ReadRequestScenario() returns (given: Page, givenParameters: map<string, string>, defaulted: Page)
    ensures given == Page(1, 10) && defaulted == Page(1, 100)
    ensures givenParameters == map["page" := "1", "per_page" := "10"]
  {
    var c := new Context(RetrieveMany);
    var err := c.ReadRequest(map["page" := "1", "per_page" := "10"]);
    given := c.page;
    givenParameters := c.parameters;
    var d := new Context(RetrieveMany);
    err := d.ReadRequest(map[]);
    defaulted := d.page;
  }

  /** A context with two entities as output and no error answers 200 with the entities in order. */
  method WriteOutputScenario() returns (w: Result<Written, string>)
    ensures w.Success? && w.value.status == 200
    ensures w.value.body == OutputBody(Many([Json("{\"name\":\"e1\"}"), Json("{\"name\":\"e2\"}")]))
  {
    var c := new Context(RetrieveMany);
    c.countTotal := 40;
    c.output := Many([Json("{\"name\":\"e1\"}"), Json("{\"name\":\"e2\"}")]);
    w := c.WriteResponse("http://link.com/path");
  }

  /** With an error added and the status set to 404, the response is 404 with the error list. */
  method WriteErrorsScenario() returns (w: Result<Written, string>)
    ensures w.Success? && w.value.status == 404
    ensures w.value.body == ErrorList([NewError("error", "description", "subject", 42)])
  {
    var c := new Context(RetrieveMany);
    c.output := Many([Json("{\"name\":\"e1\"}")]);
    c.AddErrors([NewError("error", "description", "subject", 42)]);
    c.statusCode := 404;
    w := c.WriteResponse("http://link.com/path");
  }

  /** An error whose data cannot be encoded, or output that cannot, makes writing fail. */
  method WriteUnencodableScenario() returns (badError: Result<Written, string>, badOutput: Result<Written, string>)
    ensures badError.Failure? && badOutput.Failure?
  {
    var c := new Context(RetrieveMany);
    c.AddErrors([Error("error", "description", "subject", 42, Some(Unmarshalable))]);
    assert !c.errors[0].Encodable();
    badError := c.WriteResponse("http://link.com/path");
    var d := new Context(RetrieveMany);
    d.output := Single(Unmarshalable);
    badOutput := d.WriteResponse("http://link.com/path");
  }
}
