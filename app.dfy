/** The calculator front end: four operation pages (add, divide, multi,
    sub), each rendered blank on GET and, on POST, either rendered blank
    again or filled with the answer of the operation's back-end service.
    Templates, HTTP and the `requests` library are not modelled: a page is
    the template name and its context values, and what the back end
    answers is an input. */
module App {
  import opened Basics

  /** The four operations, one page and one back-end service each. */
  datatype Operation = Add | Divide | Multi | Sub

  /** The URL path of the operation's page. */
  function PathOf(op: Operation): string
  {
    match op
    case Add => "/add"
    case Divide => "/divide"
    case Multi => "/multi"
    case Sub => "/sub"
  }

  /** The environment variable naming the operation's back-end URL. */
  function EndpointVar(op: Operation): string
  {
    match op
    case Add => "ADD_URL_ENDPOINT"
    case Divide => "DIVIDE_URL_ENDPOINT"
    case Multi => "MULTI_URL_ENDPOINT"
    case Sub => "SUB_URL_ENDPOINT"
  }

  /** The template of the operation's page. */
  function Template(op: Operation): string
  {
    match op
    case Add => "add.html"
    case Divide => "divide.html"
    case Multi => "multi.html"
    case Sub => "sub.html"
  }

  /** The back-end URL of an operation, read once from the environment the
      module is imported in; `None` when the variable is unset. */
  function Endpoint(importEnv: Environ, op: Operation): (r: Option<string>)
    ensures r.Some? <==> EndpointVar(op) in importEnv
    ensures r.Some? ==> r.value == importEnv[EndpointVar(op)]
  {
    Lookup(importEnv, EndpointVar(op))
  }

  /** The operation whose page is served at `path`, if any. */
  function Route(path: string): (r: Option<Operation>)
    ensures r.Some? ==> PathOf(r.value) == path
    ensures r.None? ==> forall op :: PathOf(op) != path
  {
    if path == "/add" then Some(Add)
    else if path == "/divide" then Some(Divide)
    else if path == "/multi" then Some(Multi)
    else if path == "/sub" then Some(Sub)
    else None
  }

  /** Every operation has a path, a variable and a template of its own, and
      its path leads back to it. */
  lemma RouteTable(op1: Operation, op2: Operation)
    ensures Route(PathOf(op1)) == Some(op1)
    ensures op1 != op2 ==> PathOf(op1) != PathOf(op2)
    ensures op1 != op2 ==> EndpointVar(op1) != EndpointVar(op2)
    ensures op1 != op2 ==> Template(op1) != Template(op2)
  {
  }

  /** The query parameters sent to a back end. */
  datatype Params = Params(firstNumber: int, secondNumber: int)

  /** One `requests.get` invocation: the URL (`None` when the endpoint
      variable is unset) and the parameters. */
  datatype Call = Call(url: Option<string>, params: Params)

  /** What a call to a back end gives: a response with a status code and a
      body text, or an exception (connection failure, timeout, ...). */
  datatype Reply = Answered(status: int, text: string) | Failed

  /** A rendered page: its template and the `show` and `answer` values of
      its context (`None` where the context has no such key). */
  datatype Page = Page(template: string, show: Option<int>, answer: Option<string>)

  /** What a handler returns: a rendered page, or the server error FastAPI
      answers with when the handler raises. */
  datatype Response = Rendered(page: Page) | InternalError

  /** A handler's response and the back-end calls it made, in order. */
  datatype Handled = Handled(response: Response, calls: seq<Call>)

  /** Python falsiness of an optional form integer: absent or zero. */
  predicate Falsy(x: Option<int>)
  {
    x.None? || x.value == 0
  }

  /** `GET /`: the index page, without `show` or `answer`. */
  function Index(): (r: Page)
    ensures r.show.None? && r.answer.None?
    ensures forall op :: r.template != Template(op)
  {
    Page("index.html", None, None)
  }

  /** `GET` on an operation's page: blank, with no answer. */
  function Blank(op: Operation): (r: Page)
    ensures r.template == Template(op)
    ensures r.show == Some(0) && r.answer.None?
  {
    Page(Template(op), Some(0), None)
  }

  /** The reply a call gets: `requests.get(None, ...)` raises before
      anything is sent; otherwise the back end decides. */
  function ReplyTo(c: Call, fetch: Call -> Reply): (r: Reply)
    ensures c.url.None? ==> r.Failed?
    ensures c.url.Some? ==> r == fetch(c)
  {
    if c.url.None? then Failed else fetch(c)
  }

  /** `POST` on an operation's page with the two form fields. When either
      operand is falsy (absent or zero) the blank page is rendered and no
      call is made. Otherwise the operation's endpoint is called exactly
      once with both operands; an answer of any status is rendered with
      `show` 1 and its body text as `answer`, and a call that raises makes
      the handler raise. */
  function Post(op: Operation, endpoint: Option<string>, first: Option<int>, second: Option<int>,
                fetch: Call -> Reply): (r: Handled)
    ensures r.calls == [] <==> Falsy(first) || Falsy(second)
    ensures r.calls == [] ==> r.response == Rendered(Blank(op))
    ensures r.calls != [] ==>
              r.calls == [Call(endpoint, Params(first.value, second.value))]
    ensures r.response.InternalError? <==> r.calls != [] && ReplyTo(r.calls[0], fetch).Failed?
    ensures r.calls != [] && r.response.Rendered? ==>
              r.response.page == Page(Template(op), Some(1), Some(ReplyTo(r.calls[0], fetch).text))
  {
    if Falsy(first) || Falsy(second) then
      Handled(Rendered(Page(Template(op), Some(0), None)), [])
    else
      var call := Call(endpoint, Params(first.value, second.value));
      var reply := if endpoint.None? then Failed else fetch(call);
      match reply
      case Answered(_, text) => Handled(Rendered(Page(Template(op), Some(1), Some(text))), [call])
      case Failed => Handled(InternalError, [call])
  }

  /** A request to the front end. */
  datatype Request = GetPage(path: string) | PostForm(path: string, first: Option<int>, second: Option<int>)

  /** The handler FastAPI runs for a request, with the endpoints read from
      the import-time environment; `None` where no handler matches (FastAPI
      then answers 404 or 405 itself). */
  function Serve(importEnv: Environ, req: Request, fetch: Call -> Reply): (r: Option<Handled>)
    ensures req.GetPage? && req.path == "/" ==> r == Some(Handled(Rendered(Index()), []))
    ensures req.path != "/" && Route(req.path).None? ==> r.None?
    ensures req.GetPage? && Route(req.path).Some? ==>
              r == Some(Handled(Rendered(Blank(Route(req.path).value)), []))
    ensures req.PostForm? && Route(req.path).Some? ==>
              var op := Route(req.path).value;
              r == Some(Post(op, Endpoint(importEnv, op), req.first, req.second, fetch))
  {
    match req
    case GetPage(path) =>
      if path == "/" then Some(Handled(Rendered(Index()), []))
      else if Route(path).Some? then Some(Handled(Rendered(Blank(Route(path).value)), []))
      else None
    case PostForm(path, first, second) =>
      if Route(path).Some? then
        var op := Route(path).value;
        Some(Post(op, Lookup(importEnv, EndpointVar(op)), first, second, fetch))
      else None
  }

  // ---------------------------------------------------------------------
  // Properties

  /** The guard is a truthiness test: an operand of 0 is handled exactly as
      a missing one, whichever side it is on. */
  lemma ZeroIsMissing(op: Operation, endpoint: Option<string>, x: Option<int>, fetch: Call -> Reply)
    ensures Post(op, endpoint, Some(0), x, fetch) == Post(op, endpoint, None, x, fetch)
    ensures Post(op, endpoint, x, Some(0), fetch) == Post(op, endpoint, x, None, fetch)
  {
  }

  /** Dividing by zero never reaches the divide service: the blank divide
      page comes back, whatever the service would have answered. */
  lemma DivideByZeroNotForwarded(importEnv: Environ, a: Option<int>, fetch: Call -> Reply)
    ensures Serve(importEnv, PostForm("/divide", a, Some(0)), fetch)
         == Some(Handled(Rendered(Page("divide.html", Some(0), None)), []))
  {
  }

  /** Posting an empty form renders the blank page with status 200 and calls
      nothing. */
  lemma EmptyFormRendersBlank(importEnv: Environ, op: Operation, fetch: Call -> Reply)
    ensures Serve(importEnv, PostForm(PathOf(op), None, None), fetch)
         == Some(Handled(Rendered(Blank(op)), []))
  {
  }

  /** With both operands non-zero the route's own endpoint is called once
      with both operands, and the body of the answer, whatever its status,
      is rendered as it came. */
  lemma AnswerVerbatim(importEnv: Environ, op: Operation, a: int, b: int, fetch: Call -> Reply)
    requires a != 0 && b != 0
    requires EndpointVar(op) in importEnv
    requires fetch(Call(Some(importEnv[EndpointVar(op)]), Params(a, b))).Answered?
    ensures var r := Serve(importEnv, PostForm(PathOf(op), Some(a), Some(b)), fetch);
            var call := Call(Some(importEnv[EndpointVar(op)]), Params(a, b));
            r == Some(Handled(Rendered(Page(Template(op), Some(1), Some(fetch(call).text))), [call]))
  {
  }

  /** An unset endpoint variable makes a forwarded request fail with a
      server error, without any back end being asked. */
  lemma UnsetEndpointRaises(importEnv: Environ, op: Operation, a: int, b: int, fetch: Call -> Reply)
    requires a != 0 && b != 0
    requires EndpointVar(op) !in importEnv
    ensures var r := Serve(importEnv, PostForm(PathOf(op), Some(a), Some(b)), fetch);
            r == Some(Handled(InternalError, [Call(None, Params(a, b))]))
  {
  }

  /** The four handlers are one handler: two operations given the same
      endpoint make the same calls, and their responses differ only in the
      template. */
  lemma HandlersDifferOnlyInTemplate(op1: Operation, op2: Operation, endpoint: Option<string>,
                                     first: Option<int>, second: Option<int>, fetch: Call -> Reply)
    ensures Post(op1, endpoint, first, second, fetch).calls == Post(op2, endpoint, first, second, fetch).calls
    ensures Retemplate(Post(op1, endpoint, first, second, fetch).response, Template(op2))
         == Post(op2, endpoint, first, second, fetch).response
  {
  }

  /** The same response, rendered with another template. */
  function Retemplate(r: Response, template: string): Response
  {
    match r
    case Rendered(page) => Rendered(page.(template := template))
    case InternalError => InternalError
  }

  /** A GET never calls a back end and never shows an answer. */
  lemma GetCallsNothing(importEnv: Environ, path: string, fetch: Call -> Reply)
    requires Serve(importEnv, GetPage(path), fetch).Some?
    ensures var h := Serve(importEnv, GetPage(path), fetch).value;
            h.calls == [] && h.response.Rendered? && h.response.page.answer.None?
  {
  }
}
