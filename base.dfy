/** A model of utkik's `View` base class (utkik/base.py): a per-request
    handler object that picks a handler method by the HTTP verb, falls back
    to rendering a template when the handler returns nothing, and wraps its
    entry point in user decorators and an allowed-methods gate.

    Django is abstracted away: a request is its verb and its AJAX flag,
    handler methods are a map from lower-case verb to a function, templates
    are optional strings, and the template engine and the `http_methods`
    decorator factory are opaque functions the view is given. */
module Base {

  datatype Option<+T> = None | Some(value: T)

  /** The exceptions a view raises. */
  datatype Error =
    | ViewException                 // `render` has no template to render to
    | AttributeError(name: string)  // `getattr` found no handler of that name
    | HandlerException(kind: string) // raised by a handler (`Http404`, ...)

  datatype Result<+T> = Ok(value: T) | Err(error: Error)

  /** What the view reads from Django's request object. */
  datatype Request = Request(verb: string, isAjax: bool)

  /** Positional and keyword arguments extracted from the URL. */
  datatype Args = Args(positional: seq<string>, named: map<string, string>)

  /** A value a view hands back to Django: an HttpResponse from a handler or
      the text of a rendered template. */
  datatype Response = Response(content: string)

  /** The attributes stored on the view's `ContextData` container. */
  type Context = map<string, string>

  /** How a handler method ends: it returns a value (None for a falsy one
      such as Python's `None`) or raises an exception, and in both cases
      leaves the context container as it was at that point. */
  datatype HandlerReturn =
    | Returned(response: Option<Response>, context: Context)
    | Raised(exception: string, context: Context)

  /** A handler method (`get`, `post`, ...) called with the URL arguments. */
  type Handler = (Args, Context) -> HandlerReturn

  /** The result of `get_response` and the context container afterwards. */
  datatype Outcome = Outcome(result: Result<Response>, context: Context)

  /** A response function with `get_response`'s calling convention, and a
      decorator over such functions. The view's context container is passed
      in and handed back, so a wrapper that calls the wrapped function more
      than once lets each call see the writes of the one before. */
  type ResponseFn = (Request, Args, Context) -> Outcome
  type Decorator = ResponseFn -> ResponseFn

  /** The Django collaborators: `select_template` followed by
      `template.render(RequestContext(request, context))`, and the
      `http_methods(*methods)` decorator factory. */
  datatype Env = Env(engine: (string, Request, Context) -> Response,
                     httpMethods: seq<string> -> Decorator)

  /** The class attributes a `View` subclass declares, with its handler
      methods keyed by name. */
  datatype ViewClass = ViewClass(methods: seq<string>, decorators: seq<Decorator>,
                                 template: Option<string>, ajaxTemplate: Option<string>,
                                 handlers: map<string, Handler>)

  /** The defaults of the base class: GET and POST allowed, no decorators,
      no templates and no handler methods. */
  function BaseView(): (v: ViewClass)
    ensures v.methods == ["GET", "POST"] && v.decorators == []
    ensures v.template == None && v.ajaxTemplate == None && v.handlers == map[]
  {
    ViewClass(["GET", "POST"], [], None, None, map[])
  }

  // ---------------------------------------------------------------------
  // Verb names

  function LowerChar(ch: char): char
  {
    if 'A' <= ch <= 'Z' then (ch as int - 'A' as int + 'a' as int) as char else ch
  }

  /** `str.lower()` on ASCII text. */
  function Lower(s: string): (r: string)
    ensures |r| == |s|
    ensures forall i :: 0 <= i < |s| ==> r[i] == LowerChar(s[i])
    ensures forall i :: 0 <= i < |s| ==> !('A' <= r[i] <= 'Z')
  {
    if s == [] then [] else [LowerChar(s[0])] + Lower(s[1..])
  }

  /** The verb "GET" names the handler "get". */
  lemma LowerGet()
    ensures Lower("GET") == "get" && Lower("POST") == "post"
  {
  }

  // ---------------------------------------------------------------------
  // Allowed methods

  /** `a` is `b` with some entries dropped and the order kept. */
  ghost predicate IsSubsequence<T>(a: seq<T>, b: seq<T>)
    decreases |b|
  {
    if a == [] then true
    else if b == [] then false
    else if a[0] == b[0] then IsSubsequence(a[1..], b[1..])
    else IsSubsequence(a, b[1..])
  }

  /** The entries of the allow-list that have a handler named by their lower
      case form, in allow-list order. */
  function FilterAllowed(methods: seq<string>, names: set<string>): (r: seq<string>)
    ensures IsSubsequence(r, methods)
    ensures forall m :: m in r ==> Lower(m) in names
    ensures forall m :: multiset(r)[m] == if Lower(m) in names then multiset(methods)[m] else 0
  {
    if methods == [] then []
    else
      var rest := FilterAllowed(methods[1..], names);
      assert methods == [methods[0]] + methods[1..];
      if Lower(methods[0]) in names then [methods[0]] + rest else rest
  }

  /** Hence every allow-list entry that has a handler is passed on. */
  lemma FilterAllowedComplete(methods: seq<string>, names: set<string>, m: string)
    requires m in methods && Lower(m) in names
    ensures m in FilterAllowed(methods, names)
  {
  }

  /** The base class defines no handler, so it allows nothing; a subclass
      that defines only `get` allows exactly GET. */
  lemma BaseViewAllowedMethods()
    ensures FilterAllowed(BaseView().methods, BaseView().handlers.Keys) == []
    ensures FilterAllowed(BaseView().methods, {"get"}) == ["GET"]
  {
    LowerGet();
    assert ["GET", "POST"][1..] == ["POST"];
  }

  // ---------------------------------------------------------------------
  // Decorators

  /** `ds[0](ds[1](... ds[|ds|-1](f)))`: the first decorator outermost. */
  function Compose(ds: seq<Decorator>, f: ResponseFn): ResponseFn
  {
    if ds == [] then f else ds[0](Compose(ds[1..], f))
  }

  /** Applies the decorators one after another in list order, each wrapping
      the result of the previous one. */
  function ApplyEach(ds: seq<Decorator>, f: ResponseFn): ResponseFn
  {
    if ds == [] then f else ApplyEach(ds[1..], ds[0](f))
  }

  /** Python's `reversed`. */
  function Reversed<T>(s: seq<T>): (r: seq<T>)
    ensures |r| == |s|
    ensures forall i :: 0 <= i < |s| ==> r[i] == s[|s| - 1 - i]
  {
    if s == [] then [] else Reversed(s[1..]) + [s[0]]
  }

  lemma {:induction false} ApplyEachAppend(a: seq<Decorator>, b: seq<Decorator>, f: ResponseFn)
    ensures ApplyEach(a + b, f) == ApplyEach(b, ApplyEach(a, f))
  {
    if a == [] {
      assert a + b == b;
    } else {
      assert (a + b)[1..] == a[1..] + b;
      ApplyEachAppend(a[1..], b, a[0](f));
    }
  }

  /** Applying the decorators in reversed list order, one at a time, puts the
      first listed decorator outermost. */
  lemma {:induction false} ReversedApplyIsCompose(ds: seq<Decorator>, f: ResponseFn)
    ensures ApplyEach(Reversed(ds), f) == Compose(ds, f)
  {
    if ds != [] {
      var d := ds[0];
      ApplyEachAppend(Reversed(ds[1..]), [d], f);
      assert [d][1..] == [];
      ReversedApplyIsCompose(ds[1..], f);
    }
  }

  /** An empty decorator list leaves the function unchanged, and one
      decorator is applied directly. */
  lemma ComposeShort(f: ResponseFn, d: Decorator)
    ensures Compose([], f) == f
    ensures Compose([d], f) == d(f)
  {
  }

  // ---------------------------------------------------------------------
  // Handler choice, templates and rendering

  /** `getattr(self, self.request.method.lower())`. */
  function HandlerFor(req: Request, handlers: map<string, Handler>): (r: Result<Handler>)
    ensures r.Ok? <==> Lower(req.verb) in handlers
    ensures r.Ok? ==> r.value == handlers[Lower(req.verb)]
    ensures r.Err? ==> r.error == AttributeError(Lower(req.verb))
  {
    var name := Lower(req.verb);
    if name in handlers then Ok(handlers[name]) else Err(AttributeError(name))
  }

  /** A GET request selects the handler named "get". */
  lemma GetSelectsGet(isAjax: bool, handlers: map<string, Handler>)
    requires "get" in handlers
    ensures HandlerFor(Request("GET", isAjax), handlers) == Ok(handlers["get"])
  {
    LowerGet();
  }

  /** A verb on the list handed to the allowed-methods gate always finds its
      handler, so `get_handler` cannot fail for it. */
  lemma AllowedVerbHasHandler(methods: seq<string>, handlers: map<string, Handler>, req: Request)
    requires req.verb in FilterAllowed(methods, handlers.Keys)
    ensures HandlerFor(req, handlers) == Ok(handlers[Lower(req.verb)])
  {
  }

  /** Python truthiness of an optional template name. */
  predicate IsSet(t: Option<string>)
  {
    t.Some? && t.value != ""
  }

  /** `get_template_names`: at most one template; the AJAX template wins
      for an AJAX request, then the plain template, else none. */
  function SelectTemplates(isAjax: bool, template: Option<string>, ajaxTemplate: Option<string>): (r: seq<string>)
    ensures |r| <= 1
    ensures forall t :: t in r ==> t != ""
    ensures r == [] <==> !IsSet(template) && !(isAjax && IsSet(ajaxTemplate))
    ensures isAjax && IsSet(ajaxTemplate) ==> r == [ajaxTemplate.value]
    ensures !(isAjax && IsSet(ajaxTemplate)) && IsSet(template) ==> r == [template.value]
  {
    if isAjax && IsSet(ajaxTemplate) then [ajaxTemplate.value]
    else if IsSet(template) then [template.value]
    else []
  }

  /** `render`: refuses an empty template list, otherwise renders the first
      selectable template with the context. */
  function RenderTemplates(names: seq<string>, req: Request, ctx: Context,
                           engine: (string, Request, Context) -> Response): (r: Result<Response>)
    ensures r.Err? <==> names == []
    ensures r.Err? ==> r.error == ViewException
    ensures r.Ok? ==> r.value == engine(names[0], req, ctx)
  {
    if names == [] then Err(ViewException) else Ok(engine(names[0], req, ctx))
  }

  /** `get_response`: the handler's result when truthy, otherwise `render()`
      over the context the handler left behind; an exception the handler
      raises is passed on and `render()` is not called. */
  function Respond(handlers: map<string, Handler>, template: Option<string>,
                   ajaxTemplate: Option<string>, engine: (string, Request, Context) -> Response,
                   req: Request, args: Args, ctx: Context): (r: Outcome)
    ensures Lower(req.verb) !in handlers <==> r.result.Err? && r.result.error.AttributeError?
    ensures Lower(req.verb) !in handlers ==> r.context == ctx
    ensures Lower(req.verb) in handlers ==>
      var ret := handlers[Lower(req.verb)](args, ctx);
      && r.context == ret.context
      && (ret.Raised? ==> r.result == Err(HandlerException(ret.exception)))
      && (ret.Returned? && ret.response.Some? ==> r.result == Ok(ret.response.value))
      && (ret.Returned? && ret.response.None? ==>
            r.result == RenderTemplates(SelectTemplates(req.isAjax, template, ajaxTemplate),
                                        req, ret.context, engine))
    ensures r.result == Err(ViewException) <==>
      && Lower(req.verb) in handlers
      && handlers[Lower(req.verb)](args, ctx).Returned?
      && handlers[Lower(req.verb)](args, ctx).response.None?
      && !IsSet(template) && !(req.isAjax && IsSet(ajaxTemplate))
  {
    match HandlerFor(req, handlers)
    case Err(e) => Outcome(Err(e), ctx)
    case Ok(h) =>
      var ret := h(args, ctx);
      if ret.Raised? then Outcome(Err(HandlerException(ret.exception)), ret.context)
      else if ret.response.Some? then Outcome(Ok(ret.response.value), ret.context)
      else Outcome(RenderTemplates(SelectTemplates(req.isAjax, template, ajaxTemplate),
                                   req, ret.context, engine), ret.context)
  }

  // ---------------------------------------------------------------------
  // The view object

  class View {
    const methods: seq<string>
    const decorators: seq<Decorator>
    const template: Option<string>
    const ajaxTemplate: Option<string>
    const handlers: map<string, Handler>
    const env: Env
    var c: Context
    var request: Option<Request>

    /** A fresh instance: an empty context container and no request yet. */
    constructor (cls: ViewClass, env: Env)
      ensures methods == cls.methods && decorators == cls.decorators
      ensures template == cls.template && ajaxTemplate == cls.ajaxTemplate
      ensures handlers == cls.handlers && this.env == env
      ensures c == map[] && request == None
    {
      methods := cls.methods;
      decorators := cls.decorators;
      template := cls.template;
      ajaxTemplate := cls.ajaxTemplate;
      handlers := cls.handlers;
      this.env := env;
      c := map[];
      request := None;
    }

    /** `get_handler`: the handler named after the lower-cased verb of the
        current request. */
    function GetHandler(): (r: Result<Handler>)
      reads this
      requires request.Some?
      ensures r.Ok? <==> Lower(request.value.verb) in handlers
      ensures r.Ok? ==> r.value == handlers[Lower(request.value.verb)]
      ensures r.Err? ==> r.error == AttributeError(Lower(request.value.verb))
    {
      HandlerFor(request.value, handlers)
    }

    /** `get_context_data`: the attributes of the context container. */
    function GetContextData(): (r: Context)
      reads this
      ensures r == c
    {
      c
    }

    /** `get_template_names` for the current request. */
    function GetTemplateNames(): (r: seq<string>)
      reads this
      requires request.Some?
      ensures |r| <= 1
      ensures r == SelectTemplates(request.value.isAjax, template, ajaxTemplate)
    {
      SelectTemplates(request.value.isAjax, template, ajaxTemplate)
    }

    /** `render`: raises ViewException exactly when no template is
        selectable, otherwise renders the selected one with the context. */
    function Render(): (r: Result<Response>)
      reads this
      requires request.Some?
      ensures r.Err? <==> GetTemplateNames() == []
      ensures r.Err? ==> r.error == ViewException
      ensures r.Ok? ==> r.value == env.engine(GetTemplateNames()[0], request.value, c)
    {
      RenderTemplates(GetTemplateNames(), request.value, GetContextData(), env.engine)
    }

    /** `get_response` called directly, not through `dispatch` (which wraps
        `BoundGetResponse` instead): runs the handler, keeps the context it
        leaves, and falls back to `render()` when it returns nothing. */
    method GetResponse(args: Args) returns (r: Result<Response>)
      requires request.Some?
      modifies this`c
      ensures Outcome(r, c) == Respond(handlers, template, ajaxTemplate, env.engine,
                                       request.value, args, old(c))
    {
      var handler := GetHandler();
      if handler.Err? {
        return Err(handler.error);
      }
      var ret := handler.value(args, c);
      c := ret.context;
      if ret.Raised? {
        r := Err(HandlerException(ret.exception));
      } else if ret.response.Some? {
        r := Ok(ret.response.value);
      } else {
        r := Render();
      }
    }

    /** `self.get_response` as a value that decorators can wrap: it answers
        from the stored request and the context it is given, whatever request
        the decorators pass it. */
    function BoundGetResponse(): (f: ResponseFn)
      reads this
      requires request.Some?
      ensures forall rq: Request, a: Args, ctx: Context ::
                f(rq, a, ctx) == Respond(handlers, template, ajaxTemplate, env.engine, request.value, a, ctx)
    {
      var req, hs, t, at, eng := request.value, handlers, template, ajaxTemplate, env.engine;
      (rq: Request, a: Args, ctx: Context) => Respond(hs, t, at, eng, req, a, ctx)
    }

    /** `_decorate`: wraps `func` in the decorators taken in reversed order,
        which puts the first listed outermost, then in the `http_methods`
        gate for the allowed verbs. */
    method Decorate(func: ResponseFn) returns (r: ResponseFn)
      ensures r == env.httpMethods(FilterAllowed(methods, handlers.Keys))(Compose(decorators, func))
      ensures r == env.httpMethods(FilterAllowed(methods, handlers.Keys))(ApplyEach(Reversed(decorators), func))
    {
      var f := func;
      var i := |decorators|;
      while i > 0
        invariant 0 <= i <= |decorators|
        invariant f == Compose(decorators[i..], func)
      {
        i := i - 1;
        assert decorators[i..][1..] == decorators[i + 1..];
        f := decorators[i](f);
      }
      assert decorators[0..] == decorators;
      ReversedApplyIsCompose(decorators, func);
      var allowed := FilterAllowed(methods, handlers.Keys);
      r := env.httpMethods(allowed)(f);
    }

    /** `dispatch`: stores the request first, then calls the decorated
        `get_response` on the instance's context container and sets `c` to
        the context the decorated function hands back (see README, Left
        out). */
    method Dispatch(req: Request, args: Args) returns (r: Result<Response>)
      modifies this`request, this`c
      ensures request == Some(req)
      ensures Outcome(r, c) == env.httpMethods(FilterAllowed(methods, handlers.Keys))
                                 (Compose(decorators, BoundGetResponse()))(req, args, old(c))
    {
      request := Some(req);
      var decorated := Decorate(BoundGetResponse());
      var out := decorated(req, args, c);
      r, c := out.result, out.context;
    }
  }
}
