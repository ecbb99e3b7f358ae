# utkik View — a Dafny model

This project models utkik's `View` base class (`utkik/base.py`), a
minimalist class-based view for Django. A fresh `View` instance handles one
request. `dispatch` stores the request and then calls `get_response`, after
wrapping it in the view's `decorators` and in an `http_methods` gate. The
gate receives the entries of `methods` that have a handler method.
`get_response` calls the handler named after the lower-cased HTTP verb. If
the handler returns nothing, it falls back to `render`. `render` picks a
template with `get_template_names` (the AJAX template for an AJAX request,
else the plain template) and raises `ViewException` when there is none.

Everything is in `base.dfy`, module `Base`:

- value types: `Request` (verb and AJAX flag), `Args`, `Response`, `Context`
  (the attributes of the `ContextData` container), `Error` (`ViewException`,
  the `AttributeError` that `getattr` raises, and an exception a handler
  raises), `HandlerReturn` (a handler returns or raises), `ViewClass` (the class
  attributes and handler methods of a subclass);
- pure functions for the decision rules: `Lower`, `FilterAllowed`,
  `Compose`, `HandlerFor`, `SelectTemplates`, `RenderTemplates`, `Respond`;
- the class `View`, whose fields are the class attributes (constants:
  base.py never reassigns them; a handler that assigns them is not
  modelled) and the two fields base.py assigns, `c` and `request`.

Django's collaborators are parameters held in `Env`. `engine` stands for
`select_template` plus `template.render(RequestContext(...))`.
`httpMethods` stands for `utkik.decorators.http_methods`, which is not part
of this model. It is opaque: the model says only which list it receives.

## Model

| member | source | states |
|---|---|---|
| `Base.BaseView` | utkik/base.py:39-42 | the base class allows GET and POST, has no decorators, no template and no AJAX template |
| `Base.Lower` | utkik/base.py:90 | lower-casing keeps the length, maps each character through ASCII case folding and leaves no upper-case letter |
| `Base.LowerGet` | utkik/base.py:90 | the verbs "GET" and "POST" name the handlers "get" and "post" |
| `Base.FilterAllowed` | utkik/base.py:68 | the allowed list is a subsequence of `methods` in the same order; each entry has a handler named by its lower-case form; each entry of `methods` with such a handler occurs in it exactly as often as in `methods`, and no other entry occurs |
| `Base.FilterAllowedComplete` | utkik/base.py:68 | every entry of `methods` that has a handler is passed to the gate |
| `Base.BaseViewAllowedMethods` | utkik/base.py:39-40 | the base class, which defines no handler, allows nothing; a view defining only `get` allows exactly ["GET"] |
| `Base.Reversed` | utkik/base.py:66 | `reversed` yields the list back to front |
| `Base.ApplyEachAppend` | utkik/base.py:66-67 | applying decorators one after another over a concatenated list is applying the first part, then the second |
| `Base.ReversedApplyIsCompose` | utkik/base.py:66-67 | the loop over `reversed(decorators)` builds `decorators[0](decorators[1](...(func)))`, the first decorator outermost |
| `Base.ComposeShort` | utkik/base.py:66-67 | an empty decorator list leaves the function unchanged; a single decorator is applied directly |
| `Base.HandlerFor` | utkik/base.py:90 | the handler is the one keyed by the lower-cased verb; when there is none the lookup raises AttributeError for that name |
| `Base.GetSelectsGet` | utkik/base.py:90 | a "GET" request selects the handler "get" |
| `Base.AllowedVerbHasHandler` | utkik/base.py:68 | a verb on the list handed to the gate always finds its handler |
| `Base.SelectTemplates` | utkik/base.py:114-132 | at most one template, never an empty name; exactly [ajax_template] for an AJAX request with the AJAX template set; otherwise [template] when it is set; empty exactly when neither applies |
| `Base.RenderTemplates` | utkik/base.py:134-147 | fails with ViewException exactly when the template list is empty; otherwise renders the first template with the context |
| `Base.Respond` | utkik/base.py:71-81 | a missing handler is an AttributeError and leaves the context alone; otherwise the context is what the handler left, an exception the handler raises is passed on without rendering, a truthy handler result is returned as is, a falsy one gives `render()` over the handler's context; ViewException arises exactly when the handler returned nothing and no template is selectable |
| `Base.View.constructor` | utkik/base.py:44-49 | a fresh instance has an empty context container, no request, and the subclass's class attributes |
| `Base.View.GetHandler` | utkik/base.py:83-90 | succeeds exactly when the view has a handler named by the current request's lower-cased verb, and returns that handler; otherwise raises AttributeError for that name |
| `Base.View.GetContextData` | utkik/base.py:92-101 | the context data is the view's context container |
| `Base.View.GetTemplateNames` | utkik/base.py:114-132 | the template selection for the current request and the view's templates, of length at most 1 |
| `Base.View.Render` | utkik/base.py:134-147 | raises ViewException if and only if no template is selectable; otherwise renders the selected template with the view's context |
| `Base.View.GetResponse` | utkik/base.py:71-81 | the result and the new context container are those of `Respond` on the stored request and the old context |
| `Base.View.BoundGetResponse` | utkik/base.py:59 | the bound `get_response` answers from the stored request and the context container it is given, whatever request a decorator passes it, and hands back the container as the handler left it |
| `Base.View.Decorate` | utkik/base.py:61-69 | the result is the gate for the allowed methods applied to the decorators taken one at a time in reversed order, which equals their nesting with the first one outermost |
| `Base.View.Dispatch` | utkik/base.py:51-59 | stores the request, then returns the decorated `get_response` applied to the request, the arguments and the instance's context container, and sets `c` to the context the decorated function hands back |

## Left out

- `Base.Lower`: only ASCII letters are folded; Python's `str.lower` folds all of Unicode. HTTP verbs are ASCII.
- `Base.FilterAllowed`: `hasattr(self, m.lower())` is true for every attribute of the view, not only handler methods. The model tests against the handler map, so an allow-list entry that names another attribute (such as "RENDER") is not modelled.
- `Base.View.GetHandler`: requires a stored request. Calling `get_handler`, `get_template_names` or `render` before `dispatch` makes Python raise AttributeError on `None`; the model leaves that case out.
- `Base.View.Dispatch`: decorators and handlers are pure functions that pass the context container along; side effects they might have outside the view (logging, the database) are not modelled.
- `Base.View.Dispatch`: a model decorator, or the `httpMethods` gate, receives the context container and may replace or drop it. A Python decorator never sees `self.c`, so the handler's writes always survive there. The model promises only that `c` ends as the context the decorated function hands back; when every decorator and the gate pass on the context the wrapped function returns, that is the handler's context.
- `Base.View.BoundGetResponse`: Python's decorators receive the very request object stored in `self.request`, and `get_handler` and `get_template_names` read it when they run. A decorator that mutates that object in place (for instance a method override setting `request.method`) changes which handler and template Python picks. The model treats any request a decorator passes as a new object and answers from the request stored by `dispatch`, so in-place mutation of the shared request is not modelled.
- `Base.Respond`: a handler is a method of the view and may assign instance attributes that `render` reads next (`self.template`, `self.ajax_template`, `self.request`). The model gives a handler only the context container, so such assignments are not modelled. Exceptions a handler raises are modelled by name (`HandlerException`) and passed on without rendering; their Django semantics (`Http404` becoming a 404 response) belong to the framework and are not modelled.
- `Base.Respond`: the source names `get_handler`, `get_context_data`, `get_context`, `get_template_names` and `render` as override points for subclasses (utkik/base.py:87-88, 96-97, 107-108, 126, 139). Subclass overrides of these methods are not modelled: `ViewClass` carries only the class attributes and the handler methods, and the contracts of `Respond`, `View.GetHandler`, `View.GetTemplateNames` and `View.Render` describe the base class's definitions.
- Context values: a `ContextData` attribute can hold any Python value; the model narrows values to strings. No decision of the view looks at these values.
- `get_context` (utkik/base.py:103-112) and `RequestContext`: folded into the opaque `engine`, which receives the request and the context data.
- `select_template` is modelled as choosing the first name in the list. A template that does not exist (Django's `TemplateDoesNotExist`) is not modelled.
- The `ViewException` message and its `ugettext_lazy` translation: only the raising is modelled.
- `http_methods` (`utkik.decorators`) is not part of this model; its rejection behaviour is not modelled.
- Handler results are `Some(response)` for a truthy value and `None` for any falsy one; other Python values are not distinguished.
- The lazy string resolver and dispatcher that create a fresh view per request are not part of this model.
