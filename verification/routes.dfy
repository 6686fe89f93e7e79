/** The request wrapper and route table of main.go: `makeHandler` runs the
    path validator before a handler, and the table binds the three route
    prefixes to their wrapped handlers. */
module Routes {
  import opened Options
  import opened PageStore
  import opened PathValidator
  import opened Handlers

  /** An incoming request: its URL path and its decoded form fields. The
      Go code never looks at the HTTP method, so neither does the model. */
  datatype Request = Request(path: string, form: Form)

  /** `makeHandler`: a path the validator rejects is answered 404 with the
      directory untouched and without calling `fn`; otherwise `fn` runs on
      the extracted title. */
  function MakeHandler(fn: Handler, store: Store, req: Request, env: Env): (r: Outcome)
    ensures MatchPath(req.path).None? ==> r == Outcome(store, NotFound)
    ensures MatchPath(req.path).Some? ==> r == fn(store, req.form, MatchPath(req.path).value.title, env)
  {
    match MatchPath(req.path)
    case None => Outcome(store, NotFound)
    case Some(m) => fn(store, req.form, m.title, env)
  }

  /** The handler each action is served by. */
  function HandlerFor(a: Action): Handler {
    match a
    case ViewAction => ViewHandler
    case EditAction => EditHandler
    case SaveAction => SaveHandler
  }

  /** The route table of `main`: the path prefix picks the wrapped handler,
      and a path under no prefix gets the server's default 404. */
  function Dispatch(store: Store, req: Request, env: Env): (r: Outcome)
    ensures !("/view/" <= req.path || "/edit/" <= req.path || "/save/" <= req.path) ==> r == Outcome(store, NotFound)
  {
    if "/view/" <= req.path then MakeHandler(ViewHandler, store, req, env)
    else if "/edit/" <= req.path then MakeHandler(EditHandler, store, req, env)
    else if "/save/" <= req.path then MakeHandler(SaveHandler, store, req, env)
    else Outcome(store, NotFound)
  }

  /** The prefix that picked a handler always names the action the validator
      finds, so the route's own handler is the one that runs. */
  lemma RoutePrefixAgreesWithAction(a: Action, t: string)
    ensures ("/" + ActionName(a) + "/") <= RoutePath(a, t)
    ensures forall b :: b != a ==> !(("/" + ActionName(b) + "/") <= RoutePath(a, t))
  {
    var p := RoutePath(a, t);
    assert p[1..5] == ActionName(a);
    forall b | b != a
      ensures !(("/" + ActionName(b) + "/") <= p)
    {
      assert ParseAction(p[1..5]) == Some(a);
    }
  }

  /** A path the validator rejects is answered 404, reaches no handler and
      leaves the directory as it was, whatever route prefix it has. */
  lemma DispatchRejectsInvalidPath(store: Store, req: Request, env: Env)
    requires MatchPath(req.path).None?
    ensures Dispatch(store, req, env) == Outcome(store, NotFound)
  {
  }

  /** The three prefixes of the route table are `/`, an action word and `/`. */
  lemma RoutePrefixesAreActionWords()
    ensures "/" + ActionName(ViewAction) + "/" == "/view/"
    ensures "/" + ActionName(EditAction) + "/" == "/edit/"
    ensures "/" + ActionName(SaveAction) + "/" == "/save/"
  {
  }

  /** A path the validator accepts reaches the handler of the action it
      names, with the title it carries. */
  lemma DispatchRunsMatchedHandler(store: Store, req: Request, env: Env)
    requires MatchPath(req.path).Some?
    ensures Dispatch(store, req, env)
            == HandlerFor(MatchPath(req.path).value.action)(store, req.form, MatchPath(req.path).value.title, env)
  {
    var m := MatchPath(req.path).value;
    RoutePrefixAgreesWithAction(m.action, m.title);
    RoutePrefixesAreActionWords();
    match m.action
    case ViewAction =>
      assert "/view/" <= req.path;
    case EditAction =>
      assert !("/view/" <= req.path) && "/edit/" <= req.path;
    case SaveAction =>
      assert !("/view/" <= req.path) && !("/edit/" <= req.path) && "/save/" <= req.path;
  }

  /** The status line tells the two failures apart: 404 comes only from a
      path the validator rejects, every handler answers 200, 302 or 500, and
      every redirect is a 302. */
  lemma DispatchStatus(store: Store, req: Request, env: Env)
    ensures StatusCode(Dispatch(store, req, env).response) == 404 <==> MatchPath(req.path).None?
    ensures StatusCode(Dispatch(store, req, env).response) in {200, 302, 404, 500}
    ensures Dispatch(store, req, env).response.Redirect? ==> StatusCode(Dispatch(store, req, env).response) == 302
  {
    if MatchPath(req.path).Some? {
      DispatchRunsMatchedHandler(store, req, env);
    }
  }

  /** Only a successful save changes the directory, and then only the file
      of the title in the path, whose name stays inside the directory. */
  lemma DispatchEffectOnStore(store: Store, req: Request, env: Env)
    ensures var r := Dispatch(store, req, env);
      r.store == store ||
      (MatchPath(req.path).Some? && MatchPath(req.path).value.action == SaveAction && !env.writeFails &&
       r.store == store[FileName(MatchPath(req.path).value.title) := FormValue(req.form, "body")] &&
       '/' !in FileName(MatchPath(req.path).value.title))
  {
  }

  /** The redirect locations the handlers build are the route paths of the
      edit and view actions. */
  lemma RedirectLocationsAreRoutes(t: string)
    ensures "/edit/" + t == RoutePath(EditAction, t)
    ensures "/view/" + t == RoutePath(ViewAction, t)
  {
    assert "/" + ActionName(EditAction) + "/" == "/edit/";
    assert "/" + ActionName(ViewAction) + "/" == "/view/";
  }

  /** Viewing a page that does not exist sends the browser to a location
      that the route table serves with an empty edit form for that title. */
  lemma ViewOfMissingPageLeadsToEmptyEditor(store: Store, t: string, form: Form, form': Form, env: Env)
    requires ValidTitle(t)
    requires FileName(t) !in store
    requires !env.renderFails
    ensures Dispatch(store, Request(RoutePath(ViewAction, t), form), env).response.Redirect?
    ensures Dispatch(store, Request(Dispatch(store, Request(RoutePath(ViewAction, t), form), env).response.location, form'), env)
            == Outcome(store, Render("edit.html", Page(t, [])))
  {
    MatchPathComplete(ViewAction, t);
    DispatchRunsMatchedHandler(store, Request(RoutePath(ViewAction, t), form), env);
    RedirectLocationsAreRoutes(t);
    MatchPathComplete(EditAction, t);
    DispatchRunsMatchedHandler(store, Request(RoutePath(EditAction, t), form'), env);
  }

  /** Saving a page through the save route and then following the redirect
      shows exactly the body that was posted. */
  lemma SaveThenFollowRedirectShowsBody(store: Store, t: string, form: Form, form': Form, env: Env)
    requires ValidTitle(t)
    requires !env.writeFails && !env.renderFails
    ensures Dispatch(store, Request(RoutePath(SaveAction, t), form), env).response.Redirect?
    ensures var saved := Dispatch(store, Request(RoutePath(SaveAction, t), form), env);
      Dispatch(saved.store, Request(saved.response.location, form'), env)
      == Outcome(saved.store, Render("view.html", Page(t, FormValue(form, "body"))))
  {
    MatchPathComplete(SaveAction, t);
    DispatchRunsMatchedHandler(store, Request(RoutePath(SaveAction, t), form), env);
    var saved := Dispatch(store, Request(RoutePath(SaveAction, t), form), env);
    RedirectLocationsAreRoutes(t);
    MatchPathComplete(ViewAction, t);
    DispatchRunsMatchedHandler(saved.store, Request(RoutePath(ViewAction, t), form'), env);
  }
}
