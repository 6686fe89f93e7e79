/** The three page handlers of main.go and the template renderer they share.
    Each handler is a pure function from the directory, the request form and
    the page title to the directory afterwards and the response. */
module Handlers {
  import opened Options
  import opened PageStore

  /** `http.StatusFound`, the code of every redirect the wiki issues. */
  const StatusFound: int := 302

  /** What a request is answered with. `Render` names the template file that
      was executed and the page it was given. */
  datatype Response =
    | NotFound
    | Redirect(location: string, code: int)
    | Render(template: string, page: Page)
    | ServerError

  /** The HTTP status line of a response. */
  function StatusCode(r: Response): int {
    match r
    case NotFound => 404
    case Redirect(_, code) => code
    case Render(_, _) => 200
    case ServerError => 500
  }

  /** The failures of the outside world a request may run into: the
      operating system refusing a write, and a template failing to execute. */
  datatype Env = Env(writeFails: bool, renderFails: bool)

  /** The directory after a request and the response sent. */
  datatype Outcome = Outcome(store: Store, response: Response)

  /** Decoded form fields of a request, each already as bytes. */
  type Form = map<string, seq<byte>>

  /** `Request.FormValue`: the field's value, or empty when it is absent. */
  function FormValue(form: Form, key: string): (v: seq<byte>)
    ensures key in form ==> v == form[key]
    ensures key !in form ==> v == []
  {
    if key in form then form[key] else []
  }

  /** The shape every handler shares once the title has been extracted. */
  type Handler = (Store, Form, string, Env) -> Outcome

  /** `renderTemplate`: executes `tmpl + ".html"` on the page, or answers
      500 when execution fails. */
  function RenderTemplate(tmpl: string, p: Page, env: Env): (r: Response)
    ensures r.ServerError? <==> env.renderFails
    ensures r.Render? ==> r.template == tmpl + ".html" && r.page == p
    ensures r.ServerError? || r.Render?
  {
    if env.renderFails then ServerError else Render(tmpl + ".html", p)
  }

  /** `viewHandler`: shows a stored page, and sends the browser to the edit
      route of a page that does not exist yet. It never writes. */
  function ViewHandler(store: Store, form: Form, title: string, env: Env): (r: Outcome)
    ensures r.store == store
    ensures r.response.Redirect? <==> FileName(title) !in store
    ensures r.response.Redirect? ==> r.response.location == "/edit/" + title && r.response.code == StatusFound
    ensures r.response.Render? ==> Load(store, title) == Ok(r.response.page) && r.response.template == "view.html"
    ensures r.response.ServerError? <==> FileName(title) in store && env.renderFails
    ensures !r.response.NotFound?
  {
    match Load(store, title)
    case Err(_) => Outcome(store, Redirect("/edit/" + title, StatusFound))
    case Ok(p) => Outcome(store, RenderTemplate("view", p, env))
  }

  /** `editHandler`: shows the edit form for a page, starting from an empty
      body when the page does not exist. Loading never makes it fail, and it
      never writes. */
  function EditHandler(store: Store, form: Form, title: string, env: Env): (r: Outcome)
    ensures r.store == store
    ensures r.response.Render? <==> !env.renderFails
    ensures r.response.ServerError? <==> env.renderFails
    ensures r.response.Render? ==> r.response.template == "edit.html" && r.response.page.title == title
    ensures r.response.Render? && FileName(title) in store ==> r.response.page.body == store[FileName(title)]
    ensures r.response.Render? && FileName(title) !in store ==> r.response.page.body == []
  {
    var p := match Load(store, title)
      case Ok(p) => p
      case Err(_) => Page(title, []);
    Outcome(store, RenderTemplate("edit", p, env))
  }

  /** `saveHandler`: stores the form's `body` field as the page and sends
      the browser to the view route; a failed write answers 500 and sends
      no redirect. */
  function SaveHandler(store: Store, form: Form, title: string, env: Env): (r: Outcome)
    ensures env.writeFails ==> r == Outcome(store, ServerError)
    ensures !env.writeFails ==> r.response == Redirect("/view/" + title, StatusFound)
    ensures !env.writeFails ==> Load(r.store, title) == Ok(Page(title, FormValue(form, "body")))
    ensures !env.writeFails ==> forall other :: other != title ==> Load(r.store, other) == Load(store, other)
  {
    var p := Page(title, FormValue(form, "body"));
    match Save(store, p, env.writeFails)
    case WriteFailed => Outcome(store, ServerError)
    case Saved(s) =>
      assert forall other :: other != title ==> Load(s, other) == Load(store, other) by {
        forall other | other != title
          ensures Load(s, other) == Load(store, other)
        {
          SaveLeavesOtherPages(store, p, other);
        }
      }
      Outcome(s, Redirect("/view/" + title, StatusFound))
  }
}
