# Wiki request handling, modelled in Dafny

A model of the request handling of a tiny Go wiki (`main.go`). A page has a
title and a byte body and is kept as the file `title + ".txt"` in the working
directory. Three routes serve it: `/view/<title>` shows a page, or redirects
to the edit route when the page does not exist; `/edit/<title>` shows the edit
form, starting from an empty body for a new page; `/save/<title>` stores the
form's `body` field and redirects to the view route. Before any handler runs,
the request path must match `^/(edit|save|view)/([a-zA-Z0-9]+)$`. Otherwise
the answer is 404.

The model has five modules:

- `Options`: `Option` and `Result`, standing in for Go's nil results and `(value, error)` pairs.
- `PageStore`: `Page`, the directory as an immutable `map<string, seq<byte>>` from file name to contents, `Save` (`Page.save`) and `Load` (`loadPage`).
- `PathValidator`: the path pattern as a hand-written parser (`MatchPath`) with a reference definition (`RoutePath`, `ValidTitle`).
- `Handlers`: `Response`, the template renderer and the three handlers as pure functions from (directory, form, title, faults) to (directory, response).
- `Routes`: `makeHandler` and the route table of `main` as `Dispatch`, with the lemmas that connect whole requests.

`Scenarios` states concrete request sequences: save then load, overwrite, a
traversal attempt, rejected path shapes.

Outside failures are explicit inputs. `Env.writeFails` says the operating
system refuses the write. `Env.renderFails` says template execution fails
before it has written any output.

main.go never checks the method, so `GET /save/<title>` saves with the `body`
value from the URL query, or an empty body. A request in the model has no
method.

## Model

| member | source | states |
|---|---|---|
| PageStore.FileName | main.go:19 | the file name is the title followed by `.txt`, so the title can be read back from it |
| PageStore.FileNameInjective | main.go:19 | distinct titles are kept in distinct files |
| PageStore.Save | main.go:18-21 | a write fails exactly when the outside world refuses it; a successful write makes the page's file hold the body and leaves every other file as it was |
| PageStore.Load | main.go:27-35 | a load succeeds exactly when the page's file exists, and then returns the requested title with the file's bytes; otherwise one generic error and no page |
| PageStore.SaveLoadRoundTrip | main.go:18-34 | a page that was saved loads back with the same title and body |
| PageStore.SaveLeavesOtherPages | main.go:19-20 | saving one title does not change what any other title loads |
| PageStore.LastWriteWins | main.go:18-20 | saving a title twice is the same as saving only the second body |
| PathValidator.ActionName | main.go:52 | each action word of the alternation is four characters long |
| PathValidator.ParseAction | main.go:52 | the alternation `(edit\|save\|view)` recognises exactly the three action words, each as its own action |
| PathValidator.ScanAlnum | main.go:52 | the scan stops at the end of the longest run of `[a-zA-Z0-9]` characters |
| PathValidator.MatchPath | main.go:52 | a matched path is exactly `/` + action + `/` + title, with a non-empty alphanumeric title |
| PathValidator.MatchPathComplete | main.go:52 | every path of that shape is matched, and the title handed on is the one in the path |
| PathValidator.MatchPathIff | main.go:52 | a path matches if and only if it is `/` + action + `/` + a valid title |
| PathValidator.MatchedTitleIsSafe | main.go:52 | a matched title has no `/` or `.`; its file name has no `/`, and its only dot is the extension's |
| Handlers.FormValue | main.go:96 | the `body` field is the form's value, or empty when the field is missing |
| Handlers.RenderTemplate | main.go:43-49 | rendering answers 500 exactly when template execution fails before writing any output, and otherwise renders `<name>.html` on the given page |
| Handlers.ViewHandler | main.go:76-83 | the store is unchanged; a missing page redirects with 302 to `/edit/<title>`; a stored page renders `view.html` with the loaded page, or answers 500 on a render error before any output |
| Handlers.EditHandler | main.go:86-92 | the store is unchanged and loading never fails; it renders `edit.html` for the title with the stored body, or an empty body for a new page |
| Handlers.SaveHandler | main.go:95-104 | a failed write answers 500 with no redirect; a successful one makes the title load as the posted body, leaves every other title alone and redirects with 302 to `/view/<title>` |
| Routes.MakeHandler | main.go:56-68 | a rejected path answers 404 without calling the handler and with the store unchanged; an accepted one calls the handler on the extracted title |
| Routes.Dispatch | main.go:106-110 | a path handed on by `ServeMux` that lies under none of the three route prefixes gets the default 404 and changes nothing |
| Routes.RoutePrefixesAreActionWords | main.go:108-110 | the three route prefixes are `/`, an action word of the path pattern, and `/` |
| Routes.RoutePrefixAgreesWithAction | main.go:108-110 | a matched path lies under the prefix of its own action and under no other action's prefix |
| Routes.DispatchRejectsInvalidPath | main.go:60-65 | any path the validator rejects answers 404 and leaves the store unchanged, whatever its prefix |
| Routes.DispatchRunsMatchedHandler | main.go:60-66 | an accepted path runs the handler of the action it names, on the title it carries |
| Routes.DispatchStatus | main.go:60-103 | a request is answered 404 exactly when the validator rejects its path; every answer is 200, 302, 404 or 500, and every redirect is a 302 |
| Routes.RedirectLocationsAreRoutes | main.go:79 | the redirect targets `/edit/<title>` and `/view/<title>` are the edit and view route paths of the title |
| Routes.DispatchEffectOnStore | main.go:95-104 | only a successful save changes the store, and only at the file of a validated title, whose name has no `/` |
| Routes.ViewOfMissingPageLeadsToEmptyEditor | main.go:76-92 | viewing a missing page redirects to a location that the routes answer with an empty edit form for the same title |
| Routes.SaveThenFollowRedirectShowsBody | main.go:95-104 | saving and then following the redirect renders `view.html` with exactly the posted body |
| Scenarios.SaveTestHello | main.go:95-104 | posting `Hello` to `/save/Test` stores exactly `Hello` in `Test.txt` and redirects to `/view/Test` |
| Scenarios.OverwriteKeepsLastBody | main.go:18-20 | saving `A` twice through the routes leaves the second body |
| Scenarios.TraversalIsNotFound | main.go:52-65 | `/view/../../etc/passwd` fails the validator and answers 404 without touching the store |
| Scenarios.RejectedShapes | main.go:52 | an empty title, a title with `_`, an unknown action, trailing text after the title and a missing leading `/` are all rejected |

## Left out

- File I/O (`ioutil.ReadFile`, `ioutil.WriteFile`) and the 0600 permission bits: the directory is a map, and a refused write is the input flag `writeFails`.
- PageStore.Load: a file that exists but cannot be read is modelled as absent, since main.go reports every read failure alike.
- Handlers.SaveHandler: on a failed write the model keeps the directory as it was. In reality `WriteFile` may already have truncated or partly written the file. Only the 500 response is certain.
- PageStore.FileNameInjective: the directory is keyed by exact file name, as on a case-sensitive file system. Where names are compared without case, `Test` and `test` share one file, so distinct titles can share a file and saving one can change what another loads (this also affects PageStore.SaveLeavesOtherPages). Reserved device names such as `NUL.txt` on Windows are not modelled either.
- Handlers.RenderTemplate: `renderFails` stands for a failure before any output, such as an escaping error. A later failure answers 200 in the Go code: `ExecuteTemplate` has already written part of the page, which fixes the status, and the error text follows the truncated page. That case is not modelled.
- Template parsing at startup (main.go:38) and the templates' contents: rendering is the response `Render(name, page)`, and an execution error is the input flag `renderFails`.
- Error text in 500 responses: it is the operating system's or the template engine's message, which lies outside the model.
- Routes.Dispatch: `ServeMux` answers `/view`, `/edit` and `/save` with a 301 to the same path with a slash added. It answers an unclean path, such as one containing `..`, with a 301 to its cleaned form. `Dispatch` takes the path as `ServeMux` hands it to a handler. So the 404s stated by Routes.Dispatch, Routes.DispatchStatus and Scenarios.TraversalIsNotFound are the answers of makeHandler and of the default handler. They are not necessarily the first response the client gets.
- `net/http` internals: percent-decoding of the URL, and parsing of form bodies. The request arrives with its decoded path and its form fields already as bytes. The UTF-8 encoding of the `body` string is not modelled.
- `main`'s `ListenAndServe` and `log.Fatal` (main.go:112): process lifecycle, no request logic.
- Concurrency: each request runs in its own goroutine, with no locking. Racing saves of one title are not modelled; the model handles one request at a time.
