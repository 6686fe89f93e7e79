/** Concrete request sequences against the wiki, each stated for every
    starting directory. */
module Scenarios {
  import opened Options
  import opened PageStore
  import opened PathValidator
  import opened Handlers
  import opened Routes

  const NoFaults := Env(false, false)

  /** The bytes of the text `Hello`. */
  const Hello: seq<byte> := [72, 101, 108, 108, 111]

  /** Posting `Hello` to `/save/Test` stores exactly `Hello` under `Test.txt`,
      loads back as that page and redirects to `/view/Test`. */
  lemma SaveTestHello(store: Store)
    ensures var r := Dispatch(store, Request("/save/Test", map["body" := Hello]), NoFaults);
      && r.response == Redirect("/view/Test", 302)
      && Load(r.store, "Test") == Ok(Page("Test", Hello))
      && "Test.txt" in r.store && r.store["Test.txt"] == Hello
  {
    MatchPathComplete(SaveAction, "Test");
    assert RoutePath(SaveAction, "Test") == "/save/Test";
    DispatchRunsMatchedHandler(store, Request("/save/Test", map["body" := Hello]), NoFaults);
    assert FileName("Test") == "Test.txt";
  }

  /** Saving `x` and then `y` under `A` leaves `y` as the page's body. */
  lemma OverwriteKeepsLastBody(store: Store, x: seq<byte>, y: seq<byte>)
    ensures var s1 := Dispatch(store, Request("/save/A", map["body" := x]), NoFaults).store;
      var s2 := Dispatch(s1, Request("/save/A", map["body" := y]), NoFaults).store;
      Load(s2, "A") == Ok(Page("A", y))
  {
    MatchPathComplete(SaveAction, "A");
    assert RoutePath(SaveAction, "A") == "/save/A";
    var s1 := Dispatch(store, Request("/save/A", map["body" := x]), NoFaults).store;
    DispatchRunsMatchedHandler(store, Request("/save/A", map["body" := x]), NoFaults);
    DispatchRunsMatchedHandler(s1, Request("/save/A", map["body" := y]), NoFaults);
  }

  /** A path that tries to climb out of the working directory fails the
      validator and is answered 404 before the directory is consulted. */
  lemma TraversalIsNotFound(store: Store, form: Form, env: Env)
    ensures MatchPath("/view/../../etc/passwd").None?
    ensures Dispatch(store, Request("/view/../../etc/passwd", form), env) == Outcome(store, NotFound)
  {
  }

  /** A title with a character outside `[a-zA-Z0-9]`, or an action outside
      the three, is not matched; neither is a path with trailing text after
      the title. */
  lemma RejectedShapes()
    ensures MatchPath("/view/").None?
    ensures MatchPath("/view/Front_Page").None?
    ensures MatchPath("/show/Front").None?
    ensures MatchPath("/view/Front/").None?
    ensures MatchPath("view/Front").None?
  {
    assert "/view/Front_Page"[6..] == "Front_Page";
    assert ScanAlnum("Front_Page", 0) == 5;
    assert "/show/Front"[1..5] == "show";
    assert "/view/Front/"[6..] == "Front/";
    assert ScanAlnum("Front/", 0) == 5;
  }
}
