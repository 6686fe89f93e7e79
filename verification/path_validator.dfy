/** The request-path validator of main.go: the pattern
    `^/(edit|save|view)/([a-zA-Z0-9]+)$`, matched against the whole path,
    written out as a small hand-made parser. */
module PathValidator {
  import opened Options
  import PageStore

  /** The three actions the first path segment may name. */
  datatype Action = EditAction | SaveAction | ViewAction

  /** A successful match: the first capture group as an action and the
      second capture group, the page title. */
  datatype Match = Match(action: Action, title: string)

  /** The path segment that names an action. */
  function ActionName(a: Action): (w: string)
    ensures |w| == 4
  {
    match a
    case EditAction => "edit"
    case SaveAction => "save"
    case ViewAction => "view"
  }

  /** The alternation `(edit|save|view)`: recognises an action name. */
  function ParseAction(w: string): (r: Option<Action>)
    ensures r.Some? ==> ActionName(r.value) == w
    ensures forall a :: ActionName(a) == w ==> r == Some(a)
  {
    if w == "edit" then Some(EditAction)
    else if w == "save" then Some(SaveAction)
    else if w == "view" then Some(ViewAction)
    else None
  }

  /** The character class `[a-zA-Z0-9]`. */
  predicate IsAlnum(c: char) {
    ('a' <= c <= 'z') || ('A' <= c <= 'Z') || ('0' <= c <= '9')
  }

  /** What the second capture group accepts: `[a-zA-Z0-9]+`. */
  predicate ValidTitle(t: string) {
    |t| > 0 && forall k :: 0 <= k < |t| ==> IsAlnum(t[k])
  }

  /** The path that names action `a` on the page titled `t`. */
  function RoutePath(a: Action, t: string): string {
    "/" + ActionName(a) + "/" + t
  }

  /** The end of the longest run of alphanumeric characters of `s` that
      starts at `i`. */
  function ScanAlnum(s: string, i: nat): (j: nat)
    requires i <= |s|
    ensures i <= j <= |s|
    ensures forall k :: i <= k < j ==> IsAlnum(s[k])
    ensures j < |s| ==> !IsAlnum(s[j])
    decreases |s| - i
  {
    if i == |s| || !IsAlnum(s[i]) then i else ScanAlnum(s, i + 1)
  }

  /** `validPath.FindStringSubmatch`: the match of the whole path, or `None`
      where the Go code gets a nil match. Every successful match yields a
      valid title and is exactly the path it came from. */
  function MatchPath(path: string): (r: Option<Match>)
    ensures r.Some? ==> ValidTitle(r.value.title)
    ensures r.Some? ==> path == RoutePath(r.value.action, r.value.title)
  {
    if |path| < 7 || path[0] != '/' || path[5] != '/' then None
    else
      match ParseAction(path[1..5])
      case None => None
      case Some(a) =>
        var t := path[6..];
        if ScanAlnum(t, 0) == |t| then
          assert path == RoutePath(a, t);
          Some(Match(a, t))
        else None
  }

  /** Every path of the pattern's shape is matched, and the title handed on
      is exactly the one in the path. With the ensures of `MatchPath`, a path
      matches if and only if it is `RoutePath(a, t)` for a valid title `t`. */
  lemma MatchPathComplete(a: Action, t: string)
    requires ValidTitle(t)
    ensures MatchPath(RoutePath(a, t)) == Some(Match(a, t))
  {
  }

  /** A path matches exactly when it has the pattern's shape. */
  lemma MatchPathIff(path: string)
    ensures MatchPath(path).Some? <==> exists a, t :: ValidTitle(t) && path == RoutePath(a, t)
  {
  }

  /** A title that passed the validator cannot leave the working directory:
      its file name has no `/`, is not `.` or `..`, and its only
      dot is the one of the extension. */
  lemma MatchedTitleIsSafe(path: string)
    requires MatchPath(path).Some?
    ensures '/' !in MatchPath(path).value.title
    ensures '.' !in MatchPath(path).value.title
    ensures '/' !in PageStore.FileName(MatchPath(path).value.title)
    ensures forall k :: 0 <= k < |PageStore.FileName(MatchPath(path).value.title)| &&
                        PageStore.FileName(MatchPath(path).value.title)[k] == '.' ==>
                        k == |MatchPath(path).value.title|
  {
  }
}
