/** The navigation sidebar's test for whether a link points at the current page. */
module Sidebar {
  import opened Text

  /** `isActive(path)` against the current `pathname`: the root link only on the root page;
      any other link on every page whose path starts with it. */
  function IsActive(path: string, pathname: string): (active: bool)
    ensures path == "/" ==> (active <==> pathname == "/")
    ensures path != "/" ==> (active <==> StartsWith(pathname, path))
  {
    if path == "/" && pathname == "/" then true
    else if path != "/" && StartsWith(pathname, path) then true
    else false
  }

  /** The root link is never active away from the root page. */
  lemma RootInactiveElsewhere(pathname: string)
    requires pathname != "/"
    ensures !IsActive("/", pathname)
  {
  }

  /** The match is a plain prefix with no segment boundary: `/chat` is active on
      `/chatroom`. */
  lemma PrefixWithoutBoundary()
    ensures IsActive("/chat", "/chatroom")
  {
    assert "/chatroom"[..5] == "/chat";
  }

  /** A link is active on its own page and on every page below it. */
  lemma ActiveBelow(path: string, rest: string)
    requires path != "/"
    ensures IsActive(path, path + rest)
  {
    assert (path + rest)[..|path|] == path;
  }
}
