/** A simplified stand-in for Go's path.Join, used by the router to compose
    group prefixes and route paths. Only the slash at the seam is normalised:
    the empty element is dropped, and one trailing slash of the prefix and one
    leading slash of the element are merged into a single separator. */
module Paths {

  function TrimTrailingSlash(s: string): (r: string)
    ensures r == s || s == r + "/"
  {
    if |s| > 0 && s[|s| - 1] == '/' then s[..|s| - 1] else s
  }

  function TrimLeadingSlash(s: string): (r: string)
    ensures r == s || s == "/" + r
  {
    if |s| > 0 && s[0] == '/' then s[1..] else s
  }

  /** Joins a prefix and a path element with exactly one slash between them. */
  function Join(prefix: string, elem: string): (p: string)
    ensures prefix == "" ==> p == elem
    ensures elem == "" ==> p == prefix
    ensures prefix != "" && elem != "" && prefix[|prefix| - 1] != '/' && elem[0] != '/' ==>
      p == prefix + "/" + elem
  {
    if prefix == "" then elem
    else if elem == "" then prefix
    else TrimTrailingSlash(prefix) + "/" + TrimLeadingSlash(elem)
  }

  /** The joined path of a group prefix and a route element (router_test.go: "/group" and "get"). */
  lemma JoinGroupExample()
    ensures Join("/group", "get") == "/group/get"
    ensures Join("/group", "/get") == "/group/get"
    ensures Join("", "/get") == "/get"
  {
  }
}
