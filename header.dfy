/**
 * The navigation bar of src/components/Header.tsx: which links it shows and
 * the rule `NavLink` uses to highlight the link of the current page.
 */
module Header {

  /** The props of a `NavLink` that decide whether it is highlighted. */
  datatype NavLink = NavLink(to: string, caption: string, exact: bool)

  /** `exact = false` in the destructuring of the props: a missing flag means a prefix match. */
  function MakeNavLink(to: string, caption: string, exact: bool := false): NavLink {
    NavLink(to, caption, exact)
  }

  /** `exact ? current === to : current.startsWith(to)`. */
  predicate IsActive(link: NavLink, current: string) {
    if link.exact then current == link.to else link.to <= current
  }

  /** An exact link is active only on its own path, a prefix link on every path below it too. */
  lemma IsActiveSpec(link: NavLink, current: string)
    ensures link.exact ==> (IsActive(link, current) <==> current == link.to)
    ensures !link.exact ==>
      (IsActive(link, current) <==> |link.to| <= |current| && current[..|link.to|] == link.to)
  {
  }

  /** A link made without the flag is active on its own path and on every path below it. */
  lemma DefaultIsPrefix(to: string, caption: string, current: string)
    ensures IsActive(MakeNavLink(to, caption), current) <==> |to| <= |current| && current[..|to|] == to
    ensures IsActive(MakeNavLink(to, caption), to)
  {
  }

  /** Equality implies the prefix match: whatever is active as an exact link is active as a prefix link. */
  lemma ExactImpliesPrefix(link: NavLink, current: string)
    ensures IsActive(link.(exact := true), current) ==> IsActive(link.(exact := false), current)
  {
  }

  const Home: NavLink := MakeNavLink("/", "Home", true)
  const Detect: NavLink := MakeNavLink("/detect", "Detect")
  const Results: NavLink := MakeNavLink("/results", "Results")

  /** The links the bar shows: `Home` always, `Detect` and `Results` only for a signed-in user. */
  function NavLinks(signedIn: bool): (links: seq<NavLink>)
    ensures |links| == (if signedIn then 3 else 1) && links[0] == Home
    ensures signedIn <==> Detect in links && Results in links
  {
    if signedIn then [Home, Detect, Results] else [Home]
  }

  /**
   * Home is active only at "/", although every path starts with "/"; the
   * other two links stay active on their sub-paths, such as `/results/abc`.
   */
  lemma LinkExamples(current: string)
    ensures IsActive(Home, current) <==> current == "/"
    ensures IsActive(Results, "/results/abc") && !IsActive(Detect, "/results/abc")
    ensures !IsActive(Home, "/results/abc")
    ensures IsActive(Detect, "/detect") && IsActive(Detect, "/detect/")
  {
    assert "/results" <= "/results/abc";
    assert !("/detect" <= "/results/abc") by {
      assert "/detect"[1] != "/results/abc"[1];
    }
  }

  /** Whatever the path, the bar highlights at most one of its links. */
  lemma AtMostOneActive(signedIn: bool, current: string, i: nat, j: nat)
    requires i < j < |NavLinks(signedIn)|
    ensures !(IsActive(NavLinks(signedIn)[i], current) && IsActive(NavLinks(signedIn)[j], current))
  {
    var links := NavLinks(signedIn);
    if i > 0 {
      assert links[i] == Detect && links[j] == Results;
      assert Detect.to[1] != Results.to[1];
    }
  }
}
