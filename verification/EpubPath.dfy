/** Collapsing archive member paths, in the role of "Remove Dot Segments" (section 5.2.4 of RFC 3986),
    except that empty segments go too. */
module EpubPath {
  import opened Wrappers
  import opened Text

  predicate Clean(segment: string) {
    segment != "" && segment != "." && segment != ".." && SlashFree(segment)
  }

  ghost predicate AllClean(stack: seq<string>) {
    forall k :: 0 <= k < |stack| ==> Clean(stack[k])
  }

  function Pushed(stack: seq<string>, segment: string): seq<string> {
    if segment == "" || segment == "." then stack
    else if segment == ".." then (if stack == [] then [] else stack[..|stack| - 1])
    else stack + [segment]
  }

  /** The stack after a list of segments. */
  function Walk(stack: seq<string>, segments: seq<string>): seq<string>
    decreases |segments|
  {
    if segments == [] then stack else Walk(Pushed(stack, segments[0]), segments[1..])
  }

  function Collapse(path: string): string {
    Join(Walk([], Split(path)))
  }

  method CollapseZipPathSegments(path: string) returns (r: string)
    ensures r == Collapse(path)
  {
    var segments := Split(path);
    var stack: seq<string> := [];
    var i := 0;
    while i < |segments|
      invariant i <= |segments| && Walk(stack, segments[i..]) == Walk([], segments)
    {
      var segment := segments[i];
      assert segments[i..][1..] == segments[i + 1..];
      if segment == "" || segment == "." {
      } else if segment == ".." {
        if stack != [] {
          stack := stack[..|stack| - 1];
        }
      } else {
        stack := stack + [segment];
      }
      i := i + 1;
    }
    assert segments[i..] == [];
    r := Join(stack);
  }

  lemma {:induction false} WalkConcat(stack: seq<string>, xs: seq<string>, ys: seq<string>)
    ensures Walk(stack, xs + ys) == Walk(Walk(stack, xs), ys)
    decreases |xs|
  {
    if xs == [] {
      assert xs + ys == ys;
    } else {
      assert (xs + ys)[1..] == xs[1..] + ys;
      WalkConcat(Pushed(stack, xs[0]), xs[1..], ys);
    }
  }

  lemma {:induction false} WalkClean(stack: seq<string>, segments: seq<string>)
    requires AllClean(stack) && AllSlashFree(segments)
    ensures AllClean(Walk(stack, segments))
    decreases |segments|
  {
    if segments != [] {
      assert AllSlashFree(segments[1..]);
      WalkClean(Pushed(stack, segments[0]), segments[1..]);
    }
  }

  /** Clean segments are pushed one after the other. */
  lemma {:induction false} WalkOfClean(stack: seq<string>, segments: seq<string>)
    requires AllClean(segments)
    ensures Walk(stack, segments) == stack + segments
    decreases |segments|
  {
    if segments != [] {
      assert AllClean(segments[1..]);
      assert Clean(segments[0]);
      WalkOfClean(stack + [segments[0]], segments[1..]);
      assert stack + [segments[0]] + segments[1..] == stack + segments;
    } else {
      assert stack + segments == stack;
    }
  }

  /** What a collapsed path splits into: nothing but the stack. */
  lemma CollapsedSegments(path: string)
    ensures var stack := Walk([], Split(path));
            AllClean(stack) && Split(Collapse(path)) == if stack == [] then [""] else stack
  {
    SplitSlashFree(path);
    WalkClean([], Split(path));
    var stack := Walk([], Split(path));
    if stack != [] {
      forall k | 0 <= k < |stack| ensures SlashFree(stack[k]) {
        assert Clean(stack[k]);
      }
      SplitJoin(stack);
    }
  }

  /** A collapsed path is empty or made of segments that are neither empty nor "." nor "..": it never
      leaves the archive root. */
  lemma CollapseNeverEscapes(path: string)
    ensures Collapse(path) == "" || AllClean(Split(Collapse(path)))
  {
    CollapsedSegments(path);
  }

  lemma WalkCollapsed(stack: seq<string>, path: string)
    ensures Walk(stack, Split(Collapse(path))) == stack + Walk([], Split(path))
  {
    CollapsedSegments(path);
    var inner := Walk([], Split(path));
    if inner == [] {
      assert Split(Collapse(path)) == [""];
      assert [""][1..] == [];
      assert Walk(stack, [""]) == Walk(Pushed(stack, ""), []);
      assert stack + inner == stack;
    } else {
      WalkOfClean(stack, inner);
    }
  }

  lemma CollapseIdempotent(path: string)
    ensures Collapse(Collapse(path)) == Collapse(path)
  {
    WalkCollapsed([], path);
    assert [] + Walk([], Split(path)) == Walk([], Split(path));
  }

  /** Collapsing the base first makes no difference, so joins compose. */
  lemma CollapseComposes(base: string, href: string)
    ensures Collapse(base + "/" + href) == Collapse(Collapse(base) + "/" + href)
  {
    SplitConcat(base, href);
    SplitConcat(Collapse(base), href);
    WalkConcat([], Split(base), Split(href));
    WalkConcat([], Split(Collapse(base)), Split(href));
    WalkCollapsed([], base);
    assert [] + Walk([], Split(base)) == Walk([], Split(base));
  }

  lemma CollapseLeadingSlash(path: string)
    ensures Collapse("/" + path) == Collapse(path)
  {
    assert "" + "/" + path == "/" + path;
    SplitConcat("", path);
    assert Split("") == [""];
    WalkConcat([], [""], Split(path));
    assert [""][1..] == [];
    assert Walk([], [""]) == Walk(Pushed([], ""), []) == [];
  }

  lemma CollapseTrailingSlash(path: string)
    ensures Collapse(path + "/") == Collapse(path)
  {
    assert path + "/" + "" == path + "/";
    SplitConcat(path, "");
    assert Split("") == [""];
    WalkConcat([], Split(path), [""]);
    assert [""][1..] == [];
    var stack := Walk([], Split(path));
    assert Walk(stack, [""]) == Walk(Pushed(stack, ""), []);
  }

  // ----- the rules of collapsing ---------------------------------------------------------------

  lemma CollapseInside(a: string, x: string, b: string)
    ensures Collapse(a + "/" + x + "/" + b) == Join(Walk(Walk(Walk([], Split(a)), Split(x)), Split(b)))
  {
    SplitConcat(a + "/" + x, b);
    SplitConcat(a, x);
    WalkConcat([], Split(a) + Split(x), Split(b));
    WalkConcat([], Split(a), Split(x));
  }

  lemma WalkOne(stack: seq<string>, x: string)
    requires SlashFree(x)
    ensures Walk(stack, Split(x)) == Pushed(stack, x)
  {
    SplitOne(x);
    assert [x][1..] == [];
    assert Walk(stack, [x]) == Walk(Pushed(stack, x), []);
  }

  /** ".." takes the segment before it away. */
  lemma ParentUndoesSegment(a: string, x: string, b: string)
    requires Clean(x)
    ensures Collapse(a + "/" + x + "/../" + b) == Collapse(a + "/" + b)
  {
    assert a + "/" + x + "/../" + b == (a + "/" + x) + "/" + ".." + "/" + b;
    CollapseInside(a + "/" + x, "..", b);
    SplitConcat(a, x);
    WalkConcat([], Split(a), Split(x));
    var stack := Walk([], Split(a));
    WalkOne(stack, x);
    WalkOne(stack + [x], "..");
    assert (stack + [x])[..|stack|] == stack;
    SplitConcat(a, b);
    WalkConcat([], Split(a), Split(b));
  }

  /** "." and empty segments make no difference. */
  lemma DotsVanish(a: string, x: string, b: string)
    requires x == "." || x == ""
    ensures Collapse(a + "/" + x + "/" + b) == Collapse(a + "/" + b)
  {
    CollapseInside(a, x, b);
    WalkOne(Walk([], Split(a)), x);
    SplitConcat(a, b);
    WalkConcat([], Split(a), Split(b));
  }

  /** ".." at the root stays there. */
  lemma ParentOfRoot(b: string)
    ensures Collapse("../" + b) == Collapse(b)
  {
    assert ".." + "/" + b == "../" + b;
    SplitConcat("..", b);
    WalkConcat([], Split(".."), Split(b));
    WalkOne([], "..");
  }

  /** A path of clean segments is left alone. */
  lemma CleanPathStays(segments: seq<string>)
    requires AllClean(segments)
    ensures Collapse(Join(segments)) == Join(segments)
  {
    if segments == [] {
      WalkOne([], "");
    } else {
      forall k | 0 <= k < |segments| ensures SlashFree(segments[k]) {
        assert Clean(segments[k]);
      }
      SplitJoin(segments);
      WalkOfClean([], segments);
      assert [] + segments == segments;
    }
  }

  // ----- joining -------------------------------------------------------------------------------

  function TrimLeadingSlashes(s: string): string {
    if s != "" && s[0] == '/' then TrimLeadingSlashes(s[1..]) else s
  }

  function ForwardSlashes(s: string): string {
    if s == "" then "" else [if s[0] == '\\' then '/' else s[0]] + ForwardSlashes(s[1..])
  }

  function NormalizedZipPath(path: string): string {
    ForwardSlashes(TrimLeadingSlashes(path))
  }

  /** The part before the first `#` or `?`. */
  function WithoutFragment(href: string): string {
    if href == "" || href[0] == '#' || href[0] == '?' then "" else [href[0]] + WithoutFragment(href[1..])
  }

  function JoinEpubPath(base: string, href: string): string {
    var h := NormalizedZipPath(WithoutFragment(href));
    Collapse(if h == "" then base else if base == "" then h else base + "/" + h)
  }

  /** The fragment or query goes: what is left is the longest part without `#` and `?`. */
  lemma {:induction false} FragmentCut(href: string)
    ensures var h := WithoutFragment(href);
            h <= href && '#' !in h && '?' !in h && (|h| < |href| ==> href[|h|] == '#' || href[|h|] == '?')
  {
    if href != "" && href[0] != '#' && href[0] != '?' {
      FragmentCut(href[1..]);
    }
  }

  /** Backslashes become slashes, one for one. */
  lemma {:induction false} ForwardEach(s: string)
    ensures |ForwardSlashes(s)| == |s|
    ensures forall k :: 0 <= k < |s| ==> ForwardSlashes(s)[k] == if s[k] == '\\' then '/' else s[k]
  {
    if s != "" {
      ForwardEach(s[1..]);
    }
  }

  lemma {:induction false} TrimmedBy(s: string, n: nat)
    requires n <= |s| && (forall k :: 0 <= k < n ==> s[k] == '/') && (n < |s| ==> s[n] != '/')
    ensures TrimLeadingSlashes(s) == s[n..]
    decreases n
  {
    if n > 0 {
      TrimmedBy(s[1..], n - 1);
      assert s[1..][n - 1..] == s[n..];
    } else {
      assert s[0..] == s;
    }
  }

  /** Leading slashes go first, then the backslashes of the rest become slashes. */
  lemma NormalizedIs(path: string, n: nat)
    requires n <= |path| && (forall k :: 0 <= k < n ==> path[k] == '/') && (n < |path| ==> path[n] != '/')
    ensures |NormalizedZipPath(path)| == |path| - n
    ensures forall k :: 0 <= k < |path| - n ==>
              NormalizedZipPath(path)[k] == if path[n + k] == '\\' then '/' else path[n + k]
  {
    TrimmedBy(path, n);
    ForwardEach(path[n..]);
  }

  /** A plain reference is resolved below its base, and with a leading ".." one step up from it. */
  lemma JoinPlain(base: string, dir: string, href: string)
    requires base != "" && Clean(dir) && href != "" && href[0] != '/'
    requires '#' !in href && '?' !in href && '\\' !in href
    ensures JoinEpubPath("", href) == Collapse(href)
    ensures JoinEpubPath(base, href) == Collapse(base + "/" + href)
    ensures JoinEpubPath(base + "/" + dir, "../" + href) == Collapse(base + "/" + href)
  {
    PlainHref(href);
    PlainHref("../" + href);
    assert base + "/" + dir + "/" + ("../" + href) == base + "/" + dir + "/../" + href;
    ParentUndoesSegment(base, dir, href);
  }

  lemma PlainHref(href: string)
    requires href != "" && href[0] != '/' && '#' !in href && '?' !in href && '\\' !in href
    ensures NormalizedZipPath(WithoutFragment(href)) == href
  {
    FragmentFixes(href);
    ForwardFixes(href);
  }

  /** Joining depends on its base only up to collapsing, and gives a collapsed path. */
  lemma JoinComposes(base: string, href: string)
    ensures JoinEpubPath(Collapse(base), href) == JoinEpubPath(base, href)
    ensures Collapse(JoinEpubPath(base, href)) == JoinEpubPath(base, href)
  {
    var h := NormalizedZipPath(WithoutFragment(href));
    if h == "" {
      CollapseIdempotent(base);
    } else {
      CollapseComposes(base, h);
      if Collapse(base) == "" {
        assert "" + "/" + h == "/" + h;
        CollapseLeadingSlash(h);
      }
    }
    CollapseIdempotent(if h == "" then base else if base == "" then h else base + "/" + h);
  }

  /** `rsplit_once('/')`. */
  function RSplitSlash(path: string): (r: Option<(string, string)>)
    ensures r.Some? <==> '/' in path
    ensures r.Some? ==> path == r.value.0 + "/" + r.value.1 && '/' !in r.value.1
    decreases |path|
  {
    if path == "" then None
    else if path[|path| - 1] == '/' then Some((path[..|path| - 1], ""))
    else
      var last := path[|path| - 1];
      assert path == path[..|path| - 1] + [last];
      match RSplitSlash(path[..|path| - 1])
      case None => None
      case Some((parent, name)) =>
        assert parent + "/" + name + [last] == parent + "/" + (name + [last]);
        Some((parent, name + [last]))
  }

  function OpfParentDir(opf: string): string {
    match RSplitSlash(NormalizedZipPath(opf))
    case Some((parent, _)) => parent
    case None => ""
  }

  function OpfName(opf: string): string {
    match RSplitSlash(NormalizedZipPath(opf))
    case Some((_, name)) => name
    case None => NormalizedZipPath(opf)
  }

  lemma {:induction false} NormalizedHasNoBackslash(s: string)
    ensures '\\' !in ForwardSlashes(s)
  {
    if s != "" {
      NormalizedHasNoBackslash(s[1..]);
    }
  }

  lemma {:induction false} NormalizeFixes(s: string)
    requires '\\' !in s && '/' !in s
    ensures NormalizedZipPath(s) == s
  {
    ForwardFixes(s);
  }

  lemma {:induction false} ForwardFixes(s: string)
    requires '\\' !in s
    ensures ForwardSlashes(s) == s
  {
    if s != "" {
      ForwardFixes(s[1..]);
    }
  }

  lemma {:induction false} FragmentFixes(s: string)
    requires '#' !in s && '?' !in s
    ensures WithoutFragment(s) == s
  {
    if s != "" {
      FragmentFixes(s[1..]);
    }
  }

  /** The package file, named relative to its own directory, resolves to itself. */
  lemma PackageResolvesToItself(opf: string)
    requires '#' !in OpfName(opf) && '?' !in OpfName(opf)
    ensures JoinEpubPath(OpfParentDir(opf), OpfName(opf)) == Collapse(NormalizedZipPath(opf))
  {
    var path, name := NormalizedZipPath(opf), OpfName(opf);
    NormalizedHasNoBackslash(TrimLeadingSlashes(opf));
    FragmentFixes(name);
    NormalizeFixes(name);
    if RSplitSlash(path).Some? {
      var parent := RSplitSlash(path).value.0;
      if name == "" {
        CollapseTrailingSlash(parent);
        assert path == parent + "/";
      } else if parent == "" {
        assert path == "/" + name;
        CollapseLeadingSlash(name);
      }
    }
  }
}
