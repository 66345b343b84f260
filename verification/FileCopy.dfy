/** Picking a display name that no sibling has. */
module FileCopy {
  import opened Wrappers
  import opened SetFacts
  import opened Text

  const U32_MAX: nat := 0xFFFF_FFFF

  /** `rsplit_once('.')`. */
  function RSplitDot(name: string): (r: Option<(string, string)>)
    ensures r.Some? <==> '.' in name
    ensures r.Some? ==> name == r.value.0 + "." + r.value.1 && '.' !in r.value.1
    decreases |name|
  {
    if name == "" then None
    else if name[|name| - 1] == '.' then Some((name[..|name| - 1], ""))
    else
      var last := name[|name| - 1];
      assert name == name[..|name| - 1] + [last];
      match RSplitDot(name[..|name| - 1])
      case None => None
      case Some((stem, ext)) =>
        assert stem + "." + ext + [last] == stem + "." + (ext + [last]);
        Some((stem, ext + [last]))
  }

  /** The text around the index: " (N)" goes before the extension, if there is one. */
  function Around(name: string): (string, string) {
    match RSplitDot(name)
    case Some((stem, ext)) => if '/' !in ext && '\\' !in ext then (stem + " (", ")." + ext) else (name + " (", ")")
    case None => (name + " (", ")")
  }

  function Disambiguated(name: string, index: nat): string {
    Around(name).0 + Decimal(index) + Around(name).1
  }

  /** The index goes before the extension, which is what follows the last dot unless it has a slash or
      backslash in it; without an extension it goes to the end. */
  lemma IndexGoesBeforeExtension(stem: string, ext: string, index: nat)
    requires '.' !in ext
    ensures Disambiguated(stem + "." + ext, index) ==
            if '/' in ext || '\\' in ext then stem + "." + ext + " (" + Decimal(index) + ")"
            else stem + " (" + Decimal(index) + ")." + ext
    ensures Disambiguated(ext, index) == ext + " (" + Decimal(index) + ")"
  {
    LastDot(stem, ext);
    assert stem + " (" + Decimal(index) + (")." + ext) == stem + " (" + Decimal(index) + ")." + ext;
  }

  lemma {:induction false} LastDot(stem: string, ext: string)
    requires '.' !in ext
    ensures RSplitDot(stem + "." + ext) == Some((stem, ext))
    decreases |ext|
  {
    var name := stem + "." + ext;
    if ext != "" {
      var init, last := ext[..|ext| - 1], ext[|ext| - 1];
      assert name[..|name| - 1] == stem + "." + init;
      LastDot(stem, init);
      assert init + [last] == ext;
    } else {
      assert name[..|name| - 1] == stem;
    }
  }

  /** Different indices give different names, none of them the base name. */
  lemma DisambiguatedInjective(name: string, i: nat, j: nat)
    ensures Disambiguated(name, i) != name
    ensures Disambiguated(name, i) == Disambiguated(name, j) ==> i == j
  {
    var (a, b) := Around(name);
    assert |Disambiguated(name, i)| > |name|;
    if Disambiguated(name, i) == Disambiguated(name, j) {
      assert |Decimal(i)| == |Decimal(j)|;
      assert Decimal(i) == Disambiguated(name, i)[|a|..|a| + |Decimal(i)|];
      assert Decimal(j) == Disambiguated(name, j)[|a|..|a| + |Decimal(j)|];
      DecimalInjective(i, j);
    }
  }

  predicate Free(taken: set<string>, name: string, index: nat) {
    Disambiguated(name, index) !in taken
  }

  /** The names with indices 2 to `n`, and the base name. */
  function Candidates(name: string, n: nat): set<string> {
    if n < 2 then {name} else Candidates(name, n - 1) + {Disambiguated(name, n)}
  }

  lemma {:induction false} CandidatesDistinct(name: string, n: nat, later: nat)
    requires 1 <= n < later
    ensures |Candidates(name, n)| == n && Disambiguated(name, later) !in Candidates(name, n)
    decreases n
  {
    DisambiguatedInjective(name, later, n);
    if n >= 2 {
      CandidatesDistinct(name, n - 1, n);
      CandidatesDistinct(name, n - 1, later);
    }
  }

  lemma {:induction false} CandidatesTaken(taken: set<string>, name: string, n: nat)
    requires name in taken && forall i :: 2 <= i <= n ==> !Free(taken, name, i)
    ensures Candidates(name, n) <= taken
    decreases n
  {
    if n >= 2 {
      CandidatesTaken(taken, name, n - 1);
      assert !Free(taken, name, n);
    }
  }

  /** Pigeonhole: with `n` names taken, one of the indices 2 to `n` + 1 is free. */
  lemma Pigeonhole(taken: set<string>, name: string, n: nat)
    requires name in taken && 1 <= n && forall i :: 2 <= i <= n ==> !Free(taken, name, i)
    ensures n <= |taken|
  {
    CandidatesDistinct(name, n, n + 1);
    CandidatesTaken(taken, name, n);
    SubsetAtMost(Candidates(name, n), taken);
  }

  /** The search ends for certain when fewer names are taken than there are index values. */
  lemma FreeIndexExists(taken: set<string>, name: string)
    requires name in taken && |taken| < U32_MAX
    ensures exists i :: 2 <= i <= U32_MAX && Free(taken, name, i)
  {
    if forall i :: 2 <= i <= U32_MAX ==> !Free(taken, name, i) {
      Pigeonhole(taken, name, U32_MAX);
    }
  }

  /** One more, within 32 bits. */
  function Saturated(index: nat): nat {
    if index >= U32_MAX then U32_MAX else index + 1
  }

  /** The index the search tries after this many misses. */
  function IndexAfter(misses: nat): nat {
    if misses == 0 then 2 else Saturated(IndexAfter(misses - 1))
  }

  lemma {:induction false} IndexAfterIs(misses: nat)
    ensures IndexAfter(misses) == if misses + 2 <= U32_MAX then misses + 2 else U32_MAX
  {
    if misses > 0 {
      IndexAfterIs(misses - 1);
    }
  }

  ghost predicate SearchEnds(taken: set<string>, name: string) {
    exists misses: nat :: Free(taken, name, IndexAfter(misses))
  }

  /** The search ends if and only if one of the index values is free. */
  lemma SearchEndsIff(taken: set<string>, name: string)
    ensures SearchEnds(taken, name) <==> exists i :: 2 <= i <= U32_MAX && Free(taken, name, i)
  {
    if misses: nat :| Free(taken, name, IndexAfter(misses)) {
      IndexAfterIs(misses);
    }
    if i :| 2 <= i <= U32_MAX && Free(taken, name, i) {
      IndexAfterIs(i - 2);
      assert Free(taken, name, IndexAfter(i - 2));
    }
  }

  /** `unique_name_in_folder`, wherever it returns. */
  method UniqueName(taken: set<string>, name: string) returns (r: string)
    requires name in taken ==> SearchEnds(taken, name)
    ensures r !in taken
    ensures name !in taken ==> r == name
    ensures name in taken ==>
              exists i :: 2 <= i <= |taken| + 1 && r == Disambiguated(name, i) &&
                forall j :: 2 <= j < i ==> !Free(taken, name, j)
  {
    if name !in taken {
      return name;
    }
    SearchEndsIff(taken, name);
    ghost var free :| 2 <= free <= U32_MAX && Free(taken, name, free);
    var index := FirstFree(taken, name, free);
    Pigeonhole(taken, name, index - 1);
    r := Disambiguated(name, index);
  }

  method FirstFree(taken: set<string>, name: string, ghost free: nat) returns (index: nat)
    requires 2 <= free <= U32_MAX && Free(taken, name, free)
    ensures 2 <= index <= free && Free(taken, name, index)
    ensures forall j :: 2 <= j < index ==> !Free(taken, name, j)
  {
    index := 2;
    while !Free(taken, name, index)
      invariant 2 <= index <= free
      invariant forall j :: 2 <= j < index ==> !Free(taken, name, j)
      decreases free - index
    {
      assert index != free;
      index := Saturated(index);
    }
  }
}
