/** Slash-separated paths and decimal numerals as sequences of characters. */
module Text {
  /** `str::split('/')`: never empty, one more piece than there are slashes. */
  function Split(s: string): (parts: seq<string>)
    ensures parts != []
  {
    if s == [] then [""] else Grow(s[0], Split(s[1..]))
  }

  /** The pieces of a text that has one more character in front. */
  function Grow(c: char, parts: seq<string>): (grown: seq<string>)
    requires parts != []
    ensures grown != []
  {
    if c == '/' then [""] + parts else [[c] + parts[0]] + parts[1..]
  }

  lemma GrowConcat(c: char, xs: seq<string>, ys: seq<string>)
    requires xs != []
    ensures Grow(c, xs + ys) == Grow(c, xs) + ys
  {
    assert (xs + ys)[0] == xs[0];
    assert (xs + ys)[1..] == xs[1..] + ys;
    assert [""] + (xs + ys) == [""] + xs + ys;
  }

  /** `join("/")`. */
  function Join(parts: seq<string>): string {
    if parts == [] then ""
    else if |parts| == 1 then parts[0]
    else parts[0] + "/" + Join(parts[1..])
  }

  predicate SlashFree(s: string) {
    '/' !in s
  }

  ghost predicate AllSlashFree(parts: seq<string>) {
    forall k :: 0 <= k < |parts| ==> SlashFree(parts[k])
  }

  lemma {:induction false} SplitSlashFree(s: string)
    ensures AllSlashFree(Split(s))
  {
    if s != [] {
      SplitSlashFree(s[1..]);
    }
  }

  lemma {:induction false} SplitOne(s: string)
    requires SlashFree(s)
    ensures Split(s) == [s]
  {
    if s != [] {
      SplitOne(s[1..]);
      assert s == [s[0]] + s[1..];
    }
  }

  /** Splitting at a slash that is really there. */
  lemma {:induction false} SplitConcat(a: string, b: string)
    ensures Split(a + "/" + b) == Split(a) + Split(b)
  {
    if a == [] {
      assert (a + "/" + b)[0] == '/' && (a + "/" + b)[1..] == b;
    } else {
      assert (a + "/" + b)[0] == a[0] && (a + "/" + b)[1..] == a[1..] + "/" + b;
      SplitConcat(a[1..], b);
      GrowConcat(a[0], Split(a[1..]), Split(b));
    }
  }

  lemma {:induction false} SplitJoin(parts: seq<string>)
    requires parts != [] && AllSlashFree(parts)
    ensures Split(Join(parts)) == parts
    decreases |parts|
  {
    SplitOne(parts[0]);
    if |parts| > 1 {
      SplitJoin(parts[1..]);
      SplitConcat(parts[0], Join(parts[1..]));
      assert parts == [parts[0]] + parts[1..];
    }
  }

  lemma {:induction false} JoinSplit(s: string)
    ensures Join(Split(s)) == s
  {
    if s != [] {
      JoinSplit(s[1..]);
      var rest := Split(s[1..]);
      if s[0] == '/' {
        assert ([""] + rest)[1..] == rest;
      } else {
        var parts := [[s[0]] + rest[0]] + rest[1..];
        assert parts[1..] == rest[1..];
        if |rest| > 1 {
          assert [s[0]] + rest[0] + "/" + Join(rest[1..]) == [s[0]] + (rest[0] + "/" + Join(rest[1..]));
        }
      }
      assert s == [s[0]] + s[1..];
    }
  }

  /** Joins of slash-free pieces are equal only for equal pieces. */
  lemma JoinInjective(xs: seq<string>, ys: seq<string>)
    requires xs != [] && ys != [] && AllSlashFree(xs) && AllSlashFree(ys)
    requires Join(xs) == Join(ys)
    ensures xs == ys
  {
    SplitJoin(xs);
    SplitJoin(ys);
  }

  function Slashes(s: string): nat {
    if s == [] then 0 else (if s[0] == '/' then 1 else 0) + Slashes(s[1..])
  }

  lemma {:induction false} SlashesConcat(a: string, b: string)
    ensures Slashes(a + b) == Slashes(a) + Slashes(b)
  {
    if a == [] {
      assert a + b == b;
    } else {
      assert (a + b)[1..] == a[1..] + b;
      SlashesConcat(a[1..], b);
    }
  }

  lemma {:induction false} SlashFreeHasNone(s: string)
    requires SlashFree(s)
    ensures Slashes(s) == 0
  {
    if s != [] {
      SlashFreeHasNone(s[1..]);
    }
  }

  // ----- decimal numerals ----------------------------------------------------------------------

  const DIGITS: string := "0123456789"

  function Decimal(n: nat): (s: string)
    ensures s != []
  {
    if n < 10 then [DIGITS[n]] else Decimal(n / 10) + [DIGITS[n % 10]]
  }

  lemma DigitInjective(a: nat, b: nat)
    requires a < 10 && b < 10 && DIGITS[a] == DIGITS[b]
    ensures a == b
  {
  }

  lemma {:induction false} DecimalInjective(m: nat, n: nat)
    requires Decimal(m) == Decimal(n)
    ensures m == n
    decreases m
  {
    var s := Decimal(m);
    assert s[|s| - 1] == DIGITS[m % 10] == DIGITS[n % 10];
    DigitInjective(m % 10, n % 10);
    if m >= 10 && n >= 10 {
      assert Decimal(m / 10) == s[..|s| - 1] == Decimal(n / 10);
      DecimalInjective(m / 10, n / 10);
    }
  }
}
