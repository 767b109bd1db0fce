/** Character and string operations the importer relies on: the literal,
    ASCII case-insensitive, global replacement that stands for the importer's
    `ig` regular expressions; removal of the first occurrence of a substring
    (JavaScript's `String.replace` with a string pattern); the base name of a
    vault path; and the decimal rendering of record ids. */
module Strings {

  /** ASCII lower-casing, the case folding given to the `i` flag. */
  function Lower(c: char): char {
    if 'A' <= c <= 'Z' then (c as int + 32) as char else c
  }

  /** `p` matches a prefix of `s` when ASCII case is ignored. */
  predicate StartsWithCI(s: string, p: string) {
    |p| <= |s| && forall j :: 0 <= j < |p| ==> Lower(s[j]) == Lower(p[j])
  }

  /** `p` occurs in `s` when ASCII case is ignored; the empty pattern occurs everywhere. */
  predicate OccursCI(s: string, p: string)
    decreases |s|
  {
    StartsWithCI(s, p) || (s != [] && OccursCI(s[1..], p))
  }

  predicate EndsWith(s: string, t: string) {
    |t| <= |s| && s[|s| - |t|..] == t
  }

  /** Global, case-insensitive replacement of the literal `p` by `r`, scanning
      left to right and resuming after each match, as `s.replace(new RegExp(p, "ig"), r)`
      does for a pattern without metacharacters. The empty pattern matches
      before every character and at the end. */
  function ReplaceAllCI(s: string, p: string, r: string): string
    decreases |s|
  {
    if p == [] then
      if s == [] then r else r + [s[0]] + ReplaceAllCI(s[1..], p, r)
    else if StartsWithCI(s, p) then r + ReplaceAllCI(s[|p|..], p, r)
    else if s == [] then []
    else [s[0]] + ReplaceAllCI(s[1..], p, r)
  }

  lemma {:induction false} ReplaceAllNeverShrinks(s: string, p: string, r: string)
    requires |p| <= |r|
    ensures |ReplaceAllCI(s, p, r)| >= |s|
    decreases |s|
  {
    if p == [] {
      if s != [] {
        ReplaceAllNeverShrinks(s[1..], p, r);
      }
    } else if StartsWithCI(s, p) {
      ReplaceAllNeverShrinks(s[|p|..], p, r);
    } else if s != [] {
      ReplaceAllNeverShrinks(s[1..], p, r);
    }
  }

  lemma {:induction false} ReplaceAllGrowsWhenFound(s: string, p: string, r: string)
    requires |p| < |r|
    requires OccursCI(s, p)
    ensures |ReplaceAllCI(s, p, r)| > |s|
    decreases |s|
  {
    if p == [] {
      if s != [] {
        ReplaceAllNeverShrinks(s[1..], p, r);
      }
    } else if StartsWithCI(s, p) {
      ReplaceAllNeverShrinks(s[|p|..], p, r);
    } else {
      ReplaceAllGrowsWhenFound(s[1..], p, r);
    }
  }

  lemma {:induction false} ReplaceAllIdentityWhenAbsent(s: string, p: string, r: string)
    requires !OccursCI(s, p)
    ensures ReplaceAllCI(s, p, r) == s
    decreases |s|
  {
    if s != [] {
      ReplaceAllIdentityWhenAbsent(s[1..], p, r);
    }
  }

  /** A replacement text longer than its pattern leaves `s` unchanged exactly
      when the pattern does not occur in `s`. */
  lemma ReplaceAllUnchangedIff(s: string, p: string, r: string)
    requires |p| < |r|
    ensures ReplaceAllCI(s, p, r) == s <==> !OccursCI(s, p)
  {
    if OccursCI(s, p) {
      ReplaceAllGrowsWhenFound(s, p, r);
    } else {
      ReplaceAllIdentityWhenAbsent(s, p, r);
    }
  }

  /** `s` with the first occurrence of `t` removed (case-sensitive), or `s`
      itself when `t` does not occur. */
  function RemoveFirst(s: string, t: string): string
    decreases |s|
  {
    if |s| < |t| then s
    else if s[..|t|] == t then s[|t|..]
    else [s[0]] + RemoveFirst(s[1..], t)
  }

  /** When the first character of `t` does not occur in `x`, the first
      occurrence of `t` in `x + t` is the trailing one. */
  lemma {:induction false} RemoveFirstAtEnd(x: string, t: string)
    requires t != []
    requires forall i :: 0 <= i < |x| ==> x[i] != t[0]
    ensures RemoveFirst(x + t, t) == x
    decreases |x|
  {
    if x == [] {
      assert (x + t)[..|t|] == t;
      assert (x + t)[|t|..] == [];
    } else {
      assert (x + t)[0] == x[0] != t[0];
      assert (x + t)[..|t|] != t;
      assert (x + t)[1..] == x[1..] + t;
      RemoveFirstAtEnd(x[1..], t);
      assert [x[0]] + x[1..] == x;
    }
  }

  /** The last segment of a `/`-separated path. */
  function Basename(path: string): string
    decreases |path|
  {
    if path == [] then []
    else if path[|path| - 1] == '/' then []
    else Basename(path[..|path| - 1]) + [path[|path| - 1]]
  }

  lemma {:induction false} BasenameAfterSlash(dir: string, name: string)
    requires forall i :: 0 <= i < |name| ==> name[i] != '/'
    ensures Basename(dir + "/" + name) == name
    decreases |name|
  {
    var path := dir + "/" + name;
    if name == [] {
      assert path == dir + "/";
    } else {
      var init := name[..|name| - 1];
      assert path[..|path| - 1] == dir + "/" + init;
      BasenameAfterSlash(dir, init);
      assert init + [name[|name| - 1]] == name;
    }
  }

  predicate IsDigit(c: char) {
    '0' <= c <= '9'
  }

  predicate AllDigits(s: string) {
    forall i :: 0 <= i < |s| ==> IsDigit(s[i])
  }

  function DigitChar(d: nat): char
    requires d < 10
  {
    ('0' as int + d) as char
  }

  function DigitValue(c: char): int {
    c as int - '0' as int
  }

  /** Decimal rendering of a natural number, without leading zeros. */
  function NatToString(n: nat): (s: string)
    ensures |s| > 0 && AllDigits(s)
    decreases n
  {
    if n < 10 then [DigitChar(n)] else NatToString(n / 10) + [DigitChar(n % 10)]
  }

  /** Decimal rendering of an integer, as a template literal renders an
      integral JavaScript number: a leading `-` for negative values. */
  function IntToString(i: int): string {
    if i < 0 then "-" + NatToString(-i) else NatToString(i)
  }

  /** The value of a string of decimal digits, most significant first. */
  function DigitsValue(s: string): int
    decreases |s|
  {
    if s == [] then 0 else DigitsValue(s[..|s| - 1]) * 10 + DigitValue(s[|s| - 1])
  }

  lemma {:induction false} NatToStringRoundTrip(n: nat)
    ensures DigitsValue(NatToString(n)) == n
    decreases n
  {
    var s := NatToString(n);
    if n >= 10 {
      assert s[..|s| - 1] == NatToString(n / 10);
      NatToStringRoundTrip(n / 10);
    }
  }

  /** The longest run of digits that ends `s`. */
  function TrailingDigits(s: string): (d: string)
    ensures |d| <= |s|
    decreases |s|
  {
    if s != [] && IsDigit(s[|s| - 1]) then TrailingDigits(s[..|s| - 1]) + [s[|s| - 1]] else []
  }

  lemma {:induction false} TrailingDigitsAfter(pre: string, ds: string)
    requires pre == [] || !IsDigit(pre[|pre| - 1])
    requires AllDigits(ds)
    ensures TrailingDigits(pre + ds) == ds
    decreases |ds|
  {
    var s := pre + ds;
    if ds == [] {
      assert s == pre;
    } else {
      var init := ds[..|ds| - 1];
      assert s[..|s| - 1] == pre + init;
      assert s[|s| - 1] == ds[|ds| - 1];
      assert IsDigit(s[|s| - 1]);
      assert TrailingDigits(s) == TrailingDigits(pre + init) + [ds[|ds| - 1]];
      TrailingDigitsAfter(pre, init);
      assert init + [ds[|ds| - 1]] == ds;
    }
  }
}
