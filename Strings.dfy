/** The PHP string primitives the core relies on: `str_starts_with`,
    `str_ends_with`, `str_replace`, `strtolower` and the decimal rendering of
    integers by `(string)`. */
module Strings {

  predicate StartsWith(s: string, prefix: string) {
    |prefix| <= |s| && s[..|prefix|] == prefix
  }

  /** `str_ends_with`. */
  predicate EndsWith(s: string, suffix: string) {
    |suffix| <= |s| && s[|s| - |suffix|..] == suffix
  }

  /** True iff `p` occurs somewhere in `s`. */
  predicate Contains(s: string, p: string)
    decreases |s|
  {
    StartsWith(s, p) || (|s| > 0 && Contains(s[1..], p))
  }

  /** `p` occurs in `s` at offset `o`. */
  predicate MatchAt(s: string, p: string, o: nat) {
    o + |p| <= |s| && s[o..o + |p|] == p
  }

  /** An occurrence of `p` in `s` is witnessed by an offset, and conversely. */
  lemma {:induction false} ContainsAt(s: string, p: string, i: nat)
    requires i + |p| <= |s|
    ensures s[i..i + |p|] == p ==> Contains(s, p)
    decreases i
  {
    if i > 0 && s[i..i + |p|] == p {
      assert s[1..][i - 1..i - 1 + |p|] == s[i..i + |p|];
      ContainsAt(s[1..], p, i - 1);
    }
  }

  lemma {:induction false} ContainsWitness(s: string, p: string) returns (i: nat)
    requires Contains(s, p)
    ensures i + |p| <= |s| && s[i..i + |p|] == p
    decreases |s|
  {
    if StartsWith(s, p) {
      i := 0;
    } else {
      var j := ContainsWitness(s[1..], p);
      assert s[1..][j..j + |p|] == s[j + 1..j + 1 + |p|];
      i := j + 1;
    }
  }

  /** `str_replace(p, r, s)` for one search string: a left-to-right scan that
      replaces every non-overlapping occurrence of `p`; an empty search string
      leaves the subject alone. */
  function ReplaceAll(s: string, p: string, r: string): string
    decreases |s|
  {
    if |p| == 0 || |s| < |p| then s
    else if s[..|p|] == p then r + ReplaceAll(s[|p|..], p, r)
    else [s[0]] + ReplaceAll(s[1..], p, r)
  }

  /** A subject in which the search string does not occur comes back unchanged. */
  lemma {:induction false} ReplaceAllWithoutMatch(s: string, p: string, r: string)
    requires !Contains(s, p)
    ensures ReplaceAll(s, p, r) == s
    decreases |s|
  {
    if |p| == 0 || |s| < |p| {
    } else {
      assert !StartsWith(s, p);
      ReplaceAllWithoutMatch(s[1..], p, r);
    }
  }

  /** A subject that is exactly the search string becomes the replacement. */
  lemma ReplaceAllWhole(p: string, r: string)
    requires |p| > 0
    ensures ReplaceAll(p, p, r) == r
  {
    assert p[|p|..] == [];
  }

  /** No character of `s` is `c`. */
  predicate Omits(s: string, c: char) {
    forall i :: 0 <= i < |s| ==> s[i] != c
  }

  /** A prefix lacking the search string's first character is passed over
      unchanged: the scan starts afresh after it. */
  lemma {:induction false} ReplaceAllSkip(x: string, y: string, p: string, r: string)
    requires |p| > 0 && Omits(x, p[0])
    ensures ReplaceAll(x + y, p, r) == x + ReplaceAll(y, p, r)
    decreases |x|
  {
    if x == [] {
      assert x + y == y;
    } else if |x + y| < |p| {
      assert ReplaceAll(y, p, r) == y;
    } else {
      assert (x + y)[..|p|][0] == x[0];
      assert (x + y)[1..] == x[1..] + y;
      ReplaceAllSkip(x[1..], y, p, r);
    }
  }

  /** A subject lacking the search string's first character comes back unchanged. */
  lemma ReplaceAllOmitted(s: string, p: string, r: string)
    requires |p| > 0 && Omits(s, p[0])
    ensures ReplaceAll(s, p, r) == s
  {
    ReplaceAllSkip(s, [], p, r);
    assert s + [] == s;
  }

  /** One occurrence between text that cannot start another one is replaced,
      and the text around it is kept. */
  lemma ReplaceAllOccurrence(a: string, p: string, b: string, r: string)
    requires |p| > 0 && Omits(a, p[0]) && Omits(b, p[0])
    ensures ReplaceAll(a + p + b, p, r) == a + r + b
  {
    assert a + p + b == a + (p + b);
    ReplaceAllSkip(a, p + b, p, r);
    assert (p + b)[..|p|] == p && (p + b)[|p|..] == b;
    ReplaceAllOmitted(b, p, r);
    assert a + (r + b) == a + r + b;
  }

  function LowerChar(c: char): (d: char)
    ensures 'A' <= c <= 'Z' ==> 'a' <= d <= 'z'
    ensures !('A' <= c <= 'Z') ==> d == c
  {
    if 'A' <= c <= 'Z' then (c as int - 'A' as int + 'a' as int) as char else c
  }

  /** `strtolower`: ASCII letters only, every other character as it is. */
  function Lower(s: string): (t: string)
    ensures |t| == |s|
    ensures forall i :: 0 <= i < |s| ==> t[i] == LowerChar(s[i])
  {
    if s == [] then [] else [LowerChar(s[0])] + Lower(s[1..])
  }

  /** Lower-casing twice is lower-casing once. */
  lemma LowerIdempotent(s: string)
    ensures Lower(Lower(s)) == Lower(s)
  {
    assert forall i :: 0 <= i < |s| ==> LowerChar(LowerChar(s[i])) == LowerChar(s[i]);
  }

  predicate IsDigit(c: char) {
    '0' <= c <= '9'
  }

  predicate AllDigits(s: string) {
    forall i :: 0 <= i < |s| ==> IsDigit(s[i])
  }

  function DigitChar(d: nat): (c: char)
    requires d < 10
    ensures IsDigit(c) && c as int - '0' as int == d
  {
    ('0' as int + d) as char
  }

  /** The decimal digits of `n`, most significant first, without leading zeros. */
  function NatToString(n: nat): (s: string)
    ensures |s| >= 1 && AllDigits(s)
    ensures s[0] == '0' ==> n == 0
    decreases n
  {
    if n < 10 then [DigitChar(n)] else NatToString(n / 10) + [DigitChar(n % 10)]
  }

  /** PHP's `(string)` of an integer: an optional minus sign, then the digits. */
  function IntToString(i: int): string {
    if i < 0 then "-" + NatToString(-i) else NatToString(i)
  }

  /** The number a string of decimal digits denotes. */
  function DigitsValue(s: string): nat
    requires AllDigits(s)
  {
    if s == [] then 0
    else DigitsValue(s[..|s| - 1]) * 10 + (s[|s| - 1] as int - '0' as int)
  }

  /** Reading back the decimal rendering of a natural number gives the number. */
  lemma {:induction false} DigitsValueOfNatToString(n: nat)
    ensures DigitsValue(NatToString(n)) == n
    decreases n
  {
    if n >= 10 {
      var s := NatToString(n);
      assert s[..|s| - 1] == NatToString(n / 10);
      DigitsValueOfNatToString(n / 10);
    }
  }

  /** Distinct natural numbers render differently. */
  lemma NatToStringInjective(m: nat, n: nat)
    ensures NatToString(m) == NatToString(n) ==> m == n
  {
    DigitsValueOfNatToString(m);
    DigitsValueOfNatToString(n);
  }
}

/** The parts of PHP's `dirname`, `basename` and `pathinfo` the drivers use. */
module Paths {
  import opened Wrappers

  /** The index of the last occurrence of `c` in `s`. */
  function LastIndexOf(s: string, c: char): (r: Option<nat>)
    ensures r.Some? ==> r.value < |s| && s[r.value] == c
    ensures r.Some? ==> forall j :: r.value < j < |s| ==> s[j] != c
    ensures r.None? ==> forall j :: 0 <= j < |s| ==> s[j] != c
    decreases |s|
  {
    if s == [] then None
    else if s[|s| - 1] == c then Some(|s| - 1)
    else LastIndexOf(s[..|s| - 1], c)
  }

  /** `basename`: everything after the last slash. */
  function Basename(p: string): string {
    match LastIndexOf(p, '/')
    case None => p
    case Some(i) => p[i + 1..]
  }

  /** The string without its trailing run of slashes. */
  function TrimSlashes(s: string): (r: string)
    ensures |r| <= |s| && r == s[..|r|]
    ensures r == [] || r[|r| - 1] != '/'
    ensures forall j :: |r| <= j < |s| ==> s[j] == '/'
    decreases |s|
  {
    if s != [] && s[|s| - 1] == '/' then TrimSlashes(s[..|s| - 1]) else s
  }

  /** `dirname`: everything before the run of slashes that ends at the last
      slash; "." when there is no slash, "/" when only slashes precede the
      base name. */
  function Dirname(p: string): string {
    if p == "" then ""
    else match LastIndexOf(p, '/')
      case None => "."
      case Some(i) =>
        var d := TrimSlashes(p[..i]);
        if d == [] then "/" else d
  }

  /** `pathinfo($p, PATHINFO_EXTENSION)`: the text after the last dot of the base name. */
  function Extension(p: string): string {
    var b := Basename(p);
    match LastIndexOf(b, '.')
    case None => ""
    case Some(i) => b[i + 1..]
  }

  /** `pathinfo($p, PATHINFO_FILENAME)`: the base name without its extension. */
  function Stem(p: string): string {
    var b := Basename(p);
    match LastIndexOf(b, '.')
    case None => b
    case Some(i) => b[..i]
  }

  /** The base name carries no slash. */
  lemma BasenameHasNoSlash(p: string)
    ensures forall j :: 0 <= j < |Basename(p)| ==> Basename(p)[j] != '/'
  {
  }

  /** A path whose directory is not the root is its directory, a non-empty
      run of slashes and its base name; the directory does not end in a slash. */
  lemma DirnameBasename(p: string)
    requires LastIndexOf(p, '/').Some? && Dirname(p) != "/"
    ensures var d := Dirname(p); var b := Basename(p);
            0 < |d| && d[|d| - 1] != '/' && |d| + |b| < |p| &&
            p == d + p[|d|..|p| - |b|] + b &&
            forall j :: |d| <= j < |p| - |b| ==> p[j] == '/'
  {
    var i := LastIndexOf(p, '/').value;
    var d := TrimSlashes(p[..i]);
    SplitAtLastSlash(p, i);
    RunOfSlashes(p, i, d);
  }

  /** Repeated slashes before the base name belong to no part: the directory
      of "a//b" is "a", and that of "//b" is the root. */
  lemma RepeatedSlashes()
    ensures Dirname("a//b") == "a" && Basename("a//b") == "b"
    ensures Dirname("//b") == "/" && Basename("//b") == "b"
  {
    LastSlashAt("a//b", 2);
    SplitAtLastSlash("a//b", 2);
    assert "a//b"[..2] == "a/";
    assert "a/"[..1] == "a";
    assert TrimSlashes("a/") == TrimSlashes("a");
    LastSlashAt("//b", 1);
    SplitAtLastSlash("//b", 1);
    assert "//b"[..1] == "/";
    assert "/"[..0] == "";
  }

  lemma SplitAtLastSlash(p: string, i: nat)
    requires LastIndexOf(p, '/') == Some(i)
    ensures Basename(p) == p[i + 1..]
    ensures TrimSlashes(p[..i]) != [] ==> Dirname(p) == TrimSlashes(p[..i])
    ensures TrimSlashes(p[..i]) == [] ==> Dirname(p) == "/"
  {
  }

  lemma RunOfSlashes(p: string, i: nat, d: string)
    requires i < |p| && p[i] == '/' && d == TrimSlashes(p[..i])
    ensures |d| <= i && p == d + p[|d|..i + 1] + p[i + 1..]
    ensures forall j :: |d| <= j < i + 1 ==> p[j] == '/'
  {
    var t := p[..i];
    assert d == p[..|d|];
    forall j | |d| <= j < i + 1 ensures p[j] == '/' {
      if j < i { assert p[j] == t[j]; }
    }
    assert p == p[..|d|] + p[|d|..i + 1] + p[i + 1..];
  }

  /** With a single slash before the base name, directory, slash and base
      name give back the path. */
  lemma DirnameSlashBasename(p: string)
    requires LastIndexOf(p, '/').Some? && LastIndexOf(p, '/').value > 0
    requires p[LastIndexOf(p, '/').value - 1] != '/'
    ensures Dirname(p) + "/" + Basename(p) == p
  {
    var i := LastIndexOf(p, '/').value;
    var t := p[..i];
    assert t[|t| - 1] != '/';
    assert TrimSlashes(t) == t;
    SplitAtLastSlash(p, i);
    assert p == t + [p[i]] + p[i + 1..];
  }

  /** Stem, dot and extension put back together give the base name. */
  lemma StemExtension(p: string)
    requires LastIndexOf(Basename(p), '.').Some?
    ensures Stem(p) + "." + Extension(p) == Basename(p)
  {
    var b := Basename(p);
    var i := LastIndexOf(b, '.').value;
    assert b == b[..i] + [b[i]] + b[i + 1..];
  }

  /** A base name without a dot has no extension and is its own stem. */
  lemma NoDotNoExtension(p: string)
    requires forall j :: 0 <= j < |Basename(p)| ==> Basename(p)[j] != '.'
    ensures Extension(p) == "" && Stem(p) == Basename(p)
  {
  }

  /** The extension of `dir/stem.ext`, for a directory, stem and extension
      without the separators that would move the split points. */
  lemma {:induction false} ExtensionOfJoin(dir: string, stem: string, ext: string)
    requires forall j :: 0 <= j < |stem| ==> stem[j] != '/'
    requires forall j :: 0 <= j < |ext| ==> ext[j] != '/' && ext[j] != '.'
    ensures Basename(dir + "/" + stem + "." + ext) == stem + "." + ext
    ensures Extension(dir + "/" + stem + "." + ext) == ext
    ensures Stem(dir + "/" + stem + "." + ext) == stem
  {
    var p := dir + "/" + stem + "." + ext;
    var b := stem + "." + ext;
    var k := |dir|;
    assert p[k] == '/';
    assert forall j :: k < j < |p| ==> p[j] != '/' by {
      forall j | k < j < |p| ensures p[j] != '/' {
        if j < k + 1 + |stem| { assert p[j] == stem[j - k - 1]; }
        else if j == k + 1 + |stem| { assert p[j] == '.'; }
        else { assert p[j] == ext[j - k - 2 - |stem|]; }
      }
    }
    LastSlashAt(p, k);
    assert p[k + 1..] == b;
    var d := |stem|;
    assert b[d] == '.';
    assert forall j :: d < j < |b| ==> b[j] != '.' by {
      forall j | d < j < |b| ensures b[j] != '.' { assert b[j] == ext[j - d - 1]; }
    }
    LastDotAt(b, d);
    assert b[..d] == stem && b[d + 1..] == ext;
  }

  lemma LastSlashAt(p: string, k: nat)
    requires k < |p| && p[k] == '/'
    requires forall j :: k < j < |p| ==> p[j] != '/'
    ensures LastIndexOf(p, '/') == Some(k)
  {
    var r := LastIndexOf(p, '/');
    assert r.Some? && r.value >= k;
  }

  lemma LastDotAt(b: string, d: nat)
    requires d < |b| && b[d] == '.'
    requires forall j :: d < j < |b| ==> b[j] != '.'
    ensures LastIndexOf(b, '.') == Some(d)
  {
    var r := LastIndexOf(b, '.');
    assert r.Some? && r.value >= d;
  }
}
