/** The placeholder engine of the orchestrator: explicit data merged call by
    call, an optional external handler whose data replaces it, and the
    rewrite of `{{ key }}` tokens in markup. */
module Placeholders {
  import opened Wrappers
  import opened Strings

  /** A placeholder value. `Composite` stands for everything that is neither
      scalar nor has `__toString` (arrays, null, plain objects). */
  datatype Value = Text(s: string) | Integer(i: int) | Stringable(str: string) | Composite

  /** Only scalars and stringable objects take part in substitution. */
  predicate Eligible(v: Value) {
    !v.Composite?
  }

  /** PHP's `(string)` of an eligible value. */
  function Render(v: Value): string
    requires Eligible(v)
  {
    match v
    case Text(s) => s
    case Integer(i) => IntToString(i)
    case Stringable(s) => s
  }

  predicate UniqueKeys(d: seq<(string, Value)>) {
    forall i, j :: 0 <= i < j < |d| ==> d[i].0 != d[j].0
  }

  /** A PHP array with string keys: entries in insertion order, each key once. */
  type Data = d: seq<(string, Value)> | UniqueKeys(d) witness []

  /** The position of key `k`. */
  function IndexOf(d: Data, k: string): (r: Option<nat>)
    ensures r.Some? ==> r.value < |d| && d[r.value].0 == k
    ensures r.None? ==> forall j :: 0 <= j < |d| ==> d[j].0 != k
  {
    if |d| == 0 then None
    else if d[|d| - 1].0 == k then Some(|d| - 1)
    else IndexOf(d[..|d| - 1], k)
  }

  /** `$data[$k] ?? null`. */
  function Lookup(d: Data, k: string): Option<Value> {
    match IndexOf(d, k)
    case None => None
    case Some(i) => Some(d[i].1)
  }

  /** The entry at position `j` is what its key looks up. */
  lemma LookupAt(d: Data, j: nat)
    requires j < |d|
    ensures Lookup(d, d[j].0) == Some(d[j].1)
  {
  }

  /** `$d[$k] = $v`: overwrite in place when the key is there, append otherwise. */
  function Put(d: Data, k: string, v: Value): (r: Data)
    ensures Lookup(r, k) == Some(v)
    ensures forall k' :: k' != k ==> Lookup(r, k') == Lookup(d, k')
    ensures |r| >= |d| && forall j :: 0 <= j < |d| ==> r[j].0 == d[j].0
  {
    match IndexOf(d, k)
    case Some(i) =>
      var r: Data := d[i := (k, v)];
      LookupAt(r, i);
      forall k' | k' != k ensures Lookup(r, k') == Lookup(d, k') {
        var o := IndexOf(d, k');
        if o.Some? { LookupAt(r, o.value); }
      }
      r
    case None =>
      var r: Data := d + [(k, v)];
      LookupAt(r, |d|);
      forall k' | k' != k ensures Lookup(r, k') == Lookup(d, k') {
        var o := IndexOf(d, k');
        if o.Some? { LookupAt(r, o.value); }
      }
      r
  }

  /** `array_merge($a, $b)` for string keys: every entry of `b` in order,
      overwriting in place or appending. */
  function Merge(a: Data, b: Data): (r: Data)
    ensures |r| >= |a| && forall j :: 0 <= j < |a| ==> r[j].0 == a[j].0
    ensures forall k :: Lookup(r, k) == if Lookup(b, k).Some? then Lookup(b, k) else Lookup(a, k)
    decreases |b|
  {
    if b == [] then a
    else
      var rest: Data := b[1..];
      var r := Merge(Put(a, b[0].0, b[0].1), rest);
      forall k ensures Lookup(r, k) == if Lookup(b, k).Some? then Lookup(b, k) else Lookup(a, k) {
        LookupFirst(b, k);
      }
      r
  }

  /** Looking a key up in non-empty data: the first entry, else the rest. */
  lemma LookupFirst(b: Data, k: string)
    requires |b| > 0
    ensures Lookup(b, k) == if k == b[0].0 then Some(b[0].1) else Lookup(b[1..], k)
  {
    var rest: Data := b[1..];
    var o := IndexOf(rest, k);
    if k == b[0].0 {
      LookupAt(b, 0);
    } else if o.Some? {
      LookupAt(b, o.value + 1);
      LookupAt(rest, o.value);
    }
  }

  /** Merging later data over earlier: the later value wins on a shared key,
      and a key the later data lacks keeps its earlier value. */
  lemma MergeOverrides(a: Data, b: Data, k: string)
    ensures Lookup(b, k).Some? ==> Lookup(Merge(a, b), k) == Lookup(b, k)
    ensures Lookup(b, k).None? ==> Lookup(Merge(a, b), k) == Lookup(a, k)
  {
  }

  /** An external placeholder handler, by the methods it exposes. */
  datatype Handler = Handler(
    toArray: Option<Data>,
    getPlaceholders: Option<Data>,
    resolve: Option<Data>)

  /** `resolvePlaceholderHandlerData`: the first capability the handler has,
      in the order toArray, getPlaceholders, resolve; no handler or no
      capability gives the empty array. */
  function HandlerData(h: Option<Handler>): Data {
    if h.None? then []
    else if h.value.toArray.Some? then h.value.toArray.value
    else if h.value.getPlaceholders.Some? then h.value.getPlaceholders.value
    else if h.value.resolve.Some? then h.value.resolve.value
    else []
  }

  /** The data substitution uses: the handler's data when a handler is
      attached (the explicit data is then ignored, not merged), else the
      explicit data. */
  function EffectiveData(h: Option<Handler>, explicit: Data): Data {
    if h.Some? then HandlerData(h) else explicit
  }

  /** The four spellings of the token for key `k`, in the order they are replaced. */
  function Tokens(k: string): seq<string> {
    ["{{ " + k + " }}", "{{" + k + "}}", "{{ " + k + "}}", "{{" + k + " }}"]
  }

  /** One `str_replace` call with the four spellings as search array. */
  function ReplaceTokens(content: string, k: string, text: string): string {
    var t := Tokens(k);
    ReplaceAll(ReplaceAll(ReplaceAll(ReplaceAll(content, t[0], text), t[1], text), t[2], text), t[3], text)
  }

  /** One iteration of the substitution loop. */
  function Step(content: string, entry: (string, Value)): string {
    if Eligible(entry.1) then ReplaceTokens(content, entry.0, Render(entry.1)) else content
  }

  /** The substitution: a left fold of `Step` over the data, in data order. */
  function Substituted(content: string, d: seq<(string, Value)>): string
    decreases |d|
  {
    if d == [] then content else Substituted(Step(content, d[0]), d[1..])
  }

  /** The loop of `processPlaceholders`, without the handler choice. */
  method Substitute(content: string, d: Data) returns (r: string)
    ensures r == Substituted(content, d)
  {
    r := content;
    var i := 0;
    while i < |d|
      invariant 0 <= i <= |d|
      invariant Substituted(r, d[i..]) == Substituted(content, d)
    {
      var (key, value) := d[i];
      assert d[i..][1..] == d[i + 1..];
      if Eligible(value) {
        r := ReplaceTokens(r, key, Render(value));
      }
      i := i + 1;
    }
    assert d[i..] == [];
  }

  /** Substituting with `a` then `b` is substituting with `a + b`. */
  lemma {:induction false} SubstitutedConcat(c: string, a: seq<(string, Value)>, b: seq<(string, Value)>)
    ensures Substituted(c, a + b) == Substituted(Substituted(c, a), b)
    decreases |a|
  {
    if a == [] {
      assert a + b == b;
    } else {
      assert (a + b)[1..] == a[1..] + b;
      SubstitutedConcat(Step(c, a[0]), a[1..], b);
    }
  }

  /** Data whose values are all ineligible leaves the content verbatim. */
  lemma {:induction false} IneligibleValuesSkipped(c: string, d: seq<(string, Value)>)
    requires forall i :: 0 <= i < |d| ==> !Eligible(d[i].1)
    ensures Substituted(c, d) == c
    decreases |d|
  {
    if d != [] {
      IneligibleValuesSkipped(c, d[1..]);
    }
  }

  /** No offset matches, so no occurrence. */
  lemma {:induction false} NoOffsetNoMatch(s: string, p: string)
    requires forall o: nat :: !MatchAt(s, p, o)
    ensures !Contains(s, p)
    decreases |s|
  {
    if |s| > 0 {
      forall o: nat ensures !MatchAt(s[1..], p, o) {
        assert !MatchAt(s, p, o + 1);
        if o + |p| <= |s| - 1 {
          assert s[1..][o..o + |p|] == s[o + 1..o + 1 + |p|];
        }
      }
      NoOffsetNoMatch(s[1..], p);
    }
    assert !MatchAt(s, p, 0);
  }

  /** Every token begins with "{{", so content without "{{" holds none of them. */
  lemma TokenNotIn(c: string, k: string, t: string)
    requires t in Tokens(k)
    requires !Contains(c, "{{")
    ensures !Contains(c, t)
  {
    if Contains(c, t) {
      var o := ContainsWitness(c, t);
      assert c[o..o + 2] == t[..2];
      ContainsAt(c, "{{", o);
    }
  }

  /** Content with no "{{" at all is returned unchanged, whatever the data. */
  lemma {:induction false} NoTokensUnchanged(c: string, d: seq<(string, Value)>)
    requires !Contains(c, "{{")
    ensures Substituted(c, d) == c
    decreases |d|
  {
    if d != [] {
      if Eligible(d[0].1) {
        var t := Tokens(d[0].0);
        var v := Render(d[0].1);
        TokenNotIn(c, d[0].0, t[0]); ReplaceAllWithoutMatch(c, t[0], v);
        TokenNotIn(c, d[0].0, t[1]); ReplaceAllWithoutMatch(c, t[1], v);
        TokenNotIn(c, d[0].0, t[2]); ReplaceAllWithoutMatch(c, t[2], v);
        TokenNotIn(c, d[0].0, t[3]); ReplaceAllWithoutMatch(c, t[3], v);
      }
      NoTokensUnchanged(c, d[1..]);
    }
  }

  /** A key the tokens can be told apart by: non-empty, without braces or spaces. */
  predicate PlainKey(k: string) {
    |k| > 0 && forall i :: 0 <= i < |k| ==> k[i] != '{' && k[i] != '}' && k[i] != ' '
  }

  /** A token spelling does not contain any spelling replaced before it. */
  lemma {:induction false} EarlierTokenAbsent(k: string, i: nat, j: nat)
    requires PlainKey(k)
    requires i < j < 4
    ensures !Contains(Tokens(k)[j], Tokens(k)[i])
  {
    var t := Tokens(k)[j];
    var p := Tokens(k)[i];
    assert i == 0 ==> p == "{{ " + k + " }}";
    assert i == 1 ==> p == "{{" + k + "}}" && p[1] == '{' && p[2] == k[0] && p[|k| + 2] == '}';
    assert i == 2 ==> p == "{{ " + k + "}}" && p[1] == '{' && p[2] == ' ';
    assert j == 2 ==> t == "{{ " + k + "}}" && t[2] == ' ';
    assert j == 3 ==> t == "{{" + k + " }}" && t[2] == k[0] && t[|k| + 2] == ' ';
    forall o: nat ensures !MatchAt(t, p, o) {
      // each case names one position where the two spellings differ
      if o + |p| <= |t| {
        if i == 1 && j == 2 {
          if o == 0 { assert t[o..o + |p|][2] != p[2]; } else { assert t[o..o + |p|][1] != p[1]; }
        } else if i == 1 && j == 3 {
          if o == 0 { assert t[o..o + |p|][|k| + 2] != p[|k| + 2]; } else { assert t[o..o + |p|][1] != p[1]; }
        } else if i == 2 && j == 3 {
          assert t[o..o + |p|][2] != p[2];
        }
      }
    }
    NoOffsetNoMatch(t, p);
  }

  /** Every spelling opens with "{{" and holds no other '{'. */
  lemma TokenShape(k: string, j: nat)
    requires PlainKey(k) && j < 4
    ensures |Tokens(k)[j]| >= 5 && Tokens(k)[j][..2] == "{{" && Omits(Tokens(k)[j][2..], '{')
  {
    var t := Tokens(k)[j];
    var body := if j == 0 then " " + k + " }}" else if j == 1 then k + "}}" else if j == 2 then " " + k + "}}" else k + " }}";
    assert t == "{{" + body;
    assert t[2..] == body;
  }

  /** Two different spellings differ at a position both of them have. */
  lemma TokensDiffer(k: string, i: nat, j: nat) returns (n: nat)
    requires PlainKey(k) && i < j < 4
    ensures n < |Tokens(k)[i]| && n < |Tokens(k)[j]| && Tokens(k)[i][n] != Tokens(k)[j][n]
  {
    var t := Tokens(k);
    if (i, j) == (0, 2) {
      n := |k| + 3;
    } else if (i, j) == (1, 3) {
      n := |k| + 2;
    } else {
      n := 2;
    }
    assert t[0] == "{{ " + k + " }}" && t[1] == "{{" + k + "}}";
    assert t[2] == "{{ " + k + "}}" && t[3] == "{{" + k + " }}";
  }

  /** A spelling replaced before the one present leaves the text alone. */
  lemma EarlierSpellingKept(a: string, k: string, i: nat, j: nat, b: string, v: string)
    requires PlainKey(k) && i < j < 4 && Omits(a, '{') && Omits(b, '{')
    ensures ReplaceAll(a + Tokens(k)[j] + b, Tokens(k)[i], v) == a + Tokens(k)[j] + b
  {
    var p, t := Tokens(k)[i], Tokens(k)[j];
    TokenShape(k, i);
    TokenShape(k, j);
    assert p[0] == '{' && p[1] == '{' && t[0] == '{' && t[1] == '{' && t[2] != '{';
    var s := t + b;
    var n := TokensDiffer(k, i, j);
    if |s| >= |p| {
      assert s[..|p|][n] != p[n];
    }
    var s1 := s[1..];
    if |s1| >= |p| {
      assert s1[..|p|][1] != p[1];
    }
    var rest := s[2..];
    assert rest == t[2..] + b;
    assert Omits(rest, '{');
    ReplaceAllOmitted(rest, p, v);
    assert s1[1..] == rest;
    assert ReplaceAll(s1, p, v) == s1;
    assert ReplaceAll(s, p, v) == s;
    assert a + t + b == a + s;
    ReplaceAllSkip(a, s, p, v);
  }

  /** Each of the four spellings `{{ k }}`, `{{k}}`, `{{ k}}` and `{{k }}`
      becomes the value wherever it sits in the markup, the text around it
      kept, for a plain key and text and value without braces. */
  lemma EverySpellingReplaced(a: string, k: string, j: nat, b: string, v: string)
    requires PlainKey(k) && j < 4
    requires Omits(a, '{') && Omits(b, '{') && Omits(v, '{')
    ensures Substituted(a + Tokens(k)[j] + b, [(k, Text(v))]) == a + v + b
  {
    var t := Tokens(k);
    var s, done := a + t[j] + b, a + v + b;
    assert Omits(done, '{');
    TokenShape(k, 0);
    TokenShape(k, 1);
    TokenShape(k, 2);
    TokenShape(k, 3);
    assert t[0][0] == '{' && t[1][0] == '{' && t[2][0] == '{' && t[3][0] == '{';
    SpellingStep(a, k, 0, j, b, v);
    SpellingStep(a, k, 1, j, b, v);
    SpellingStep(a, k, 2, j, b, v);
    SpellingStep(a, k, 3, j, b, v);
    var d := [(k, Text(v))];
    assert Substituted(s, d) == Substituted(Step(s, d[0]), d[1..]);
    assert d[1..] == [];
  }

  /** The `i`-th search of one `str_replace` call: before the spelling
      present nothing changes, at it the token becomes the value, after it
      there is no token left. */
  lemma SpellingStep(a: string, k: string, i: nat, j: nat, b: string, v: string)
    requires PlainKey(k) && i < 4 && j < 4
    requires Omits(a, '{') && Omits(b, '{') && Omits(v, '{')
    ensures ReplaceAll(if i <= j then a + Tokens(k)[j] + b else a + v + b, Tokens(k)[i], v) ==
            if i < j then a + Tokens(k)[j] + b else a + v + b
  {
    var p := Tokens(k)[i];
    TokenShape(k, i);
    assert p[0] == '{';
    if i < j {
      EarlierSpellingKept(a, k, i, j, b, v);
    } else if i == j {
      ReplaceAllOccurrence(a, p, b, v);
    } else {
      var done := a + v + b;
      assert Omits(done, '{');
      ReplaceAllOmitted(done, p, v);
    }
  }

  /** The handler's capabilities are consulted in the fixed order toArray,
      getPlaceholders, resolve: the first one present is the only one used. */
  lemma HandlerPriority(a: Data, b: Data, c: Data)
    ensures HandlerData(Some(Handler(Some(a), Some(b), Some(c)))) == a
    ensures HandlerData(Some(Handler(None, Some(b), Some(c)))) == b
    ensures HandlerData(Some(Handler(None, None, Some(c)))) == c
    ensures HandlerData(Some(Handler(None, None, None))) == []
  {
  }

  /** Once a handler is attached the explicit data makes no difference. */
  lemma HandlerReplacesData(h: Handler, d1: Data, d2: Data)
    ensures EffectiveData(Some(h), d1) == EffectiveData(Some(h), d2) == HandlerData(Some(h))
  {
  }
}
