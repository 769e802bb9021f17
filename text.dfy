/** The two string operations the domain layer relies on: Python's `str.strip()`
    (no argument) and `str.upper()`, the latter restricted to ASCII letters. */
module Text {

  /** The characters for which Python's `str.isspace()` holds, which are the
      characters `str.strip()` removes when given no argument. */
  predicate IsSpace(c: char) {
    || ('\t' <= c <= '\r')                 // tab, line feed, vertical tab, form feed, carriage return
    || ('\U{1C}' <= c <= '\U{1F}')         // file, group, record and unit separators
    || c == ' '
    || c == '\U{85}'                       // next line
    || c == '\U{A0}'                       // no-break space
    || c == '\U{1680}'
    || ('\U{2000}' <= c <= '\U{200A}')
    || c == '\U{2028}' || c == '\U{2029}'
    || c == '\U{202F}' || c == '\U{205F}' || c == '\U{3000}'
  }

  /** Every character of `s` is whitespace (the empty string included). */
  predicate Blank(s: string) {
    forall i :: 0 <= i < |s| ==> IsSpace(s[i])
  }

  /** `s` with its leading whitespace removed (see `TrimStartShape`). */
  function TrimStart(s: string): (r: string)
    ensures |r| <= |s|
  {
    if s != [] && IsSpace(s[0]) then TrimStart(s[1..]) else s
  }

  /** `s` with its trailing whitespace removed (see `TrimEndShape`). */
  function TrimEnd(s: string): (r: string)
    ensures |r| <= |s|
  {
    if s != [] && IsSpace(s[|s| - 1]) then TrimEnd(s[..|s| - 1]) else s
  }

  /** `TrimStart(s)` is the suffix of `s` left after dropping a blank prefix,
      and it does not itself start with whitespace. */
  lemma {:induction false} TrimStartShape(s: string)
    ensures TrimStart(s) == s[|s| - |TrimStart(s)|..]
    ensures Blank(s[..|s| - |TrimStart(s)|])
    ensures TrimStart(s) != [] ==> !IsSpace(TrimStart(s)[0])
  {
    if s != [] && IsSpace(s[0]) {
      TrimStartShape(s[1..]);
      var k := |s| - |TrimStart(s)|;
      assert s[..k] == [s[0]] + s[1..][..k - 1];
    }
  }

  /** `TrimEnd(s)` is the prefix of `s` left after dropping a blank suffix,
      and it does not itself end with whitespace. */
  lemma {:induction false} TrimEndShape(s: string)
    ensures TrimEnd(s) == s[..|TrimEnd(s)|]
    ensures Blank(s[|TrimEnd(s)|..])
    ensures TrimEnd(s) != [] ==> !IsSpace(TrimEnd(s)[|TrimEnd(s)| - 1])
  {
    if s != [] && IsSpace(s[|s| - 1]) {
      var s' := s[..|s| - 1];
      TrimEndShape(s');
      var k := |TrimEnd(s)|;
      assert s[k..] == s'[k..] + [s[|s| - 1]];
    }
  }

  /** Python's `s.strip()`: the result neither starts nor ends with whitespace. */
  function Strip(s: string): (r: string)
    ensures |r| <= |s|
    ensures r != [] ==> !IsSpace(r[0]) && !IsSpace(r[|r| - 1])
  {
    TrimStartShape(s);
    TrimEndShape(TrimStart(s));
    assert TrimEnd(TrimStart(s)) != [] ==> TrimEnd(TrimStart(s))[0] == TrimStart(s)[0];
    TrimEnd(TrimStart(s))
  }

  /** A string already stripped: empty, or neither starting nor ending with whitespace. */
  predicate Trimmed(s: string) {
    s == [] || (!IsSpace(s[0]) && !IsSpace(s[|s| - 1]))
  }

  lemma {:induction false} TrimStartOfPadded(pre: string, w: string)
    requires Blank(pre) && w != [] && !IsSpace(w[0])
    ensures TrimStart(pre + w) == w
  {
    if pre == [] {
      assert pre + w == w;
    } else {
      assert (pre + w)[1..] == pre[1..] + w;
      TrimStartOfPadded(pre[1..], w);
    }
  }

  lemma {:induction false} TrimEndOfPadded(w: string, post: string)
    requires Blank(post) && w != [] && !IsSpace(w[|w| - 1])
    ensures TrimEnd(w + post) == w
  {
    if post == [] {
      assert w + post == w;
    } else {
      var s := w + post;
      assert s[..|s| - 1] == w + post[..|post| - 1];
      TrimEndOfPadded(w, post[..|post| - 1]);
    }
  }

  /** Stripping removes exactly the whitespace padding around a trimmed, non-empty core. */
  lemma StripPadded(pre: string, w: string, post: string)
    requires Blank(pre) && Blank(post)
    requires w != [] && Trimmed(w)
    ensures Strip(pre + w + post) == w
  {
    assert pre + w + post == pre + (w + post);
    TrimStartOfPadded(pre, w + post);
    TrimEndOfPadded(w, post);
  }

  /** `strip()` yields the empty string exactly when the input is all whitespace. */
  lemma StripEmptyIffBlank(s: string)
    ensures Strip(s) == [] <==> Blank(s)
  {
    var t := TrimStart(s);
    TrimStartShape(s);
    TrimEndShape(t);
    assert s == s[..|s| - |t|] + t;
    assert t[0..] == t;
  }

  /** A trimmed string is unchanged by `strip()`. */
  lemma StripTrimmed(s: string)
    requires Trimmed(s)
    ensures Strip(s) == s
  {
    if s != [] {
      assert [] + s + [] == s;
      StripPadded([], s, []);
    }
  }

  /** `strip()` is idempotent. */
  lemma StripIdempotent(s: string)
    ensures Strip(Strip(s)) == Strip(s)
  {
    StripTrimmed(Strip(s));
  }

  /** Python's `str.upper()` on one character, for ASCII letters only. */
  function UpperChar(c: char): char {
    if 'a' <= c <= 'z' then (c as int - 32) as char else c
  }

  /** Python's `s.upper()`, mapping ASCII `a`-`z` to `A`-`Z` and leaving every other character alone. */
  function Upper(s: string): (r: string)
    ensures |r| == |s|
  {
    if s == [] then [] else [UpperChar(s[0])] + Upper(s[1..])
  }

  /** Upper-casing works character by character. */
  lemma {:induction false} UpperAt(s: string, i: int)
    requires 0 <= i < |s|
    ensures Upper(s)[i] == UpperChar(s[i])
  {
    if i > 0 {
      UpperAt(s[1..], i - 1);
    }
  }

  /** Upper-casing leaves a string without lower-case ASCII letters unchanged. */
  lemma UpperOfNoLower(s: string)
    requires forall i :: 0 <= i < |s| ==> !('a' <= s[i] <= 'z')
    ensures Upper(s) == s
  {
    forall i | 0 <= i < |s| ensures Upper(s)[i] == s[i] {
      UpperAt(s, i);
    }
  }

  /** Upper-casing never turns a non-space character into whitespace or back. */
  lemma UpperKeepsSpace(c: char)
    ensures IsSpace(UpperChar(c)) <==> IsSpace(c)
  {
  }
}
