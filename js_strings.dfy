/** Strings as JavaScript sees them: `String.prototype.trim`, ASCII case
    folding (what `toLowerCase` and a `/i` regular expression do on ASCII
    letters), and the `includes` / `endsWith` tests. */
module JsStrings {

  /** WhiteSpace and LineTerminator code points of ECMA-262, which `trim` removes. */
  predicate IsWhitespace(c: char) {
    || c == '\t' || c == '\n' || c == '\U{B}' || c == '\U{C}' || c == '\r'
    || c == ' ' || c == '\U{A0}' || c == '\U{1680}'
    || ('\U{2000}' <= c <= '\U{200A}')
    || c == '\U{2028}' || c == '\U{2029}' || c == '\U{202F}' || c == '\U{205F}'
    || c == '\U{3000}' || c == '\U{FEFF}'
  }

  ghost predicate AllWhitespace(s: string) {
    forall i :: 0 <= i < |s| ==> IsWhitespace(s[i])
  }

  /** `trimStart`: drops the leading whitespace (`TrimStartDropsWhitespace`). */
  function TrimStart(s: string): (r: string)
    ensures |r| <= |s|
    ensures r == [] || !IsWhitespace(r[0])
  {
    if s != [] && IsWhitespace(s[0]) then TrimStart(s[1..]) else s
  }

  /** `trimEnd`: drops the trailing whitespace (`TrimEndDropsWhitespace`). */
  function TrimEnd(s: string): (r: string)
    ensures |r| <= |s|
    ensures r == [] || !IsWhitespace(r[|r| - 1])
  {
    if s != [] && IsWhitespace(s[|s| - 1]) then TrimEnd(s[..|s| - 1]) else s
  }

  /** `trimStart` removes a prefix made of whitespace and nothing else. */
  lemma {:induction false} TrimStartDropsWhitespace(s: string)
    ensures var r := TrimStart(s);
      r == s[|s| - |r|..] && AllWhitespace(s[..|s| - |r|])
  {
    if s != [] && IsWhitespace(s[0]) {
      TrimStartDropsWhitespace(s[1..]);
      var r := TrimStart(s);
      assert s[1..][|s| - 1 - |r|..] == s[|s| - |r|..];
      var w, w' := s[..|s| - |r|], s[1..][..|s| - 1 - |r|];
      forall i | 1 <= i < |w| ensures IsWhitespace(w[i]) {
        assert w[i] == w'[i - 1];
      }
    }
  }

  /** `trimEnd` removes a suffix made of whitespace and nothing else. */
  lemma {:induction false} TrimEndDropsWhitespace(s: string)
    ensures var r := TrimEnd(s);
      r == s[..|r|] && AllWhitespace(s[|r|..])
  {
    if s != [] && IsWhitespace(s[|s| - 1]) {
      var p := s[..|s| - 1];
      TrimEndDropsWhitespace(p);
      var r := TrimEnd(s);
      assert p[..|r|] == s[..|r|];
      var w, w' := s[|r|..], p[|r|..];
      forall i | 0 <= i < |w'| ensures IsWhitespace(w[i]) {
        assert w[i] == w'[i];
      }
    }
  }

  /** `trim`: the result neither starts nor ends with whitespace. */
  function Trim(s: string): (r: string)
    ensures |r| <= |s|
    ensures r == [] || (!IsWhitespace(r[0]) && !IsWhitespace(r[|r| - 1]))
  {
    var t := TrimStart(s);
    TrimEndDropsWhitespace(t);
    TrimEnd(t)
  }

  /** A string that neither starts nor ends with whitespace is its own trim. */
  lemma TrimOfTrimmed(s: string)
    requires s == [] || (!IsWhitespace(s[0]) && !IsWhitespace(s[|s| - 1]))
    ensures Trim(s) == s
  {
    assert TrimStart(s) == s;
    assert TrimEnd(s) == s;
  }

  lemma {:induction false} TrimStartSkipsWhitespace(pre: string, x: string)
    requires AllWhitespace(pre)
    ensures TrimStart(pre + x) == TrimStart(x)
  {
    if pre != [] {
      var z := pre + x;
      assert z[0] == pre[0];
      assert TrimStart(z) == TrimStart(z[1..]);
      assert z[1..] == pre[1..] + x;
      TrimStartSkipsWhitespace(pre[1..], x);
    } else {
      assert pre + x == x;
    }
  }

  lemma {:induction false} TrimEndSkipsWhitespace(y: string, post: string)
    requires AllWhitespace(post)
    ensures TrimEnd(y + post) == TrimEnd(y)
  {
    if post != [] {
      var p := post[..|post| - 1];
      var z := y + post;
      assert z[|z| - 1] == post[|post| - 1];
      assert TrimEnd(z) == TrimEnd(z[..|z| - 1]);
      assert z[..|z| - 1] == y + p;
      TrimEndSkipsWhitespace(y, p);
    } else {
      assert y + post == y;
    }
  }

  lemma {:induction false} TrimStartOfAllWhitespace(z: string)
    requires AllWhitespace(z)
    ensures TrimStart(z) == []
  {
    if z != [] {
      TrimStartOfAllWhitespace(z[1..]);
    }
  }

  lemma {:induction false} TrimStartAppend(s: string, post: string)
    requires !AllWhitespace(s)
    ensures TrimStart(s + post) == TrimStart(s) + post
  {
    if IsWhitespace(s[0]) {
      assert (s + post)[1..] == s[1..] + post;
      TrimStartAppend(s[1..], post);
    }
  }

  /** Surrounding whitespace does not change what `trim` yields. */
  lemma TrimPadded(pre: string, s: string, post: string)
    requires AllWhitespace(pre) && AllWhitespace(post)
    ensures Trim(pre + s + post) == Trim(s)
  {
    assert pre + s + post == pre + (s + post);
    TrimStartSkipsWhitespace(pre, s + post);
    if AllWhitespace(s) {
      assert AllWhitespace(s + post);
      TrimStartOfAllWhitespace(s + post);
      TrimStartOfAllWhitespace(s);
    } else {
      TrimStartAppend(s, post);
      TrimEndSkipsWhitespace(TrimStart(s), post);
    }
  }

  /** A trimmed string stays trimmed behind a non-blank first character. */
  lemma TrimPrefixed(c: char, t: string)
    requires !IsWhitespace(c) && Trim(t) == t
    ensures Trim([c] + t) == [c] + t
  {
    var h := [c] + t;
    assert h[0] == c;
    assert t != [] ==> h[|h| - 1] == t[|t| - 1];
    TrimOfTrimmed(h);
  }

  /** `trim` is idempotent. */
  lemma TrimIdempotent(s: string)
    ensures Trim(Trim(s)) == Trim(s)
  {
    TrimOfTrimmed(Trim(s));
  }

  function LowerChar(c: char): char {
    if 'A' <= c <= 'Z' then (c as int + 32) as char else c
  }

  /** `toLowerCase` restricted to ASCII letters; every other character is kept. */
  function ToLowerAscii(s: string): (r: string)
    ensures |r| == |s|
    ensures forall i :: 0 <= i < |s| ==> r[i] == LowerChar(s[i])
  {
    seq(|s|, i requires 0 <= i < |s| => LowerChar(s[i]))
  }

  predicate StartsWith(s: string, prefix: string) {
    |prefix| <= |s| && s[..|prefix|] == prefix
  }

  predicate EndsWith(s: string, suffix: string) {
    |suffix| <= |s| && s[|s| - |suffix|..] == suffix
  }

  /** `hay.includes(needle)`: the needle occurs at some position of the hay. */
  predicate Includes(hay: string, needle: string)
    decreases |hay|
  {
    StartsWith(hay, needle) || (hay != [] && Includes(hay[1..], needle))
  }

  /** Any occurrence of the needle makes `includes` true ... */
  lemma {:induction false} IncludesAt(hay: string, needle: string, i: nat)
    requires i + |needle| <= |hay| && hay[i..i + |needle|] == needle
    ensures Includes(hay, needle)
  {
    if i > 0 {
      assert hay[1..][i - 1..i - 1 + |needle|] == hay[i..i + |needle|];
      IncludesAt(hay[1..], needle, i - 1);
    }
  }

  /** ... and `includes` is true only at an occurrence. */
  lemma {:induction false} IncludesWitness(hay: string, needle: string) returns (i: nat)
    requires Includes(hay, needle)
    ensures i + |needle| <= |hay| && hay[i..i + |needle|] == needle
  {
    if StartsWith(hay, needle) {
      i := 0;
    } else {
      var j := IncludesWitness(hay[1..], needle);
      assert hay[1..][j..j + |needle|] == hay[j + 1..j + 1 + |needle|];
      i := j + 1;
    }
  }
}
