/**
 * The string operations the handlers apply: `toUpperCase`, `trim`,
 * `startsWith`, and the global replacement of "\n" by "<br>".
 */
module Text {

  predicate IsLowerAscii(c: char) {
    'a' <= c <= 'z'
  }

  function UpperChar(c: char): (u: char)
    ensures !IsLowerAscii(u)
    ensures !IsLowerAscii(c) ==> u == c
    ensures IsLowerAscii(c) ==> 'A' <= u <= 'Z' && u as int - 'A' as int == c as int - 'a' as int
    ensures IsJsSpace(u) <==> IsJsSpace(c)
  {
    if IsLowerAscii(c) then (c as int - 32) as char else c
  }

  /** `toUpperCase`, restricted to the ASCII letters. */
  function Upper(s: string): (r: string)
    ensures |r| == |s|
    ensures forall i :: 0 <= i < |s| ==> r[i] == UpperChar(s[i])
  {
    seq(|s|, i requires 0 <= i < |s| => UpperChar(s[i]))
  }

  /** Upper-casing twice is upper-casing once. */
  lemma UpperIdempotent(s: string)
    ensures Upper(Upper(s)) == Upper(s)
  {
  }

  predicate StartsWith(s: string, prefix: string) {
    |prefix| <= |s| && s[..|prefix|] == prefix
  }

  /** An upper-cased string starts with "L" exactly when the original starts with 'L' or 'l'. */
  lemma UpperStartsWithL(s: string)
    ensures StartsWith(Upper(s), "L") <==> (0 < |s| && (s[0] == 'L' || s[0] == 'l'))
  {
    if 0 < |s| && StartsWith(Upper(s), "L") {
      assert Upper(s)[0] == 'L';
    }
  }

  /** The characters `String.prototype.trim` removes: white space and line terminators. */
  predicate IsJsSpace(c: char) {
    || c == '\t' || c == '\n' || c == '\U{000B}' || c == '\U{000C}' || c == '\r' || c == ' '
    || c == '\U{00A0}' || c == '\U{1680}' || ('\U{2000}' <= c <= '\U{200A}')
    || c == '\U{2028}' || c == '\U{2029}' || c == '\U{202F}' || c == '\U{205F}'
    || c == '\U{3000}' || c == '\U{FEFF}'
  }

  /** Drops the leading white space: what remains is a suffix that does not start with a space. */
  function TrimStart(s: string): (r: string)
    ensures |r| <= |s| && r == s[|s| - |r|..]
    ensures forall i :: 0 <= i < |s| - |r| ==> IsJsSpace(s[i])
    ensures 0 < |r| ==> !IsJsSpace(r[0])
  {
    if 0 < |s| && IsJsSpace(s[0]) then TrimStart(s[1..]) else s
  }

  /** Drops the trailing white space: what remains is a prefix that does not end with a space. */
  function TrimEnd(s: string): (r: string)
    ensures |r| <= |s| && r == s[..|r|]
    ensures forall i :: |r| <= i < |s| ==> IsJsSpace(s[i])
    ensures 0 < |r| ==> !IsJsSpace(r[|r| - 1])
  {
    if 0 < |s| && IsJsSpace(s[|s| - 1]) then TrimEnd(s[..|s| - 1]) else s
  }

  /** `s.trim()`: the middle slice of `s` left once the white space at both ends is gone. */
  function Trim(s: string): (r: string)
    ensures 0 < |r| ==> !IsJsSpace(r[0]) && !IsJsSpace(r[|r| - 1])
    ensures var k := |s| - |TrimStart(s)|;
            && k + |r| <= |s| && r == s[k..k + |r|]
            && (forall i :: 0 <= i < k ==> IsJsSpace(s[i]))
            && (forall i :: k + |r| <= i < |s| ==> IsJsSpace(s[i]))
  {
    TrimEnd(TrimStart(s))
  }

  /** Appending one character to a string moves the start of its non-blank part only when
      the string was blank so far. */
  lemma {:induction false} TrimStartSnoc(s: string, c: char)
    ensures TrimStart(s + [c]) == if TrimStart(s) == "" && IsJsSpace(c) then "" else TrimStart(s) + [c]
    decreases |s|
  {
    if 0 < |s| && IsJsSpace(s[0]) {
      assert (s + [c])[1..] == s[1..] + [c];
      TrimStartSnoc(s[1..], c);
    } else if |s| == 0 {
      assert [c][1..] == "";
    }
  }

  /** Extra white space on either side of a string does not change `s.trim()`. */
  lemma TrimIgnoresPadding(s: string, c: char)
    requires IsJsSpace(c)
    ensures Trim([c] + s) == Trim(s)
    ensures Trim(s + [c]) == Trim(s)
  {
    assert ([c] + s)[1..] == s;
    TrimStartSnoc(s, c);
    var t := TrimStart(s);
    if t != "" {
      assert (t + [c])[..|t + [c]| - 1] == t;
    }
  }

  /** Upper-casing a trimmed string keeps it trimmed. */
  lemma UpperKeepsTrim(s: string)
    ensures var u := Upper(Trim(s));
            0 < |u| ==> !IsJsSpace(u[0]) && !IsJsSpace(u[|u| - 1])
  {
    var t := Trim(s);
    if 0 < |t| {
      assert Upper(t)[0] == UpperChar(t[0]);
      assert Upper(t)[|t| - 1] == UpperChar(t[|t| - 1]);
    }
  }

  /** `m.replace(/\n/g, "<br>")`: every line feed becomes a `<br>` tag. */
  function BreakLines(m: string): (r: string)
    ensures forall i :: 0 <= i < |r| ==> r[i] != '\n'
    ensures (forall i :: 0 <= i < |m| ==> m[i] != '\n') ==> r == m
  {
    if |m| == 0 then ""
    else (if m[0] == '\n' then "<br>" else [m[0]]) + BreakLines(m[1..])
  }

  /** The rewrite works character by character: it distributes over concatenation. */
  lemma {:induction false} BreakLinesAppend(a: string, b: string)
    ensures BreakLines(a + b) == BreakLines(a) + BreakLines(b)
  {
    if |a| == 0 {
      assert a + b == b;
    } else {
      assert (a + b)[0] == a[0];
      assert (a + b)[1..] == a[1..] + b;
      BreakLinesAppend(a[1..], b);
    }
  }

  /**
   * What one character becomes: a line feed turns into `<br>`, anything else
   * stays. With `BreakLinesAppend` this determines the rewrite of every text.
   */
  lemma BreakLinesUnits(c: char)
    ensures BreakLines("\n") == "<br>"
    ensures c != '\n' ==> BreakLines([c]) == [c]
  {
  }

  /** The inverse rewrite: every `<br>` tag becomes a line feed again. */
  function UnbreakLines(r: string): string
  {
    if |r| == 0 then ""
    else if StartsWith(r, "<br>") then "\n" + UnbreakLines(r[4..])
    else [r[0]] + UnbreakLines(r[1..])
  }

  /** A message without any '<' is recovered exactly from its rewritten form. */
  lemma {:induction false} BreakLinesRoundTrip(m: string)
    requires forall i :: 0 <= i < |m| ==> m[i] != '<'
    ensures UnbreakLines(BreakLines(m)) == m
  {
    if |m| > 0 {
      var rest := BreakLines(m[1..]);
      BreakLinesRoundTrip(m[1..]);
      if m[0] == '\n' {
        assert BreakLines(m) == "<br>" + rest;
        assert ("<br>" + rest)[4..] == rest;
      } else {
        assert BreakLines(m) == [m[0]] + rest;
        var t := [m[0]] + rest;
        assert t[0] == m[0] != '<';
        if 4 <= |t| {
          assert t[..4][0] == t[0];
        }
        assert ([m[0]] + rest)[1..] == rest;
      }
    }
  }
}
