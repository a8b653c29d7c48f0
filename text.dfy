/**
 * The two JavaScript string operations the controller applies to chat text:
 * `String.prototype.trim` (strips white space and line terminators at both
 * ends) and `String.prototype.toLowerCase`, restricted to ASCII letters.
 */
module Text {

  /** The characters `trim` removes: ECMAScript WhiteSpace and LineTerminator. */
  predicate IsSpace(c: char) {
    || c == ' ' || c == '\t' || c == '\n' || c == '\r'
    || c == '\U{000B}' || c == '\U{000C}' || c == '\U{00A0}' || c == '\U{1680}'
    || ('\U{2000}' <= c <= '\U{200A}')
    || c == '\U{2028}' || c == '\U{2029}' || c == '\U{202F}' || c == '\U{205F}'
    || c == '\U{3000}' || c == '\U{FEFF}'
  }

  predicate AllSpace(s: string) {
    forall i :: 0 <= i < |s| ==> IsSpace(s[i])
  }

  function TrimStart(s: string): string {
    if s != [] && IsSpace(s[0]) then TrimStart(s[1..]) else s
  }

  function TrimEnd(s: string): string {
    if s != [] && IsSpace(s[|s| - 1]) then TrimEnd(s[..|s| - 1]) else s
  }

  /** `s.trim()`: what is left starts and ends with a character that is not white space. */
  function Trim(s: string): (r: string)
    ensures |r| <= |s|
    ensures r != [] ==> !IsSpace(r[0]) && !IsSpace(r[|r| - 1])
  {
    TrimStartShape(s);
    TrimEndShape(TrimStart(s));
    TrimEnd(TrimStart(s))
  }

  /**
   * `trim()` cuts white space only: the result is the input with a white-space
   * prefix and a white-space suffix removed. With the end characters `Trim`
   * promises, this determines the result.
   */
  lemma TrimStrips(s: string)
    ensures exists a :: 0 <= a <= |s| - |Trim(s)| && Trim(s) == s[a..a + |Trim(s)|]
                        && AllSpace(s[..a]) && AllSpace(s[a + |Trim(s)|..])
  {
    TrimStartShape(s);
    var t := TrimStart(s);
    TrimEndShape(t);
    var a := |s| - |t|;
    var n := |TrimEnd(t)|;
    assert TrimEnd(t) == s[a..a + n];
    assert s[a + n..] == t[n..];
  }

  function LowerChar(c: char): (d: char) {
    if 'A' <= c <= 'Z' then (c as int + 32) as char else c
  }

  /** `s.toLowerCase()` on ASCII letters: no upper-case letter is left and nothing else changes. */
  function ToLower(s: string): (r: string)
    ensures |r| == |s|
    ensures forall i :: 0 <= i < |r| ==> !('A' <= r[i] <= 'Z')
    ensures forall i :: 0 <= i < |s| && !('A' <= s[i] <= 'Z') ==> r[i] == s[i]
    ensures forall i :: 0 <= i < |s| && 'A' <= s[i] <= 'Z' ==> r[i] == (s[i] as int + 32) as char
  {
    seq(|s|, i requires 0 <= i < |s| => LowerChar(s[i]))
  }

  /** The result of `TrimStart` is a suffix of the input that starts with a non-space. */
  lemma {:induction false} TrimStartShape(s: string)
    ensures |TrimStart(s)| <= |s| && TrimStart(s) == s[|s| - |TrimStart(s)|..]
    ensures AllSpace(s[..|s| - |TrimStart(s)|])
    ensures TrimStart(s) == [] || !IsSpace(TrimStart(s)[0])
    decreases |s|
  {
    if s != [] && IsSpace(s[0]) {
      TrimStartShape(s[1..]);
      var n := |s| - |TrimStart(s)|;
      assert s[1..][..n - 1] == s[1..n];
    }
  }

  /** The result of `TrimEnd` is a prefix of the input that ends with a non-space. */
  lemma {:induction false} TrimEndShape(s: string)
    ensures |TrimEnd(s)| <= |s| && TrimEnd(s) == s[..|TrimEnd(s)|]
    ensures AllSpace(s[|TrimEnd(s)|..])
    ensures TrimEnd(s) == [] || !IsSpace(TrimEnd(s)[|TrimEnd(s)| - 1])
    ensures TrimEnd(s) == [] <==> AllSpace(s)
    decreases |s|
  {
    assert s[0..] == s;
    if s != [] && IsSpace(s[|s| - 1]) {
      var p := s[..|s| - 1];
      TrimEndShape(p);
      var n := |TrimEnd(s)|;
      assert p[..n] == s[..n];
      assert forall i :: n <= i < |s| - 1 ==> s[i] == p[i];
    }
  }

  /** `trim()` yields the empty string exactly when every character is white space. */
  lemma TrimEmptyIffAllSpace(s: string)
    ensures Trim(s) == [] <==> AllSpace(s)
  {
    TrimStartShape(s);
    var t := TrimStart(s);
    TrimEndShape(t);
    if t == [] {
      assert s[..|s| - |t|] == s;
    } else {
      assert !AllSpace(t);
    }
  }

  /** White space in front of a string disappears under `TrimStart`. */
  lemma {:induction false} TrimStartSpacePrefix(p: string, s: string)
    requires AllSpace(p)
    ensures TrimStart(p + s) == TrimStart(s)
    decreases |p|
  {
    if p != [] {
      assert (p + s)[0] == p[0];
      assert (p + s)[1..] == p[1..] + s;
      TrimStartSpacePrefix(p[1..], s);
    } else {
      assert p + s == s;
    }
  }

  /** White space after a string disappears under `TrimEnd`. */
  lemma {:induction false} TrimEndSpaceSuffix(s: string, q: string)
    requires AllSpace(q)
    ensures TrimEnd(s + q) == TrimEnd(s)
    decreases |q|
  {
    if q != [] {
      assert (s + q)[..|s + q| - 1] == s + q[..|q| - 1];
      TrimEndSpaceSuffix(s, q[..|q| - 1]);
    } else {
      assert s + q == s;
    }
  }

  /** `TrimStart` of a concatenation: it only reaches the second part when the first is all space. */
  lemma {:induction false} TrimStartAppend(s: string, q: string)
    ensures TrimStart(s + q) == if AllSpace(s) then TrimStart(q) else TrimStart(s) + q
    decreases |s|
  {
    if s == [] {
      assert s + q == q;
    } else {
      assert (s + q)[0] == s[0];
      assert (s + q)[1..] == s[1..] + q;
      TrimStartAppend(s[1..], q);
      if IsSpace(s[0]) {
        assert AllSpace(s) <==> AllSpace(s[1..]);
      }
    }
  }

  /** Surrounding white space never changes the result of `trim()`. */
  lemma TrimIgnoresPadding(p: string, s: string, q: string)
    requires AllSpace(p) && AllSpace(q)
    ensures Trim(p + s + q) == Trim(s)
  {
    assert p + s + q == p + (s + q);
    TrimStartSpacePrefix(p, s + q);
    TrimStartAppend(s, q);
    if AllSpace(s) {
      TrimStartSpacePrefix(q, []);
      assert q + [] == q;
      TrimStartSpacePrefix(s, []);
      assert s + [] == s;
    } else {
      TrimEndSpaceSuffix(TrimStart(s), q);
    }
  }

  /** Lower-casing twice is lower-casing once. */
  lemma ToLowerIdempotent(s: string)
    ensures ToLower(ToLower(s)) == ToLower(s)
  {
  }

  /** Lower-casing works character by character, so it distributes over concatenation and keeps white space. */
  lemma ToLowerAppend(a: string, b: string)
    ensures ToLower(a + b) == ToLower(a) + ToLower(b)
    ensures AllSpace(a) ==> AllSpace(ToLower(a))
  {
  }
}
