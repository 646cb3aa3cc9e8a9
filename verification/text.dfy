/** Character and string helpers used by the document generator: the ASCII
    part of upper-casing, single-character replacement, and two small
    readers (split at the first separator, suffix after the last separator)
    with which the generated Markdown is read back. */
module Text {

  datatype Option<T> = None | Some(value: T)

  predicate IsLowerAscii(c: char) { 'a' <= c <= 'z' }

  predicate IsUpperAscii(c: char) { 'A' <= c <= 'Z' }

  predicate IsDigit(c: char) { '0' <= c <= '9' }

  /** Upper-cases one ASCII letter; every other character is kept. */
  function UpperAscii(c: char): (u: char)
    ensures IsLowerAscii(c) ==> IsUpperAscii(u) && u as int == c as int - 32
    ensures !IsLowerAscii(c) ==> u == c
  {
    if IsLowerAscii(c) then (c as int - 32) as char else c
  }

  /** Upper-casing of a whole string, character by character. */
  function ToUpper(s: string): (r: string)
    ensures |r| == |s|
    ensures forall i :: 0 <= i < |s| ==> r[i] == UpperAscii(s[i])
  {
    if s == [] then [] else [UpperAscii(s[0])] + ToUpper(s[1..])
  }

  /** Every occurrence of `from` replaced by `to` (one character for one). */
  function ReplaceAll(s: string, from: char, to: char): (r: string)
    ensures |r| == |s|
    ensures forall i :: 0 <= i < |s| && s[i] == from ==> r[i] == to
    ensures forall i :: 0 <= i < |s| && s[i] != from ==> r[i] == s[i]
  {
    if s == [] then []
    else [if s[0] == from then to else s[0]] + ReplaceAll(s[1..], from, to)
  }

  /** A string with a single `from` between two parts is rewritten at that
      one position only. */
  lemma ReplaceSingle(p: string, from: char, to: char, q: string)
    requires from !in p && from !in q
    ensures ReplaceAll(p + [from] + q, from, to) == p + [to] + q
  {
    var s, t := p + [from] + q, p + [to] + q;
    var r := ReplaceAll(s, from, to);
    assert |r| == |t|;
    forall i | 0 <= i < |s| ensures r[i] == t[i] {
      if i < |p| {
        assert s[i] == p[i] == t[i] && p[i] != from;
      } else if i == |p| {
        assert s[i] == from && t[i] == to;
      } else {
        var j := i - |p| - 1;
        assert s[i] == q[j] == t[i] && q[j] != from;
      }
    }
  }

  /** Splits `s` at the first occurrence of `c`, dropping the separator. */
  function SplitAtFirst(s: string, c: char): Option<(string, string)>
  {
    if s == [] then None
    else if s[0] == c then Some(([], s[1..]))
    else match SplitAtFirst(s[1..], c)
      case None => None
      case Some(parts) => Some(([s[0]] + parts.0, parts.1))
  }

  /** The part of `s` after the last occurrence of `c`. */
  function AfterLast(s: string, c: char): Option<string>
  {
    if s == [] then None
    else if s[|s| - 1] == c then Some([])
    else match AfterLast(s[..|s| - 1], c)
      case None => None
      case Some(t) => Some(t + [s[|s| - 1]])
  }

  lemma {:induction false} SplitAtFirstOf(a: string, c: char, b: string)
    requires c !in a
    ensures SplitAtFirst(a + [c] + b, c) == Some((a, b))
  {
    if a == [] {
      assert a + [c] + b == [c] + b;
    } else {
      var s := a + [c] + b;
      assert s[0] == a[0] && a[0] != c;
      assert s[1..] == a[1..] + [c] + b;
      SplitAtFirstOf(a[1..], c, b);
      assert [a[0]] + a[1..] == a;
    }
  }

  lemma {:induction false} AfterLastOf(a: string, c: char, b: string)
    requires c !in b
    ensures AfterLast(a + [c] + b, c) == Some(b)
  {
    var s := a + [c] + b;
    if b == [] {
      assert s[|s| - 1] == c;
    } else {
      var b' := b[..|b| - 1];
      assert s[..|s| - 1] == a + [c] + b';
      AfterLastOf(a, c, b');
      assert b' + [b[|b| - 1]] == b;
    }
  }
}
