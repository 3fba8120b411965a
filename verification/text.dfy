/** Character classes, scanners and string helpers shared by the hand-written
    matchers that stand for the server's JavaScript regular expressions. */
module Text {
  import opened Wrappers

  /** JavaScript line terminators: what `.` does not match, and where `^` and `$`
      match in multiline mode. */
  predicate IsLineTerminator(c: char) {
    c == '\n' || c == '\r' || c == '\U{2028}' || c == '\U{2029}'
  }

  /** JavaScript `\s`, which is also the set that `String.prototype.trim` removes:
      the line terminators plus the Unicode white-space characters. */
  predicate IsSpace(c: char) {
    IsLineTerminator(c) || c == ' ' || c == '\t' || c == '\U{B}' || c == '\U{C}'
    || c == '\U{A0}' || c == '\U{1680}' || ('\U{2000}' <= c <= '\U{200A}')
    || c == '\U{202F}' || c == '\U{205F}' || c == '\U{3000}' || c == '\U{FEFF}'
  }

  predicate IsNotSpace(c: char) { !IsSpace(c) }

  predicate IsNotLineTerminator(c: char) { !IsLineTerminator(c) }

  /** JavaScript truthiness of an optional string argument: absent and `""` are both falsy. */
  predicate Truthy(arg: Option<string>) { arg.Some? && arg.value != "" }

  /** JavaScript `\d`: ASCII digits only. */
  predicate IsDigit(c: char) { '0' <= c <= '9' }

  /** The class `[a-zA-Z0-9]`. */
  predicate IsAlnum(c: char) { IsDigit(c) || 'a' <= c <= 'z' || 'A' <= c <= 'Z' }

  /** The class `[a-f0-9]`. */
  predicate IsLowerHex(c: char) { IsDigit(c) || 'a' <= c <= 'f' }

  predicate IsDash(c: char) { c == '-' }

  predicate AllSpace(s: string) { forall k | 0 <= k < |s| :: IsSpace(s[k]) }

  predicate NoLineTerminator(s: string) { forall k | 0 <= k < |s| :: !IsLineTerminator(s[k]) }

  /** `t` occurs in `s` starting at position `p`. */
  predicate HasAt(s: string, p: nat, t: string) {
    p + |t| <= |s| && s[p..p + |t|] == t
  }

  predicate IsSubstring(t: string, s: string) {
    exists p: nat | p <= |s| :: HasAt(s, p, t)
  }

  lemma {:induction false} SubstringTransitive(t: string, u: string, s: string)
    requires IsSubstring(t, u) && IsSubstring(u, s)
    ensures IsSubstring(t, s)
  {
    var p: nat :| p <= |u| && HasAt(u, p, t);
    var q: nat :| q <= |s| && HasAt(s, q, u);
    assert p + |t| <= |u| && q + |u| <= |s|;
    assert forall k | 0 <= k < |t| :: s[q + p + k] == u[p + k] == t[k];
    assert s[q + p..q + p + |t|] == t;
    assert HasAt(s, q + p, t);
  }

  lemma SliceIsSubstring(s: string, i: nat, j: nat)
    requires i <= j <= |s|
    ensures IsSubstring(s[i..j], s)
  {
    assert HasAt(s, i, s[i..j]);
  }

  lemma {:induction false} SubstringNoLineTerminator(t: string, s: string)
    requires IsSubstring(t, s) && NoLineTerminator(s)
    ensures NoLineTerminator(t)
  {
    var p: nat :| p <= |s| && HasAt(s, p, t);
    assert forall k | 0 <= k < |t| :: t[k] == s[p + k];
  }

  /** The end of the longest run of characters of class `cls` that starts at `p`. */
  function RunEnd(s: string, p: nat, cls: char -> bool): (e: nat)
    requires p <= |s|
    ensures p <= e <= |s|
    ensures forall k | p <= k < e :: cls(s[k])
    ensures e == |s| || !cls(s[e])
    decreases |s| - p
  {
    if p == |s| || !cls(s[p]) then p else RunEnd(s, p + 1, cls)
  }

  /** A run is determined by where it stops. */
  lemma RunEndIs(s: string, p: nat, cls: char -> bool, e: nat)
    requires p <= e <= |s|
    requires forall k | p <= k < e :: cls(s[k])
    requires e == |s| || !cls(s[e])
    ensures RunEnd(s, p, cls) == e
    decreases e - p
  {
    if p < e {
      RunEndIs(s, p + 1, cls, e);
    }
  }

  /** The greatest position `j` in `[lo, hi)` with a character that `.` matches. */
  function LastNonTerminator(s: string, lo: nat, hi: nat): (r: Option<nat>)
    requires lo <= hi <= |s|
    ensures r.Some? ==> lo <= r.value < hi && !IsLineTerminator(s[r.value])
    ensures r.Some? ==> forall k | r.value < k < hi :: IsLineTerminator(s[k])
    ensures r.None? ==> forall k | lo <= k < hi :: IsLineTerminator(s[k])
    decreases hi
  {
    if hi == lo then None
    else if !IsLineTerminator(s[hi - 1]) then Some(hi - 1)
    else LastNonTerminator(s, lo, hi - 1)
  }

  /** The end of `s[lo..e]` once its trailing white space is removed. */
  function TrimEnd(s: string, lo: nat, e: nat): (b: nat)
    requires lo <= e <= |s|
    ensures lo <= b <= e
    ensures forall k | b <= k < e :: IsSpace(s[k])
    ensures b == lo || !IsSpace(s[b - 1])
    ensures lo < e && !IsSpace(s[lo]) ==> b > lo
    decreases e
  {
    if e == lo || !IsSpace(s[e - 1]) then e else TrimEnd(s, lo, e - 1)
  }

  /** `String.prototype.trim`: `s` without its leading and trailing white space. */
  function Trim(s: string): (r: string)
    ensures r == "" || (!IsSpace(r[0]) && !IsSpace(r[|r| - 1]))
    ensures exists a: nat :: HasAt(s, a, r) && AllSpace(s[..a]) && AllSpace(s[a + |r|..])
    ensures r == "" <==> AllSpace(s)
  {
    var a := RunEnd(s, 0, IsSpace);
    var b := TrimEnd(s, a, |s|);
    assert a < |s| ==> b > a;
    assert AllSpace(s) <==> a == |s|;
    assert HasAt(s, a, s[a..b]) && AllSpace(s[..a]) && AllSpace(s[b..]);
    s[a..b]
  }

  lemma TrimIsSubstring(s: string)
    ensures IsSubstring(Trim(s), s)
  {
  }

  /** Trimming leaves a string that starts and ends with a visible character
      unchanged. */
  lemma TrimClean(s: string)
    requires |s| > 0 && !IsSpace(s[0]) && !IsSpace(s[|s| - 1])
    ensures Trim(s) == s
  {
    var r := Trim(s);
    var a: nat :| HasAt(s, a, r) && AllSpace(s[..a]) && AllSpace(s[a + |r|..]);
    assert s[0..|s|] == s;
  }

  /** The text whose lines are `lines`: each one followed by a newline, as the
      server builds a reply by appending `line + "\n"`. */
  function Unlines(lines: seq<string>): string
  {
    if lines == [] then "" else lines[0] + "\n" + Unlines(lines[1..])
  }

  /** Every line of `lines` is a piece of their text. */
  lemma {:induction false} LineInUnlines(lines: seq<string>, l: string)
    requires l in lines
    ensures IsSubstring(l, Unlines(lines))
  {
    var text := Unlines(lines);
    var head := lines[0] + "\n";
    assert text == head + Unlines(lines[1..]);
    if lines[0] == l {
      assert text[0..|l|] == l;
      assert HasAt(text, 0, l);
    } else {
      LineInUnlines(lines[1..], l);
      assert text[|head|..|head| + |Unlines(lines[1..])|] == Unlines(lines[1..]);
      assert HasAt(text, |head|, Unlines(lines[1..]));
      SubstringTransitive(l, Unlines(lines[1..]), text);
    }
  }

  function DigitChar(d: nat): (c: char)
    requires d < 10
    ensures IsDigit(c)
  {
    (d + '0' as int) as char
  }

  /** The decimal numeral of `n`, as a template literal renders a number. */
  function NatToString(n: nat): (r: string)
    ensures |r| > 0
    ensures forall k | 0 <= k < |r| :: IsDigit(r[k])
  {
    if n < 10 then [DigitChar(n)] else NatToString(n / 10) + [DigitChar(n % 10)]
  }
}
