/** The regular expressions of the deploy server as hand-written matchers.
    Each constructor of `Pattern` is one expression shape; `MatchesAt` says
    where a match can start, `Group` is what `match(...)[0]` (or `[1]` when the
    expression has a group) yields there, and `Match` is `String.prototype.match`
    without the `g` flag: the group of the leftmost match. Greedy and lazy
    quantifiers are resolved the way JavaScript's backtracking resolves them. */
module Patterns {
  import opened Wrappers
  import opened Text

  const PreviewPrefix: string := "https://pinme.eth.limo/#/preview/"
  const EnsSuffix: string := ".pinit.eth.limo"

  datatype Pattern =
    | Literal(text: string)                  // indexOf(text)
    | PrefixAlnum(prefix: string, width: nat) // prefix[a-zA-Z0-9]{width}
    | PreviewUrl                             // https:\/\/pinme\.eth\.limo\/#\/preview\/[^\s]+
    | EnsUrl                                 // https:\/\/[a-f0-9]+\.pinit\.eth\.limo
    | Field(key: string)                     // key\s*(.+)
    | Count(key: string)                     // key\s*(\d+)
    | NumberedLine                           // /^\s*\d+\.\s*(.+?)\s*$/m
    | Dashes                                 // -{70,}

  /** The span of `(.+)` in `\s*(.+)` tried at `q`. The greedy `\s*` takes the
      whole white-space run, which may cross line ends; if that run reaches the
      end of the text, it gives back characters until `.` can take one, so the
      group is then that single character. */
  function FieldSpan(s: string, q: nat): (r: Option<(nat, nat)>)
    requires q <= |s|
    ensures r.Some? ==> q <= r.value.0 < r.value.1 <= |s| && NoLineTerminator(s[r.value.0..r.value.1])
    ensures r.None? <==> forall k | q <= k < |s| :: IsLineTerminator(s[k])
  {
    var k := RunEnd(s, q, IsSpace);
    if k < |s| then
      Some((k, RunEnd(s, k, IsNotLineTerminator)))
    else
      match LastNonTerminator(s, q, |s|)
      case None => None
      case Some(j) => Some((j, j + 1))
  }

  /** The span of `(.+?)` in `\s*(.+?)\s*$` tried at `q`: the lazy group stops
      at the last non-white-space character of its line; the same fallback as
      `FieldSpan` applies when only white space is left. */
  function NumberedSpan(s: string, q: nat): (r: Option<(nat, nat)>)
    requires q <= |s|
    ensures r.Some? ==> q <= r.value.0 < r.value.1 <= |s| && NoLineTerminator(s[r.value.0..r.value.1])
  {
    var k := RunEnd(s, q, IsSpace);
    if k < |s| then
      Some((k, TrimEnd(s, k, RunEnd(s, k, IsNotLineTerminator))))
    else
      match LastNonTerminator(s, q, |s|)
      case None => None
      case Some(j) => Some((j, j + 1))
  }

  /** The position after `\s*\d+\.` tried at `p`. Neither run can give back a
      character usefully, so both are maximal. */
  function AfterOrdinal(s: string, p: nat): (r: Option<nat>)
    requires p <= |s|
    ensures r.Some? ==> p < r.value <= |s|
  {
    var k := RunEnd(s, p, IsSpace);
    var d := RunEnd(s, k, IsDigit);
    if k < d < |s| && s[d] == '.' then Some(d + 1) else None
  }

  /** `(.+)` after `\s*` starts after white space and runs to the end of its
      line; it starts with white space only when nothing but white space is
      left, and then it is the last character that is not a line terminator. */
  lemma FieldSpanShape(s: string, q: nat)
    requires q <= |s|
    ensures var r := FieldSpan(s, q);
            && (r.Some? ==> AllSpace(s[q..r.value.0]))
            && (r.Some? ==> r.value.1 == |s| || IsLineTerminator(s[r.value.1]))
            && (r.Some? && IsSpace(s[r.value.0]) ==>
                  r.value.1 == r.value.0 + 1 && AllSpace(s[q..]) && forall k | r.value.1 <= k < |s| :: IsLineTerminator(s[k]))
  {
    var k := RunEnd(s, q, IsSpace);
    assert forall i | 0 <= i < k - q :: s[q..k][i] == s[q + i];
    if k == |s| {
      assert forall i | 0 <= i < |s| - q :: s[q..][i] == s[q + i];
    }
  }

  /** `(.+?)` before `\s*$` starts after white space; when only white space
      is left it is the last character that is not a line terminator, as for
      `FieldSpan`. */
  lemma NumberedSpanShape(s: string, q: nat)
    requires q <= |s|
    ensures var r := NumberedSpan(s, q);
            && (r.None? <==> forall k | q <= k < |s| :: IsLineTerminator(s[k]))
            && (r.Some? ==> AllSpace(s[q..r.value.0]))
            && (r.Some? && IsSpace(s[r.value.0]) ==>
                  r.value.1 == r.value.0 + 1 && AllSpace(s[q..]) && forall k | r.value.1 <= k < |s| :: IsLineTerminator(s[k]))
  {
    var k := RunEnd(s, q, IsSpace);
    assert forall i | 0 <= i < k - q :: s[q..k][i] == s[q + i];
    if k == |s| {
      assert forall i | 0 <= i < |s| - q :: s[q..][i] == s[q + i];
    }
  }

  /** The lazy `(.+?)` before `\s*$` ends at the last visible character of
      its line: only white space is left between it and the line end. */
  lemma NumberedSpanLazy(s: string, q: nat)
    requires q <= |s|
    ensures var r := NumberedSpan(s, q);
            r.Some? && !IsSpace(s[r.value.0]) ==>
              !IsSpace(s[r.value.1 - 1])
              && var lineEnd := RunEnd(s, r.value.0, IsNotLineTerminator);
                 r.value.1 <= lineEnd && AllSpace(s[r.value.1..lineEnd])
  {
    var k := RunEnd(s, q, IsSpace);
    if k < |s| {
      var lineEnd := RunEnd(s, k, IsNotLineTerminator);
      TrimEndTail(s, k, lineEnd);
    }
  }

  /** What `TrimEnd` leaves behind is white space, and a visible first
      character is kept. */
  lemma TrimEndTail(s: string, lo: nat, e: nat)
    requires lo <= e <= |s|
    ensures var b := TrimEnd(s, lo, e);
            AllSpace(s[b..e]) && (lo < e && !IsSpace(s[lo]) ==> !IsSpace(s[b - 1]))
  {
    var b := TrimEnd(s, lo, e);
    assert forall i | 0 <= i < e - b :: s[b..e][i] == s[b + i];
  }

  /** `\s*\d+\.` ends just after a dot that follows white space and at
      least one digit. */
  lemma AfterOrdinalShape(s: string, p: nat)
    requires p <= |s|
    ensures var r := AfterOrdinal(s, p);
            r.Some? ==> s[r.value - 1] == '.'
                        && exists k | p <= k < r.value - 1 :: AllSpace(s[p..k]) && forall i | k <= i < r.value - 1 :: IsDigit(s[i])
  {
    var k := RunEnd(s, p, IsSpace);
    var d := RunEnd(s, k, IsDigit);
    if AfterOrdinal(s, p).Some? {
      assert AfterOrdinal(s, p).value - 1 == d;
      assert forall i | 0 <= i < k - p :: s[p..k][i] == s[p + i];
      assert AllSpace(s[p..k]) && forall i | k <= i < d :: IsDigit(s[i]);
    }
  }

  /** Conversely, white space, at least one digit and a dot starting at `p`
      are always recognised, and the match ends just after that dot. */
  lemma AfterOrdinalFound(s: string, p: nat, k: nat, d: nat)
    requires p <= k < d < |s| && AllSpace(s[p..k]) && s[d] == '.'
    requires forall i | k <= i < d :: IsDigit(s[i])
    ensures AfterOrdinal(s, p) == Some(d + 1)
  {
    assert forall i | p <= i < k :: s[p..k][i - p] == s[i];
    RunEndIs(s, p, IsSpace, k);
    RunEndIs(s, k, IsDigit, d);
  }

  predicate IsLineStart(s: string, p: nat) {
    p == 0 || (p <= |s| && IsLineTerminator(s[p - 1]))
  }

  /** A match of `pat` can start at `p`. */
  predicate MatchesAt(s: string, p: nat, pat: Pattern) {
    p <= |s| &&
    match pat
    case Literal(t) => HasAt(s, p, t)
    case PrefixAlnum(prefix, w) =>
      HasAt(s, p, prefix) && p + |prefix| + w <= |s|
      && forall k | p + |prefix| <= k < p + |prefix| + w :: IsAlnum(s[k])
    case PreviewUrl =>
      HasAt(s, p, PreviewPrefix) && p + |PreviewPrefix| < |s| && !IsSpace(s[p + |PreviewPrefix|])
    case EnsUrl =>
      HasAt(s, p, "https://") && (var e := RunEnd(s, p + 8, IsLowerHex); e > p + 8 && HasAt(s, e, EnsSuffix))
    case Field(key) =>
      HasAt(s, p, key) && FieldSpan(s, p + |key|).Some?
    case Count(key) =>
      HasAt(s, p, key) && (var k := RunEnd(s, p + |key|, IsSpace); RunEnd(s, k, IsDigit) > k)
    case NumberedLine =>
      IsLineStart(s, p) && AfterOrdinal(s, p).Some? && NumberedSpan(s, AfterOrdinal(s, p).value).Some?
    case Dashes =>
      RunEnd(s, p, IsDash) >= p + 70
  }

  /** What a match or its group looks like, whatever text it was found in. */
  predicate Shaped(g: string, pat: Pattern) {
    match pat
    case Literal(t) => g == t
    case PrefixAlnum(prefix, w) =>
      |g| == |prefix| + w && g[..|prefix|] == prefix && forall k | |prefix| <= k < |g| :: IsAlnum(g[k])
    case PreviewUrl =>
      |g| > |PreviewPrefix| && g[..|PreviewPrefix|] == PreviewPrefix
      && forall k | |PreviewPrefix| <= k < |g| :: !IsSpace(g[k])
    case EnsUrl =>
      |g| > 8 + |EnsSuffix| && g[..8] == "https://" && g[|g| - |EnsSuffix|..] == EnsSuffix
      && forall k | 8 <= k < |g| - |EnsSuffix| :: IsLowerHex(g[k])
    case Field(_) => |g| > 0 && NoLineTerminator(g)
    case Count(_) => |g| > 0 && forall k | 0 <= k < |g| :: IsDigit(g[k])
    case NumberedLine => |g| > 0 && NoLineTerminator(g)
    case Dashes => |g| >= 70 && forall k | 0 <= k < |g| :: IsDash(g[k])
  }

  /** Where the text a match at `p` yields lies in `s`: the first group where
      the expression has one, else the whole match. */
  function Span(s: string, p: nat, pat: Pattern): (r: (nat, nat))
    requires MatchesAt(s, p, pat)
    ensures r.0 <= r.1 <= |s|
  {
    match pat
    case Literal(t) => (p, p + |t|)
    case PrefixAlnum(prefix, w) => (p, p + |prefix| + w)
    case PreviewUrl => (p, RunEnd(s, p + |PreviewPrefix|, IsNotSpace))
    case EnsUrl => (p, RunEnd(s, p + 8, IsLowerHex) + |EnsSuffix|)
    case Field(key) => FieldSpan(s, p + |key|).value
    case Count(key) =>
      var k := RunEnd(s, p + |key|, IsSpace);
      (k, RunEnd(s, k, IsDigit))
    case NumberedLine => NumberedSpan(s, AfterOrdinal(s, p).value).value
    case Dashes => (p, RunEnd(s, p, IsDash))
  }

  /** The text a match at `p` yields. */
  function Group(s: string, p: nat, pat: Pattern): (g: string)
    requires MatchesAt(s, p, pat)
    ensures IsSubstring(g, s)
  {
    var (a, b) := Span(s, p, pat);
    SliceIsSubstring(s, a, b);
    s[a..b]
  }

  lemma GroupShaped(s: string, p: nat, pat: Pattern)
    requires MatchesAt(s, p, pat)
    ensures Shaped(Group(s, p, pat), pat)
  {
    match pat
    case Literal(t) => assert Group(s, p, pat) == s[p..p + |t|];
    case PrefixAlnum(prefix, w) => PrefixAlnumShaped(s, p, prefix, w);
    case PreviewUrl => PreviewShaped(s, p);
    case EnsUrl => EnsShaped(s, p);
    case Field(key) => LineShaped(s, p, pat);
    case Count(key) => CountShaped(s, p, key);
    case NumberedLine => LineShaped(s, p, pat);
    case Dashes => DashesShaped(s, p);
  }

  lemma LineShaped(s: string, p: nat, pat: Pattern)
    requires (pat.Field? || pat.NumberedLine?) && MatchesAt(s, p, pat)
    ensures Shaped(Group(s, p, pat), pat)
  {
    var (a, b) := Span(s, p, pat);
    assert Group(s, p, pat) == s[a..b];
  }

  lemma CountShaped(s: string, p: nat, key: string)
    requires MatchesAt(s, p, Count(key))
    ensures Shaped(Group(s, p, Count(key)), Count(key))
  {
    var k := RunEnd(s, p + |key|, IsSpace);
    var e := RunEnd(s, k, IsDigit);
    assert Span(s, p, Count(key)) == (k, e);
    var g := s[k..e];
    assert forall i | 0 <= i < |g| :: g[i] == s[k + i] && IsDigit(s[k + i]);
    assert Group(s, p, Count(key)) == g;
  }

  lemma DashesShaped(s: string, p: nat)
    requires MatchesAt(s, p, Dashes)
    ensures Shaped(Group(s, p, Dashes), Dashes)
  {
    var e := RunEnd(s, p, IsDash);
    var g := Group(s, p, Dashes);
    assert g == s[p..e];
    assert forall i | 0 <= i < |g| :: g[i] == s[p + i] && IsDash(s[p + i]);
  }

  lemma PrefixAlnumShaped(s: string, p: nat, prefix: string, w: nat)
    requires MatchesAt(s, p, PrefixAlnum(prefix, w))
    ensures Shaped(Group(s, p, PrefixAlnum(prefix, w)), PrefixAlnum(prefix, w))
  {
    var g := Group(s, p, PrefixAlnum(prefix, w));
    assert g == s[p..p + |prefix| + w];
    assert g[..|prefix|] == s[p..p + |prefix|];
  }

  lemma PreviewShaped(s: string, p: nat)
    requires MatchesAt(s, p, PreviewUrl)
    ensures Shaped(Group(s, p, PreviewUrl), PreviewUrl)
    ensures HasAt(s, p, Group(s, p, PreviewUrl))
    ensures p + |Group(s, p, PreviewUrl)| == |s| || IsSpace(s[p + |Group(s, p, PreviewUrl)|])
  {
    var e := RunEnd(s, p + |PreviewPrefix|, IsNotSpace);
    var g := Group(s, p, PreviewUrl);
    assert g == s[p..e];
    assert g[..|PreviewPrefix|] == s[p..p + |PreviewPrefix|];
    assert forall k | |PreviewPrefix| <= k < |g| :: g[k] == s[p + k] && IsNotSpace(s[p + k]);
  }

  lemma EnsShaped(s: string, p: nat)
    requires MatchesAt(s, p, EnsUrl)
    ensures Shaped(Group(s, p, EnsUrl), EnsUrl)
  {
    var e := RunEnd(s, p + 8, IsLowerHex);
    var g := Group(s, p, EnsUrl);
    assert g == s[p..e + |EnsSuffix|];
    assert g[..8] == s[p..p + 8];
    assert g[|g| - |EnsSuffix|..] == s[e..e + |EnsSuffix|];
    assert forall k | 8 <= k < |g| - |EnsSuffix| :: g[k] == s[p + k] && IsLowerHex(s[p + k]);
  }

  /** The least index at or after `from` that holds `true`. */
  function FirstTrue(hits: seq<bool>, from: nat): (r: Option<nat>)
    ensures r.Some? ==> from <= r.value < |hits| && hits[r.value]
    ensures r.Some? ==> forall q | from <= q < r.value :: !hits[q]
    ensures r.None? ==> forall q | from <= q < |hits| :: !hits[q]
    decreases |hits| - from
  {
    if from >= |hits| then None
    else if hits[from] then Some(from)
    else FirstTrue(hits, from + 1)
  }

  /** Whether a match of `pat` starts at each position of `s`. */
  function Hits(s: string, pat: Pattern): (hits: seq<bool>)
    ensures |hits| == |s| + 1
    ensures forall p | 0 <= p <= |s| :: hits[p] == MatchesAt(s, p, pat)
  {
    seq(|s| + 1, (p: int) => 0 <= p && MatchesAt(s, p, pat))
  }

  /** The least position at or after `from` where a match of `pat` starts. */
  function Search(s: string, pat: Pattern, from: nat): (r: Option<nat>)
    ensures r.Some? ==> from <= r.value <= |s| && MatchesAt(s, r.value, pat)
    ensures r.Some? ==> forall q | from <= q < r.value :: !MatchesAt(s, q, pat)
    ensures r.None? ==> forall q | from <= q <= |s| :: !MatchesAt(s, q, pat)
  {
    FirstTrue(Hits(s, pat), from)
  }

  /** A match of `pat` starts at `p` and at no earlier position. */
  predicate IsFirstMatch(s: string, p: nat, pat: Pattern) {
    MatchesAt(s, p, pat) && forall q | 0 <= q < p :: !MatchesAt(s, q, pat)
  }

  /** The leftmost match is where `Match` takes its group from. */
  lemma FirstMatchGroup(s: string, p: nat, pat: Pattern)
    requires IsFirstMatch(s, p, pat)
    ensures Match(s, pat) == Some(Group(s, p, pat))
  {
    var found := Search(s, pat, 0);
    assert MatchesAt(s, p, pat);
    assert found.Some? && MatchesAt(s, found.value, pat);
    assert found == Some(p);
  }

  /** A text in which character `j` of `key` never occurs at the place it
      would need to have no match of `key` before `p`. */
  lemma KeyNotBefore(s: string, p: nat, key: string, j: nat)
    requires j < |key| && p + j <= |s| && key[j] !in s[..p + j]
    ensures forall q | 0 <= q < p :: !HasAt(s, q, key)
  {
    forall q | 0 <= q < p ensures !HasAt(s, q, key) {
      assert s[..p + j][q + j] == s[q + j];
      assert s[q + j] != key[j];
      if q + |key| <= |s| {
        assert s[q..q + |key|][j] == s[q + j];
      }
    }
  }

  /** `s.match(pat)`: the group of the leftmost match, or nothing. */
  function Match(s: string, pat: Pattern): (r: Option<string>)
    ensures r.None? <==> forall p | 0 <= p <= |s| :: !MatchesAt(s, p, pat)
    ensures r.Some? ==> IsSubstring(r.value, s) && Shaped(r.value, pat)
    ensures r.Some? ==> exists p | 0 <= p <= |s| :: IsFirstMatch(s, p, pat) && r.value == Group(s, p, pat)
  {
    match Search(s, pat, 0)
    case None => None
    case Some(p) =>
      assert IsFirstMatch(s, p, pat);
      GroupShaped(s, p, pat);
      Some(Group(s, p, pat))
  }
}
