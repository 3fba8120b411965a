/** The parsing and formatting of `list_deployments`: the listing text is cut
    into sections at separator lines, each section may yield one deployment
    record, totals are read from the whole text, and the reply is built line by
    line. */
module Listing {
  import opened Wrappers
  import opened Text
  import opened Patterns

  // ---------------------------------------------------------------------------
  // Sections: `output.split(/-{70,}/)`

  /** No run of 70 dashes starts anywhere in `t`. */
  predicate NoSeparator(t: string) {
    forall p | 0 <= p <= |t| :: !MatchesAt(t, p, Dashes)
  }

  function DashLine(n: nat): (r: string)
    ensures |r| == n && forall k | 0 <= k < n :: r[k] == '-'
  {
    seq(n, _ => '-')
  }

  /** The first separator: where the leftmost match of `-{70,}` starts and
      where its greedy run of dashes ends. */
  function Cut(s: string): (r: Option<(nat, nat)>)
    ensures r.Some? ==> r.value.0 + 70 <= r.value.1 <= |s|
    ensures r.Some? ==> s[r.value.0..r.value.1] == DashLine(r.value.1 - r.value.0)
  {
    match Search(s, Dashes, 0)
    case None => None
    case Some(q) =>
      var e := RunEnd(s, q, IsDash);
      assert s[q..e] == DashLine(e - q);
      Some((q, e))
  }

  /** The pieces between the leftmost-greedy matches of `-{70,}`; a text
      without a separator is one section. */
  function Sections(s: string): (r: seq<string>)
    ensures |r| >= 1
    decreases |s|
  {
    match Cut(s)
    case None => [s]
    case Some((q, e)) => [s[..q]] + Sections(s[e..])
  }

  /** The lengths of the separators `Sections` cuts out, in order. */
  function SeparatorLengths(s: string): (r: seq<nat>)
    ensures |r| == |Sections(s)| - 1
    ensures forall i | 0 <= i < |r| :: r[i] >= 70
    decreases |s|
  {
    match Cut(s)
    case None => []
    case Some((q, e)) => [e - q] + SeparatorLengths(s[e..])
  }

  /** The text the sections and separators came from. */
  function Rejoin(sections: seq<string>, separators: seq<nat>): string
    requires |sections| == |separators| + 1
  {
    if |separators| == 0 then sections[0]
    else sections[0] + DashLine(separators[0]) + Rejoin(sections[1..], separators[1..])
  }

  /** Splitting loses nothing: the sections, with the dash runs of at least 70
      that were cut out between them, give the listing text back. */
  lemma {:induction false} SectionsRejoin(s: string)
    ensures Rejoin(Sections(s), SeparatorLengths(s)) == s
    decreases |s|
  {
    match Cut(s)
    case None =>
    case Some((q, e)) =>
      var rest := s[e..];
      assert Sections(s) == [s[..q]] + Sections(rest);
      assert SeparatorLengths(s) == [e - q] + SeparatorLengths(rest);
      SectionsRejoin(rest);
      RejoinCons(s[..q], e - q, Sections(rest), SeparatorLengths(rest));
      assert s[q..e] == DashLine(e - q);
      assert s == s[..q] + s[q..e] + rest;
  }

  lemma RejoinCons(head: string, n: nat, sections: seq<string>, separators: seq<nat>)
    requires |sections| == |separators| + 1
    ensures Rejoin([head] + sections, [n] + separators) == head + DashLine(n) + Rejoin(sections, separators)
  {
    assert ([head] + sections)[1..] == sections;
    assert ([n] + separators)[1..] == separators;
  }

  lemma {:induction false} RunEndOfPrefix(s: string, q: nat, p: nat, cls: char -> bool)
    requires p <= q <= |s|
    ensures RunEnd(s[..q], p, cls) <= RunEnd(s, p, cls)
    decreases q - p
  {
    if p < q && cls(s[p]) {
      assert s[..q][p] == s[p];
      RunEndOfPrefix(s, q, p + 1, cls);
    }
  }

  /** No section contains a separator: each one lies wholly between two cuts. */
  lemma {:induction false} SectionsHaveNoSeparator(s: string)
    ensures forall i | 0 <= i < |Sections(s)| :: NoSeparator(Sections(s)[i])
    decreases |s|
  {
    match Search(s, Dashes, 0)
    case None =>
      assert Sections(s) == [s];
    case Some(q) =>
      var e := RunEnd(s, q, IsDash);
      SectionsHaveNoSeparator(s[e..]);
      assert Cut(s) == Some((q, e));
      forall p | 0 <= p <= q ensures !MatchesAt(s[..q], p, Dashes) {
        RunEndOfPrefix(s, q, p, IsDash);
        if p < q {
          assert !MatchesAt(s, p, Dashes);
        }
      }
      assert Sections(s) == [s[..q]] + Sections(s[e..]);
  }

  predicate NoDashAtEnd(t: string) { t == "" || t[|t| - 1] != '-' }

  predicate NoDashAtStart(t: string) { t == "" || t[0] != '-' }

  /** Each cut takes a whole run of dashes: the section before a cut does not
      end with a dash, the section after it does not start with one, and a
      section between two cuts is never empty. */
  lemma {:induction false} SectionsMaximal(s: string)
    ensures forall i | 0 <= i < |Sections(s)| - 1 :: NoDashAtEnd(Sections(s)[i])
    ensures forall i | 1 <= i < |Sections(s)| :: NoDashAtStart(Sections(s)[i])
    ensures forall i | 1 <= i < |Sections(s)| - 1 :: Sections(s)[i] != ""
    decreases |s|
  {
    match Search(s, Dashes, 0)
    case None =>
      assert Sections(s) == [s];
    case Some(q) =>
      var e := RunEnd(s, q, IsDash);
      var rest := s[e..];
      assert Cut(s) == Some((q, e));
      assert Sections(s) == [s[..q]] + Sections(rest);
      SectionsMaximal(rest);
      if q > 0 {
        assert !MatchesAt(s, q - 1, Dashes);
        assert s[q - 1] != '-';
      }
      assert NoDashAtEnd(s[..q]);
      assert e == |s| || s[e] != '-';
      var first := Sections(rest)[0];
      assert first == rest || HasAt(rest, 0, first);
      assert NoDashAtStart(first);
      if |Sections(rest)| > 1 {
        match Search(rest, Dashes, 0)
        case None =>
        case Some(q') =>
          assert Cut(rest) == Some((q', RunEnd(rest, q', IsDash)));
          assert q' > 0;
      }
  }

  // ---------------------------------------------------------------------------
  // Records

  datatype Deployment = Deployment(
    name: string, path: string, cid: string, ensUrl: string,
    size: string, files: string, kind: string, date: string)

  const UnknownName: string := "未知"

  const NameLine: Pattern := NumberedLine
  const PathField: Pattern := Field("Path:")
  const CidField: Pattern := Field("IPFS CID:")
  const EnsField: Pattern := Field("ENS URL:")
  const SizeField: Pattern := Field("Size:")
  const FilesField: Pattern := Field("Files:")
  const TypeField: Pattern := Field("Type:")
  const DateField: Pattern := Field("Date:")

  /** A field value as the section shows it: non-empty, a piece of one line of
      the section, with no white space at either end. */
  predicate IsCleanValue(v: string, section: string) {
    v != "" && IsSubstring(v, section) && NoLineTerminator(v) && !IsSpace(v[0]) && !IsSpace(v[|v| - 1])
  }

  /** `v` is what `m?.[1]?.trim() || fallback` gives for `pat` in `section`:
      the trimmed group of the leftmost match, or the fallback when there is
      no match or the group is all white space; a value other than the
      fallback is a clean piece of the section. */
  predicate IsFieldOf(v: string, section: string, pat: Pattern, fallback: string) {
    && (Match(section, pat).None? || AllSpace(Match(section, pat).value) ==> v == fallback)
    && (Match(section, pat).Some? && !AllSpace(Match(section, pat).value) ==> v == Trim(Match(section, pat).value))
    && (v == fallback || IsCleanValue(v, section))
  }

  /** `m?.[1]?.trim() || fallback`: the trimmed group, unless there is no match
      or it trims to nothing. */
  function CapturedOr(section: string, pat: Pattern, fallback: string): (v: string)
    requires pat.Field? || pat.NumberedLine?
    ensures Match(section, pat).None? || AllSpace(Match(section, pat).value) ==> v == fallback
    ensures Match(section, pat).Some? && !AllSpace(Match(section, pat).value) ==> v == Trim(Match(section, pat).value)
    ensures v == fallback || IsCleanValue(v, section)
  {
    match Match(section, pat)
    case None => fallback
    case Some(g) =>
      assert NoLineTerminator(g);
      if Trim(g) == "" then fallback
      else
        TrimmedIsClean(g, section);
        Trim(g)
  }

  /** A single-line piece of a section that does not trim to nothing trims to
      a clean value of that section. */
  lemma TrimmedIsClean(g: string, section: string)
    requires IsSubstring(g, section) && NoLineTerminator(g) && Trim(g) != ""
    ensures IsCleanValue(Trim(g), section)
  {
    TrimIsSubstring(g);
    SubstringTransitive(Trim(g), g, section);
    SubstringNoLineTerminator(Trim(g), g);
  }

  /** The record one non-blank section yields: one exactly when its numbered
      name line or its `IPFS CID:` field matched. */
  function ParseSection(section: string): (r: Option<Deployment>)
    ensures r.Some? <==> Match(section, NameLine).Some? || Match(section, CidField).Some?
    ensures r.Some? ==>
              && IsFieldOf(r.value.name, section, NameLine, UnknownName)
              && IsFieldOf(r.value.path, section, PathField, "")
              && IsFieldOf(r.value.cid, section, CidField, "")
              && IsFieldOf(r.value.ensUrl, section, EnsField, "")
              && IsFieldOf(r.value.size, section, SizeField, "")
              && IsFieldOf(r.value.files, section, FilesField, "")
              && IsFieldOf(r.value.kind, section, TypeField, "")
              && IsFieldOf(r.value.date, section, DateField, "")
  {
    if Match(section, NameLine).None? && Match(section, CidField).None? then None
    else
      Some(Deployment(
        CapturedOr(section, NameLine, UnknownName),
        CapturedOr(section, PathField, ""),
        CapturedOr(section, CidField, ""),
        CapturedOr(section, EnsField, ""),
        CapturedOr(section, SizeField, ""),
        CapturedOr(section, FilesField, ""),
        CapturedOr(section, TypeField, ""),
        CapturedOr(section, DateField, "")))
  }

  /** A key none of whose characters at index `j` occurs in `section` is
      not found, so its field takes the fallback. */
  lemma KeyAbsent(section: string, key: string, j: nat)
    requires j < |key| && key[j] !in section
    ensures Match(section, Field(key)).None?
  {
    forall p | 0 <= p <= |section| ensures !MatchesAt(section, p, Field(key)) {
      LabelAbsentAt(section, p, key, j);
    }
  }

  lemma LabelAbsentAt(section: string, p: nat, key: string, j: nat)
    requires j < |key| && key[j] !in section
    ensures !HasAt(section, p, key)
  {
    if p + |key| <= |section| {
      assert section[p + j] in section;
      assert section[p..p + |key|][j] != key[j];
    }
  }

  /** A key found at `p`, with no earlier place where its character `j` could
      line up, starts the leftmost match of its field when text follows. */
  lemma FieldFirstAt(s: string, p: nat, key: string, j: nat)
    requires HasAt(s, p, key) && j < |key| && key[j] !in s[..p + j]
    requires FieldSpan(s, p + |key|).Some?
    ensures IsFirstMatch(s, p, Field(key))
  {
    KeyNotBefore(s, p, key, j);
  }

  /** The field at the leftmost match yields the text its span covers. */
  lemma FieldFoundAt(s: string, p: nat, key: string, a: nat, b: nat, v: string)
    requires IsFirstMatch(s, p, Field(key))
    requires FieldSpan(s, p + |key|) == Some((a, b)) && s[a..b] == v
    ensures Match(s, Field(key)) == Some(v)
  {
    assert Span(s, p, Field(key)) == (a, b);
    assert Group(s, p, Field(key)) == v;
    FirstMatchGroup(s, p, Field(key));
  }

  /** A typical section of the listing. */
  const ExampleSection: string := "1. demo\nIPFS CID: Qm7\nSize: 10 KB\n"

  lemma ExampleOrdinal()
    ensures AfterOrdinal(ExampleSection, 0) == Some(2)
  {
    var s := ExampleSection;
    assert s[0] == '1' && s[1] == '.';
    RunEndIs(s, 0, IsSpace, 0);
    RunEndIs(s, 0, IsDigit, 1);
  }

  lemma ExampleNameStart()
    ensures RunEnd(ExampleSection, 2, IsSpace) == 3
  {
    var s := ExampleSection;
    assert s[2] == ' ' && s[3] == 'd';
    RunEndIs(s, 2, IsSpace, 3);
  }

  lemma ExampleNameEnd()
    ensures RunEnd(ExampleSection, 3, IsNotLineTerminator) == 7
  {
    var s := ExampleSection;
    assert s[3] == 'd' && s[4] == 'e' && s[5] == 'm' && s[6] == 'o' && s[7] == '\n';
    RunEndIs(s, 3, IsNotLineTerminator, 7);
  }

  lemma ExampleNameSpan()
    ensures NumberedSpan(ExampleSection, 2) == Some((3, 7))
  {
    ExampleNameStart();
    ExampleNameEnd();
    assert ExampleSection[6] == 'o';
    assert TrimEnd(ExampleSection, 3, 7) == 7;
  }

  lemma ExampleCidSpan()
    ensures FieldSpan(ExampleSection, 17) == Some((18, 21))
  {
    var s := ExampleSection;
    assert s[17] == ' ' && s[18] == 'Q';
    RunEndIs(s, 17, IsSpace, 18);
    assert s[19] == 'm' && s[20] == '7' && s[21] == '\n';
    RunEndIs(s, 18, IsNotLineTerminator, 21);
  }

  lemma ExampleSizeSpan()
    ensures FieldSpan(ExampleSection, 27) == Some((28, 33))
  {
    var s := ExampleSection;
    assert s[27] == ' ' && s[28] == '1';
    RunEndIs(s, 27, IsSpace, 28);
    assert s[29] == '0' && s[30] == ' ' && s[31] == 'K' && s[32] == 'B' && s[33] == '\n';
    RunEndIs(s, 28, IsNotLineTerminator, 33);
  }

  lemma ExampleNamePiece()
    ensures ExampleSection[3..7] == "demo"
  {
    var s := ExampleSection;
    assert forall i | 0 <= i < 4 :: s[3..7][i] == s[3 + i];
  }

  lemma ExampleCidKey()
    ensures HasAt(ExampleSection, 8, "IPFS CID:")
  {
    var s := ExampleSection;
    var key := "IPFS CID:";
    assert s[8] == 'I' && s[9] == 'P' && s[10] == 'F' && s[11] == 'S' && s[12] == ' ';
    assert s[13] == 'C' && s[14] == 'I' && s[15] == 'D' && s[16] == ':';
    assert forall i | 0 <= i < 9 :: s[8..17][i] == s[8 + i] == key[i];
  }

  lemma ExampleCidFirst()
    ensures 'I' !in ExampleSection[..8]
  {
    assert ExampleSection[..8] == "1. demo\n";
  }

  lemma ExampleCidValue()
    ensures ExampleSection[18..21] == "Qm7"
  {
    var s := ExampleSection;
    assert forall i | 0 <= i < 3 :: s[18..21][i] == s[18 + i];
  }

  lemma ExampleSizeKey()
    ensures HasAt(ExampleSection, 22, "Size:")
  {
    var s := ExampleSection;
    assert forall i | 0 <= i < 5 :: s[22..27][i] == s[22 + i];
  }

  lemma ExampleSizeFirst()
    ensures 'z' !in ExampleSection[..24]
  {
    assert ExampleSection[..24] == "1. demo\nIPFS CID: Qm7\nSi";
  }

  lemma ExampleSizeValue()
    ensures ExampleSection[28..33] == "10 KB"
  {
    var s := ExampleSection;
    assert forall i | 0 <= i < 5 :: s[28..33][i] == s[28 + i];
  }

  lemma ExampleName(s: string)
    requires s == ExampleSection
    ensures Match(s, NameLine) == Some("demo")
  {
    ExampleOrdinal();
    ExampleNameSpan();
    ExampleNamePiece();
    assert MatchesAt(s, 0, NameLine);
    assert Span(s, 0, NameLine) == (3, 7);
    assert Group(s, 0, NameLine) == "demo";
    FirstMatchGroup(s, 0, NameLine);
  }

  lemma ExampleCid(s: string)
    requires s == ExampleSection
    ensures Match(s, CidField) == Some("Qm7")
  {
    ExampleCidSpan();
    ExampleCidKey();
    ExampleCidFirst();
    ExampleCidValue();
    FieldFirstAt(s, 8, "IPFS CID:", 0);
    FieldFoundAt(s, 8, "IPFS CID:", 18, 21, "Qm7");
  }

  lemma ExampleSize(s: string)
    requires s == ExampleSection
    ensures Match(s, SizeField) == Some("10 KB")
  {
    ExampleSizeSpan();
    ExampleSizeKey();
    ExampleSizeFirst();
    ExampleSizeValue();
    FieldFirstAt(s, 22, "Size:", 2);
    FieldFoundAt(s, 22, "Size:", 28, 33, "10 KB");
  }

  lemma ExampleFound(s: string)
    requires s == ExampleSection
    ensures Match(s, NameLine) == Some("demo") && Match(s, CidField) == Some("Qm7") && Match(s, SizeField) == Some("10 KB")
  {
    ExampleName(s);
    ExampleCid(s);
    ExampleSize(s);
  }

  lemma ExampleMissingChars()
    ensures 'a' !in ExampleSection && 'N' !in ExampleSection
  {
  }

  lemma ExampleMissingLetters()
    ensures 'l' !in ExampleSection && 'y' !in ExampleSection
  {
  }

  lemma ExampleAbsent(s: string)
    requires s == ExampleSection
    ensures Match(s, PathField).None? && Match(s, EnsField).None? && Match(s, FilesField).None?
    ensures Match(s, TypeField).None? && Match(s, DateField).None?
  {
    ExampleMissingChars();
    ExampleMissingLetters();
    assert "Path:"[1] == 'a' && "ENS URL:"[1] == 'N' && "Files:"[2] == 'l' && "Type:"[1] == 'y' && "Date:"[1] == 'a';
    KeyAbsent(s, "Path:", 1);
    KeyAbsent(s, "ENS URL:", 1);
    KeyAbsent(s, "Files:", 2);
    KeyAbsent(s, "Type:", 1);
    KeyAbsent(s, "Date:", 1);
  }

  lemma ExampleValueClean(v: string)
    requires v == "demo" || v == "Qm7" || v == "10 KB"
    ensures |v| > 0 && !IsSpace(v[0]) && !IsSpace(v[|v| - 1])
  {
  }

  lemma ExampleRecord(s: string, name: string, cid: string, size: string)
    requires name == "demo" && cid == "Qm7" && size == "10 KB"
    requires Match(s, NameLine) == Some(name) && Match(s, CidField) == Some(cid) && Match(s, SizeField) == Some(size)
    requires Match(s, PathField).None? && Match(s, EnsField).None? && Match(s, FilesField).None?
    requires Match(s, TypeField).None? && Match(s, DateField).None?
    ensures ParseSection(s) == Some(Deployment(name, "", cid, "", size, "", "", ""))
  {
    ExampleValueClean(name);
    ExampleValueClean(cid);
    ExampleValueClean(size);
    ParseFoundFields(s, name, cid, size);
  }

  /** The example section's numbered name line, its CID and its size become
      the record's fields; the fields it lacks stay empty. */
  lemma ParseSectionExample(s: string)
    requires s == ExampleSection
    ensures ParseSection(s) == Some(Deployment("demo", "", "Qm7", "", "10 KB", "", "", ""))
  {
    ExampleFound(s);
    ExampleAbsent(s);
    ExampleRecord(s, "demo", "Qm7", "10 KB");
  }

  /** A section in which only the name line, the CID and the size match
      yields exactly those three trimmed values. */
  lemma ParseFoundFields(s: string, name: string, cid: string, size: string)
    requires Match(s, NameLine) == Some(name) && Match(s, CidField) == Some(cid) && Match(s, SizeField) == Some(size)
    requires Match(s, PathField).None? && Match(s, EnsField).None? && Match(s, FilesField).None?
    requires Match(s, TypeField).None? && Match(s, DateField).None?
    requires |name| > 0 && !IsSpace(name[0]) && !IsSpace(name[|name| - 1])
    requires |cid| > 0 && !IsSpace(cid[0]) && !IsSpace(cid[|cid| - 1])
    requires |size| > 0 && !IsSpace(size[0]) && !IsSpace(size[|size| - 1])
    ensures ParseSection(s) == Some(Deployment(name, "", cid, "", size, "", "", ""))
  {
    TrimClean(name);
    TrimClean(cid);
    TrimClean(size);
    assert !AllSpace(name) && !AllSpace(cid) && !AllSpace(size);
  }

  /** What one section contributes: its record when it is not blank and its
      name line or its `IPFS CID:` field matched, and nothing otherwise. */
  function SectionRecords(section: string): (r: seq<Deployment>)
    ensures |r| <= 1
    ensures |r| == 1 <==> !AllSpace(section) && (Match(section, NameLine).Some? || Match(section, CidField).Some?)
    ensures |r| == 1 ==> ParseSection(section) == Some(r[0])
  {
    if Trim(section) == "" then []
    else match ParseSection(section)
      case None => []
      case Some(d) => [d]
  }

  /** `f` applied to each element of `xs`, the results concatenated in order. */
  function FlatMap<T, U>(f: T -> seq<U>, xs: seq<T>): seq<U>
    decreases |xs|
  {
    if xs == [] then [] else FlatMap(f, xs[..|xs| - 1]) + f(xs[|xs| - 1])
  }

  lemma {:induction false} FlatMapAppend<T, U>(f: T -> seq<U>, a: seq<T>, b: seq<T>)
    ensures FlatMap(f, a + b) == FlatMap(f, a) + FlatMap(f, b)
    decreases |b|
  {
    if b == [] {
      assert a + b == a;
    } else {
      var init := b[..|b| - 1];
      FlatMapAppend(f, a, init);
      assert (a + b)[..|a + b| - 1] == a + init;
      assert (a + b)[|a + b| - 1] == b[|b| - 1];
    }
  }

  lemma {:induction false} FlatMapBound<T, U>(f: T -> seq<U>, xs: seq<T>)
    requires forall x :: |f(x)| <= 1
    ensures |FlatMap(f, xs)| <= |xs|
    decreases |xs|
  {
    if xs != [] {
      FlatMapBound(f, xs[..|xs| - 1]);
    }
  }

  /** The records the parsing loop collects from `sections`, in order. */
  function Records(sections: seq<string>): seq<Deployment> {
    FlatMap(SectionRecords, sections)
  }

  /** The loop over the sections that pushes each recognised record. */
  method ParseDeployments(sections: seq<string>) returns (deployments: seq<Deployment>)
    ensures deployments == Records(sections)
  {
    deployments := [];
    for i := 0 to |sections|
      invariant deployments == Records(sections[..i])
    {
      var section := sections[i];
      assert sections[..i + 1][..i] == sections[..i];
      if Trim(section) == "" {
        continue;
      }
      var parsed := ParseSection(section);
      if parsed.Some? {
        deployments := deployments + [parsed.value];
      }
    }
    assert sections[..|sections|] == sections;
  }

  /** Records keep section order: the records of a concatenation of section
      lists are the records of each part, one after the other. */
  lemma RecordsAppend(a: seq<string>, b: seq<string>)
    ensures Records(a + b) == Records(a) + Records(b)
  {
    FlatMapAppend(SectionRecords, a, b);
  }

  /** `d` is the record `section` contributes. */
  predicate Yields(section: string, d: Deployment) {
    !AllSpace(section) && ParseSection(section) == Some(d)
  }

  lemma SectionRecordsYield(section: string, d: Deployment)
    ensures SectionRecords(section) == [d] <==> Yields(section, d)
  {
  }

  lemma {:induction false} FlatMapMembers<T, U>(f: T -> seq<U>, xs: seq<T>, y: U)
    requires forall x :: |f(x)| <= 1
    ensures y in FlatMap(f, xs) <==> exists i | 0 <= i < |xs| :: f(xs[i]) == [y]
    decreases |xs|
  {
    if xs != [] {
      var init := xs[..|xs| - 1];
      FlatMapMembers(f, init, y);
      assert y in f(xs[|xs| - 1]) <==> f(xs[|xs| - 1]) == [y];
      if y in FlatMap(f, init) {
        var i :| 0 <= i < |init| && f(init[i]) == [y];
        assert xs[i] == init[i];
      }
      if exists i | 0 <= i < |xs| :: f(xs[i]) == [y] {
        var i :| 0 <= i < |xs| && f(xs[i]) == [y];
        if i < |init| {
          assert init[i] == xs[i];
        }
      }
    }
  }

  /** The records collected are exactly the records of the non-blank
      sections that yield one. */
  lemma RecordsMembers(sections: seq<string>, d: Deployment)
    ensures d in Records(sections) <==> exists i | 0 <= i < |sections| :: Yields(sections[i], d)
  {
    FlatMapMembers(SectionRecords, sections, d);
    forall i | 0 <= i < |sections| ensures SectionRecords(sections[i]) == [d] <==> Yields(sections[i], d) {
      SectionRecordsYield(sections[i], d);
    }
  }

  /** Each section yields at most one record. */
  lemma RecordsBound(sections: seq<string>)
    ensures |Records(sections)| <= |sections|
  {
    FlatMapBound(SectionRecords, sections);
  }

  /** A key that starts with a visible character cannot occur in blank text. */
  lemma NoKeyInBlank(s: string, p: nat, t: string)
    requires AllSpace(s) && |t| > 0 && !IsSpace(t[0])
    ensures !HasAt(s, p, t)
  {
    if p + |t| <= |s| {
      assert s[p..p + |t|][0] == s[p];
    }
  }

  /** In blank text the white-space run reaches the end from anywhere. */
  lemma {:induction false} BlankRunEnd(s: string, p: nat)
    requires AllSpace(s) && p <= |s|
    ensures RunEnd(s, p, IsSpace) == |s|
    decreases |s| - p
  {
    if p < |s| {
      assert IsSpace(s[p]);
      BlankRunEnd(s, p + 1);
    }
  }

  lemma BlankHasNoCidField(section: string)
    requires AllSpace(section)
    ensures Match(section, CidField).None?
  {
    forall p | 0 <= p <= |section| ensures !MatchesAt(section, p, CidField) {
      NoKeyInBlank(section, p, "IPFS CID:");
    }
  }

  lemma BlankHasNoNameLine(section: string)
    requires AllSpace(section)
    ensures Match(section, NameLine).None?
  {
    forall p | 0 <= p <= |section| ensures AfterOrdinal(section, p).None? {
      BlankRunEnd(section, p);
    }
  }

  /** A blank section holds neither a numbered line nor a CID field, so the
      blank check never drops a record that would have been kept. */
  lemma BlankSectionHasNoRecord(section: string)
    requires AllSpace(section)
    ensures ParseSection(section).None?
  {
    BlankHasNoCidField(section);
    BlankHasNoNameLine(section);
  }

  // ---------------------------------------------------------------------------
  // Totals

  datatype Totals = Totals(uploads: Option<string>, files: Option<string>, size: Option<string>)

  /** `t` is what `output.match(pat)?.[1]` gives: nothing iff the pattern
      matches nowhere, else the group of its leftmost match. */
  predicate IsTotalOf(t: Option<string>, output: string, pat: Pattern) {
    && (t.None? <==> forall p | 0 <= p <= |output| :: !MatchesAt(output, p, pat))
    && (t.Some? ==> exists p | 0 <= p <= |output| :: IsFirstMatch(output, p, pat) && t.value == Group(output, p, pat))
  }

  const UploadsCount: Pattern := Count("Total Uploads:")
  const FilesCount: Pattern := Count("Total Files:")
  const SizeTotal: Pattern := Field("Total Size:")

  /** The three totals, each searched for in the whole listing text on its own. */
  function ParseTotals(output: string): (t: Totals)
    ensures IsTotalOf(t.uploads, output, UploadsCount)
    ensures IsTotalOf(t.files, output, FilesCount)
    ensures IsTotalOf(t.size, output, SizeTotal)
    ensures t.uploads.Some? ==> IsSubstring(t.uploads.value, output) && Shaped(t.uploads.value, UploadsCount)
    ensures t.files.Some? ==> IsSubstring(t.files.value, output) && Shaped(t.files.value, FilesCount)
    ensures t.size.Some? ==> IsSubstring(t.size.value, output) && NoLineTerminator(t.size.value)
  {
    Totals(Match(output, UploadsCount), Match(output, FilesCount), Match(output, SizeTotal))
  }

  // ---------------------------------------------------------------------------
  // The reply

  const Title: string := "📋 部署列表"
  const TotalsHeading: string := "总计:"
  const EmptyNote: string := "暂无部署记录。"

  function OptLine(caption: string, v: string): seq<string> {
    if v == "" then [] else [caption + v]
  }

  /** The lines shown for the deployment numbered `n`. */
  function RecordBlock(n: nat, d: Deployment): seq<string> {
    [NatToString(n) + ". " + d.name]
    + OptLine("   路径: ", d.path)
    + OptLine("   CID: ", d.cid)
    + OptLine("   ENS: ", d.ensUrl)
    + OptLine("   大小: ", d.size)
    + OptLine("   文件数: ", d.files)
    + OptLine("   类型: ", d.kind)
    + OptLine("   日期: ", d.date)
    + [""]
  }

  /** The blocks of all records, numbered from 1 in order. */
  function Blocks(ds: seq<Deployment>): seq<string>
    decreases |ds|
  {
    if ds == [] then [] else Blocks(ds[..|ds| - 1]) + RecordBlock(|ds|, ds[|ds| - 1])
  }

  function TotalsLines(t: Totals): seq<string> {
    if t.uploads.None? then []
    else
      [TotalsHeading, "  上传数: " + t.uploads.value]
      + (if t.files.Some? then ["  文件数: " + t.files.value] else [])
      + (if t.size.Some? then ["  总大小: " + t.size.value] else [])
  }

  /** The reply of a successful listing, line by line. */
  function ListingLines(ds: seq<Deployment>, t: Totals): seq<string> {
    [Title, ""] + Blocks(ds) + TotalsLines(t) + (if ds == [] then [EmptyNote] else [])
  }

  /** The body of the `forEach`: the numbered name line, a line for each
      non-empty field, then a blank line. */
  method FormatRecord(n: nat, d: Deployment) returns (block: seq<string>)
    ensures block == RecordBlock(n, d)
  {
    var head := [NatToString(n) + ". " + d.name];
    block := head;
    if d.path != "" { block := block + ["   路径: " + d.path]; }
    assert block == head + OptLine("   路径: ", d.path);
    if d.cid != "" { block := block + ["   CID: " + d.cid]; }
    assert block == head + OptLine("   路径: ", d.path) + OptLine("   CID: ", d.cid);
    if d.ensUrl != "" { block := block + ["   ENS: " + d.ensUrl]; }
    ghost var upToEns := head + OptLine("   路径: ", d.path) + OptLine("   CID: ", d.cid) + OptLine("   ENS: ", d.ensUrl);
    assert block == upToEns;
    if d.size != "" { block := block + ["   大小: " + d.size]; }
    assert block == upToEns + OptLine("   大小: ", d.size);
    if d.files != "" { block := block + ["   文件数: " + d.files]; }
    ghost var upToFiles := upToEns + OptLine("   大小: ", d.size) + OptLine("   文件数: ", d.files);
    assert block == upToFiles;
    if d.kind != "" { block := block + ["   类型: " + d.kind]; }
    assert block == upToFiles + OptLine("   类型: ", d.kind);
    if d.date != "" { block := block + ["   日期: " + d.date]; }
    assert block == upToFiles + OptLine("   类型: ", d.kind) + OptLine("   日期: ", d.date);
    block := block + [""];
  }

  /** The totals lines, shown only when the upload count was found. */
  method FormatTotals(totals: Totals) returns (lines: seq<string>)
    ensures lines == TotalsLines(totals)
  {
    lines := [];
    if totals.uploads.Some? {
      lines := lines + [TotalsHeading, "  上传数: " + totals.uploads.value];
      if totals.files.Some? { lines := lines + ["  文件数: " + totals.files.value]; }
      if totals.size.Some? { lines := lines + ["  总大小: " + totals.size.value]; }
    }
  }

  /** The `forEach` over the records: their blocks, numbered from 1. */
  method FormatBlocks(deployments: seq<Deployment>) returns (blocks: seq<string>)
    ensures blocks == Blocks(deployments)
  {
    blocks := [];
    for index := 0 to |deployments|
      invariant blocks == Blocks(deployments[..index])
    {
      assert deployments[..index + 1][..index] == deployments[..index];
      var block := FormatRecord(index + 1, deployments[index]);
      blocks := blocks + block;
    }
    assert deployments[..|deployments|] == deployments;
  }

  /** The formatting code: the title, the record blocks, then the totals,
      then the empty-state note. */
  method FormatListing(deployments: seq<Deployment>, totals: Totals) returns (lines: seq<string>)
    ensures lines == ListingLines(deployments, totals)
  {
    lines := [Title, ""];
    if |deployments| > 0 {
      var blocks := FormatBlocks(deployments);
      lines := lines + blocks;
    }
    assert lines == [Title, ""] + Blocks(deployments);
    var totalsLines := FormatTotals(totals);
    lines := lines + totalsLines;
    if |deployments| == 0 {
      lines := lines + [EmptyNote];
    }
  }

  /** Lines of a record block start with a digit or three spaces, or are blank. */
  predicate IsBlockLine(l: string) {
    l == "" || IsDigit(l[0]) || (|l| >= 3 && l[..3] == "   ")
  }

  lemma {:induction false} BlockLines(ds: seq<Deployment>)
    ensures forall l | l in Blocks(ds) :: IsBlockLine(l)
    decreases |ds|
  {
    if ds != [] {
      BlockLines(ds[..|ds| - 1]);
      var n := |ds|;
      var d := ds[n - 1];
      var head := NatToString(n) + ". " + d.name;
      assert IsDigit(head[0]);
      forall l | l in RecordBlock(n, d) ensures IsBlockLine(l) {
        if l != head && l != "" {
          assert |l| >= 3 && l[..3] == "   ";
        }
      }
    }
  }

  lemma TotalsLineIn(t: Totals, caption: string, v: string)
    requires caption == "  文件数: " || caption == "  总大小: "
    ensures caption + v in TotalsLines(t) <==>
              t.uploads.Some? && (if caption == "  文件数: " then t.files else t.size) == Some(v)
  {
    var l := caption + v;
    assert l[..|caption|] == caption;
    assert l != TotalsHeading by { assert l[2] == caption[2] != TotalsHeading[2]; }
    if t.uploads.Some? {
      assert l != "  上传数: " + t.uploads.value by {
        assert ("  上传数: " + t.uploads.value)[2] == '上' != l[2];
      }
      if t.files.Some? {
        var f := "  文件数: " + t.files.value;
        assert f[..|"  文件数: "|] == "  文件数: ";
        assert l == f <==> caption == "  文件数: " && v == t.files.value;
      }
      if t.size.Some? {
        var z := "  总大小: " + t.size.value;
        assert z[..|"  总大小: "|] == "  总大小: ";
        assert l == z <==> caption == "  总大小: " && v == t.size.value;
      }
    }
  }

  /** The empty-state note is shown exactly when no record was parsed. */
  lemma ListingEmptyNote(ds: seq<Deployment>, t: Totals)
    ensures EmptyNote in ListingLines(ds, t) <==> ds == []
  {
    BlockLines(ds);
    assert !IsBlockLine(EmptyNote);
    assert EmptyNote !in TotalsLines(t);
  }

  /** A line that no record block, title or note can be is in the listing
      exactly when it is one of the totals lines. */
  lemma InListingTotals(ds: seq<Deployment>, t: Totals, l: string)
    requires !IsBlockLine(l) && l != Title && l != EmptyNote
    ensures l in ListingLines(ds, t) <==> l in TotalsLines(t)
  {
    BlockLines(ds);
    assert l !in Blocks(ds);
    var tail := if ds == [] then [EmptyNote] else [];
    assert ListingLines(ds, t) == ([Title, ""] + Blocks(ds)) + TotalsLines(t) + tail;
    assert l !in [Title, ""] + Blocks(ds);
    assert l !in tail;
  }

  /** The totals block is shown exactly when `Total Uploads:` was found with
      digits; the file and size totals then appear each on its own condition. */
  lemma ListingTotals(ds: seq<Deployment>, t: Totals)
    ensures TotalsHeading in ListingLines(ds, t) <==> t.uploads.Some?
    ensures forall f :: "  文件数: " + f in ListingLines(ds, t) <==> t.uploads.Some? && t.files == Some(f)
    ensures forall z :: "  总大小: " + z in ListingLines(ds, t) <==> t.uploads.Some? && t.size == Some(z)
  {
    InListingTotals(ds, t, TotalsHeading);
    forall f ensures "  文件数: " + f in ListingLines(ds, t) <==> t.uploads.Some? && t.files == Some(f) {
      var l := "  文件数: " + f;
      assert l[..3] == "  文";
      InListingTotals(ds, t, l);
      TotalsLineIn(t, "  文件数: ", f);
    }
    forall z ensures "  总大小: " + z in ListingLines(ds, t) <==> t.uploads.Some? && t.size == Some(z) {
      var l := "  总大小: " + z;
      assert l[..3] == "  总";
      InListingTotals(ds, t, l);
      TotalsLineIn(t, "  总大小: ", z);
    }
  }
}
