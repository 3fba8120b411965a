/** What `handleDeploy` extracts from the text the upload command prints, and
    the ENS address it looks up in the listing for the extracted CID. */
module UploadOutput {
  import opened Wrappers
  import opened Text
  import opened Patterns

  /** `baf[a-zA-Z0-9]{56}`: the shape of a base32 CIDv1. */
  const CidV1: Pattern := PrefixAlnum("baf", 56)

  /** `Qm[a-zA-Z0-9]{44}`: the shape of a base58btc CIDv0. */
  const CidV0: Pattern := PrefixAlnum("Qm", 44)

  predicate Occurs(s: string, pat: Pattern) {
    exists p | 0 <= p <= |s| :: MatchesAt(s, p, pat)
  }

  /** The preview URL: the prefix and the whole run of non-white-space after
      it, at the leftmost place where the prefix is followed by at least one
      such character. */
  function ExtractPreviewUrl(s: string): (r: Option<string>)
    ensures r.None? <==> !Occurs(s, PreviewUrl)
    ensures r.Some? ==> Shaped(r.value, PreviewUrl)
    ensures r.Some? ==> exists p | 0 <= p <= |s| :: PreviewAt(s, p, r.value)
  {
    match Search(s, PreviewUrl, 0)
    case None => None
    case Some(p) =>
      PreviewShaped(s, p);
      assert PreviewAt(s, p, Group(s, p, PreviewUrl));
      Some(Group(s, p, PreviewUrl))
  }

  /** `url` is what the preview expression yields at its leftmost match `p`:
      it lies at `p` and its run of visible characters cannot be extended. */
  predicate PreviewAt(s: string, p: nat, url: string) {
    IsFirstMatch(s, p, PreviewUrl) && HasAt(s, p, url) && (p + |url| == |s| || IsSpace(s[p + |url|]))
  }

  /** The CID of `output.match(/baf…/) || output.match(/Qm…/)`: a CIDv1-shaped
      match anywhere in the text wins over every CIDv0-shaped one. */
  function ExtractCid(s: string): (r: Option<string>)
    ensures r.None? <==> !Occurs(s, CidV1) && !Occurs(s, CidV0)
    ensures Occurs(s, CidV1) ==> r.Some? && exists p | 0 <= p <= |s| ::
              IsFirstMatch(s, p, CidV1) && r.value == Group(s, p, CidV1)
    ensures !Occurs(s, CidV1) && r.Some? ==> exists p | 0 <= p <= |s| ::
              IsFirstMatch(s, p, CidV0) && r.value == Group(s, p, CidV0)
    ensures r.Some? ==> IsSubstring(r.value, s)
    ensures r.Some? ==> (|r.value| == 59 && r.value[..3] == "baf") || (|r.value| == 46 && r.value[..2] == "Qm")
  {
    var v1 := Match(s, CidV1);
    if v1.Some? then v1 else Match(s, CidV0)
  }

  /** `indexOf`: the first position at which `t` occurs in `s`. */
  function IndexOf(s: string, t: string): (r: Option<nat>)
    ensures r.Some? ==> HasAt(s, r.value, t) && forall q | 0 <= q < r.value :: !HasAt(s, q, t)
    ensures r.None? <==> !IsSubstring(t, s)
  {
    var r := Search(s, Literal(t), 0);
    var bound := if r.Some? then r.value else |s| + 1;
    assert forall q | 0 <= q < bound :: !HasAt(s, q, t) by {
      forall q | 0 <= q < bound ensures !HasAt(s, q, t) {
        assert !MatchesAt(s, q, Literal(t));
      }
    }
    assert r.Some? ==> MatchesAt(s, r.value, Literal(t));
    r
  }

  /** `u` is the leftmost `https://<hex>.pinit.eth.limo` in `listing` at or
      after the first occurrence of `cid`. */
  predicate EnsAfterCid(listing: string, cid: string, u: string) {
    IndexOf(listing, cid).Some? &&
    var rest := listing[IndexOf(listing, cid).value..];
    exists p | 0 <= p <= |rest| :: IsFirstMatch(rest, p, EnsUrl) && u == Group(rest, p, EnsUrl)
  }

  /** The ENS address reported after an upload: the first
      `https://<hex>.pinit.eth.limo` at or after the first occurrence of the CID
      in the listing's standard output. */
  function LookupEnsUrl(listing: string, cid: string): (r: Option<string>)
    ensures r.Some? ==> EnsAfterCid(listing, cid, r.value)
    ensures forall u :: EnsAfterCid(listing, cid, u) ==> r == Some(u)
    ensures r.Some? ==> IsSubstring(cid, listing) && IsSubstring(r.value, listing) && Shaped(r.value, EnsUrl)
    ensures !IsSubstring(cid, listing) ==> r.None?
  {
    match IndexOf(listing, cid)
    case None => None
    case Some(i) =>
      var ens := Match(listing[i..], EnsUrl);
      if ens.Some? then
        SuffixSubstring(listing, i, ens.value);
        assert IsSubstring(cid, listing) by { assert HasAt(listing, i, cid); }
        ens
      else None
  }

  lemma SuffixSubstring(s: string, i: nat, t: string)
    requires i <= |s| && IsSubstring(t, s[i..])
    ensures IsSubstring(t, s)
  {
    SliceIsSubstring(s, i, |s|);
    assert s[i..|s|] == s[i..];
    SubstringTransitive(t, s[i..], s);
  }
}
