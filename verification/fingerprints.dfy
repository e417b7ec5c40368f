/**
 Source fingerprints. A tagged fingerprint carries the digest of the rebuild
 identity (pricing catalog and data layout) beside the digest of the raw data, so
 the two can be compared separately. Digests are taken as given: the hex text of a
 256-bit hash, equal exactly when the hashed identities are equal.
 */
module Fingerprints {
  import opened Common
  import opened Text

  const PRICING_TAG := "fp1:pricing="
  const DATA_SEPARATOR := ":data="
  const DIGEST_LENGTH: nat := 64

  predicate IsHex(c: char) {
    '0' <= c <= '9' || 'a' <= c <= 'f' || 'A' <= c <= 'F'
  }

  predicate IsDigest(s: string) {
    |s| == DIGEST_LENGTH && forall i :: 0 <= i < |s| ==> IsHex(s[i])
  }

  function TagFingerprint(pricingDigest: string, dataDigest: string): string {
    PRICING_TAG + pricingDigest + DATA_SEPARATOR + dataDigest
  }

  /** The pricing digest a fingerprint carries; None for an untagged or malformed one. */
  function PricingIdentity(fingerprint: string): Option<string> {
    if !(PRICING_TAG <= fingerprint) then None
    else
      var rest := fingerprint[|PRICING_TAG|..];
      var separator := IndexOf(rest, DATA_SEPARATOR);
      if separator.None? then None
      else
        var pricing, data := rest[..separator.value], rest[separator.value + |DATA_SEPARATOR|..];
        if IsDigest(pricing) && IsDigest(data) then Some(pricing) else None
  }

  /** The parser inverts the tagger: it accepts exactly the tagged fingerprints and gives the pricing digest back. */
  lemma ParserInvertsTagger(fingerprint: string, pricing: string)
    ensures PricingIdentity(fingerprint) == Some(pricing) <==>
            IsDigest(pricing) && exists data :: IsDigest(data) && fingerprint == TagFingerprint(pricing, data)
  {
    if PricingIdentity(fingerprint) == Some(pricing) {
      var rest := fingerprint[|PRICING_TAG|..];
      var at := IndexOf(rest, DATA_SEPARATOR).value;
      var data := rest[at + |DATA_SEPARATOR|..];
      assert rest == rest[..at] + rest[at..at + |DATA_SEPARATOR|] + data;
      assert fingerprint == TagFingerprint(pricing, data);
    }
    if data :| IsDigest(pricing) && IsDigest(data) && fingerprint == TagFingerprint(pricing, data) {
      TagParses(pricing, data);
    }
  }

  lemma TagParses(pricing: string, data: string)
    requires IsDigest(pricing) && IsDigest(data)
    ensures PricingIdentity(TagFingerprint(pricing, data)) == Some(pricing)
  {
    var fingerprint := TagFingerprint(pricing, data);
    var rest := fingerprint[|PRICING_TAG|..];
    assert rest == pricing + DATA_SEPARATOR + data;
    assert OccursAt(rest, DATA_SEPARATOR, DIGEST_LENGTH);
    forall k: nat | k < DIGEST_LENGTH
      ensures !OccursAt(rest, DATA_SEPARATOR, k)
    {
      assert rest[k] == pricing[k] && IsHex(pricing[k]);
      OccurrenceStarts(rest, DATA_SEPARATOR, k);
    }
    assert IndexOf(rest, DATA_SEPARATOR) == Some(DIGEST_LENGTH);
    assert rest[..DIGEST_LENGTH] == pricing;
    assert rest[DIGEST_LENGTH + |DATA_SEPARATOR|..] == data;
  }

  /**
   Whether the cached rows must be rebuilt because their identity changed. A
   cached fingerprint without a tag counts as changed as soon as the source has
   an identity to compare with.
   */
  predicate PricingIdentityChanged(cached: string, current: string, currentIdentity: string) {
    var currentDigest := PricingIdentity(current);
    if currentDigest.None? then false
    else
      var cachedDigest := PricingIdentity(cached);
      if cachedDigest.Some? then cachedDigest != currentDigest else currentIdentity != ""
  }

  /** A data change alone never forces a rebuild, an identity change always does. */
  lemma OnlyTheIdentityForcesARebuild(pricing: string, data: string, pricing': string, data': string, identity: string)
    requires IsDigest(pricing) && IsDigest(data) && IsDigest(pricing') && IsDigest(data')
    ensures PricingIdentityChanged(TagFingerprint(pricing, data), TagFingerprint(pricing', data'), identity)
            <==> pricing != pricing'
  {
    TagParses(pricing, data);
    TagParses(pricing', data');
  }

  /** The identity text: the pricing snapshot, and the data layout when the source has one. */
  function RebuildIdentity(snapshot: string, layout: string): string {
    if layout == "" then snapshot else snapshot + "\0layout=" + layout
  }

  /** Two identities agree only when both parts agree, as long as no part contains the NUL that joins them. */
  lemma RebuildIdentityIsInjective(snapshot: string, layout: string, snapshot': string, layout': string)
    requires '\0' !in snapshot && '\0' !in layout && '\0' !in snapshot' && '\0' !in layout'
    requires RebuildIdentity(snapshot, layout) == RebuildIdentity(snapshot', layout')
    ensures snapshot == snapshot' && layout == layout'
  {
    FirstNul(snapshot, layout);
    FirstNul(snapshot', layout');
    if layout != "" {
      assert |snapshot| == |snapshot'|;
      var text := RebuildIdentity(snapshot, layout);
      assert snapshot == text[..|snapshot|] == snapshot';
      assert layout == text[|snapshot| + 8..] == layout';
    }
  }

  lemma FirstNul(snapshot: string, layout: string)
    requires '\0' !in snapshot && '\0' !in layout
    ensures var text := RebuildIdentity(snapshot, layout);
            if layout == "" then '\0' !in text
            else |snapshot| + 8 <= |text| && text[|snapshot|] == '\0'
                 && forall i :: 0 <= i < |snapshot| ==> text[i] != '\0'
  {
  }
}
