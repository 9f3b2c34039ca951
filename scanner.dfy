/** `WinAPISignatureScanner::scan`: a left-to-right search of a module's
    image for a byte pattern in which the positions the mask marks `'?'`
    match any byte.  The image is `region`, loaded at the non-null address
    `base`; the returned address 0 is `nullptr`. */
module Scanning {
  import opened Base
  import opened Backends

  /** `cyanide::memory::Signature`. */
  datatype Signature = Signature(pattern: seq<bv8>, mask: string, offset: nat)

  /** The pattern, placed at offset `p` of the region, lies inside it and
      agrees with it at every position the mask does not mark `'?'`. */
  predicate MatchesAt(region: seq<bv8>, sig: Signature, p: nat)
    requires |sig.pattern| == |sig.mask|
  {
    && p < |region|
    && p + |sig.pattern| <= |region|
    && forall i :: 0 <= i < |sig.pattern| ==> sig.mask[i] == '?' || region[p + i] == sig.pattern[i]
  }

  /** The leftmost offset at or after `from` where the pattern matches. */
  function FirstMatchFrom(region: seq<bv8>, sig: Signature, from: nat): (r: Option<nat>)
    requires |sig.pattern| == |sig.mask|
    ensures r.Some? ==> from <= r.value && MatchesAt(region, sig, r.value)
    ensures r.Some? ==> forall q :: from <= q < r.value ==> !MatchesAt(region, sig, q)
    ensures r.None? <==> forall q :: from <= q ==> !MatchesAt(region, sig, q)
    decreases |region| - from
  {
    if from >= |region| then None
    else if MatchesAt(region, sig, from) then Some(from)
    else FirstMatchFrom(region, sig, from + 1)
  }

  /** What `scan` returns for the image at `base`: `logic_error` when the
      pattern and the mask differ in length; otherwise the address of the
      leftmost match, or null when there is none.  The signature's
      `offset` plays no part. */
  function ScanResult(region: seq<bv8>, base: PosAddr, sig: Signature): (r: Result<nat>)
    ensures r.Failure? <==> |sig.pattern| != |sig.mask|
    ensures r.Failure? ==> r.error == LogicError
    ensures r.Success? && r.value != 0 ==>
      && base <= r.value < base + |region|
      && r.value + |sig.pattern| <= base + |region|
      && MatchesAt(region, sig, r.value - base)
      && forall q: nat :: q < r.value - base ==> !MatchesAt(region, sig, q)
    ensures r.Success? ==> (r.value == 0 <==> forall q :: !MatchesAt(region, sig, q))
  {
    if |sig.pattern| != |sig.mask| then Failure(LogicError)
    else
      match FirstMatchFrom(region, sig, 0)
      case None => Success(0)
      case Some(p) => Success(base + p)
  }

  class SignatureScanner {
    const base: PosAddr
    const region: seq<bv8>

    /** The scanner of an image already located; finding the image through
        `VirtualQuery` and its PE header is not part of this model. */
    constructor (base: PosAddr, region: seq<bv8>)
      ensures this.base == base && this.region == region
    {
      this.base := base;
      this.region := region;
    }

    /** `scan`: for each start position, compares the pattern until it runs
        past the image or a non-wildcard byte differs; the first start at
        which the whole pattern was compared is returned. */
    method Scan(sig: Signature) returns (r: Result<nat>)
      ensures r == ScanResult(region, base, sig)
    {
      if |sig.pattern| != |sig.mask| {
        return Failure(LogicError);
      }
      var size := |region|;
      var patternSize := |sig.pattern|;
      var current := 0;
      while current < size
        invariant 0 <= current <= size
        invariant FirstMatchFrom(region, sig, 0) == FirstMatchFrom(region, sig, current)
      {
        var i := 0;
        while i < patternSize
          invariant 0 <= i <= patternSize
          invariant current + i <= size
          invariant forall j :: 0 <= j < i ==> sig.mask[j] == '?' || region[current + j] == sig.pattern[j]
        {
          if current + i >= size {
            NoMatchAt(region, sig, current, i);
            break;
          }
          if region[current + i] != sig.pattern[i] && sig.mask[i] != '?' {
            NoMatchAt(region, sig, current, i);
            break;
          }
          i := i + 1;
        }
        if i == patternSize {
          assert MatchesAt(region, sig, current);
          return Success(base + current);
        }
        current := current + 1;
      }
      return Success(0);
    }
  }

  /** Running past the image, or a differing byte at a position without a
      wildcard, rules a start position out. */
  lemma NoMatchAt(region: seq<bv8>, sig: Signature, p: nat, i: nat)
    requires |sig.pattern| == |sig.mask| && i < |sig.pattern|
    requires p + i >= |region| || (region[p + i] != sig.pattern[i] && sig.mask[i] != '?')
    ensures !MatchesAt(region, sig, p)
  {
  }

  // ---------------------------------------------------------------------
  // Properties

  /** The signature's offset is never added to the result. */
  lemma ScanIgnoresOffset(region: seq<bv8>, base: PosAddr, sig: Signature, offset: nat)
    ensures ScanResult(region, base, sig.(offset := offset)) == ScanResult(region, base, sig)
  {
    if |sig.pattern| == |sig.mask| {
      var other := sig.(offset := offset);
      forall q: nat ensures MatchesAt(region, other, q) == MatchesAt(region, sig, q) {
      }
      FirstMatchIgnoresOffset(region, sig, other, 0);
    }
  }

  lemma {:induction false} FirstMatchIgnoresOffset(region: seq<bv8>, sig: Signature, other: Signature, from: nat)
    requires |sig.pattern| == |sig.mask| && other == sig.(offset := other.offset)
    ensures FirstMatchFrom(region, other, from) == FirstMatchFrom(region, sig, from)
    decreases |region| - from
  {
    if from < |region| {
      FirstMatchIgnoresOffset(region, sig, other, from + 1);
    }
  }
}
