/** Enrolling the checksum of a configuration file: find the signature in the executable and
    replace the bytes after it. */
module EnrollConfigs {
  import opened Options
  import opened DiskModel

  const DIGEST := 128

  predicate MatchAt(file: seq<byte>, sign: seq<byte>, p: nat) {
    p + |sign| <= |file| && file[p..p + |sign|] == sign
  }

  /** The search looks at bytes below this index only. */
  function Limit(file: seq<byte>, sign: seq<byte>): nat {
    if |file| < |sign| + DIGEST then 0 else |file| - (|sign| + DIGEST) + 1
  }

  /** The signature starts at `p` and its last byte lies below the limit. */
  predicate Visible(file: seq<byte>, sign: seq<byte>, p: nat) {
    MatchAt(file, sign, p) && p + |sign| - 1 < Limit(file, sign)
  }

  /** `loc` is the end of the first visible signature, or there is none. */
  ghost predicate Locates(file: seq<byte>, sign: seq<byte>, loc: Option<nat>) {
    match loc
    case None => forall p: nat :: !Visible(file, sign, p)
    case Some(end) =>
      && end >= |sign| && Visible(file, sign, end - |sign|)
      && (forall p: nat | p < end - |sign| :: !Visible(file, sign, p))
  }

  /** A position where the comparison fails starts no signature. */
  lemma Mismatch(file: seq<byte>, sign: seq<byte>, i: nat, checked: nat)
    requires checked <= i < |file| && checked < |sign| && file[i] != sign[checked]
    ensures !MatchAt(file, sign, i - checked)
  {
    if i - checked + |sign| <= |file| {
      assert file[i - checked..i - checked + |sign|][checked] == file[i];
    }
  }

  /** Nothing before the place being compared is a visible signature. */
  ghost predicate NoneBefore(file: seq<byte>, sign: seq<byte>, start: nat) {
    forall p: nat | p < start :: !Visible(file, sign, p)
  }

  /** One more byte agrees. */
  lemma Agreement(file: seq<byte>, sign: seq<byte>, i: nat, checked: nat)
    requires checked <= i < |file| && checked < |sign| && file[i] == sign[checked]
    requires file[i - checked..i] == sign[..checked]
    ensures file[i - checked..i + 1] == sign[..checked + 1]
  {
    assert file[i - checked..i + 1] == file[i - checked..i] + [file[i]];
    assert sign[..checked + 1] == sign[..checked] + [sign[checked]];
  }

  /** All of the signature agrees. */
  lemma Found(file: seq<byte>, sign: seq<byte>, end: nat)
    requires |sign| <= end <= Limit(file, sign) && sign != [] && NoneBefore(file, sign, end - |sign|)
    requires file[end - |sign|..end] == sign[..|sign|]
    ensures Locates(file, sign, Some(end)) && end + DIGEST <= |file|
  {
    assert sign[..|sign|] == sign;
  }

  /** The search has passed every place where a visible signature could start. */
  lemma NotFound(file: seq<byte>, sign: seq<byte>, start: nat)
    requires sign != [] && NoneBefore(file, sign, start) && start + |sign| > Limit(file, sign)
    ensures Locates(file, sign, None)
  {
    hide MatchAt;
  }

  lemma PassedMismatch(file: seq<byte>, sign: seq<byte>, i: nat, checked: nat)
    requires checked <= i < |file| && checked < |sign| && file[i] != sign[checked]
    requires NoneBefore(file, sign, i - checked)
    ensures NoneBefore(file, sign, i - checked + 1)
  {
    Mismatch(file, sign, i, checked);
    hide MatchAt;
  }

  /** The search loop, which falls back to the byte after the start of a failed match. */
  method FindChecksum(file: seq<byte>, sign: seq<byte>) returns (loc: Option<nat>)
    requires sign != []
    ensures Locates(file, sign, loc)
    ensures loc.Some? ==> loc.value + DIGEST <= |file|
  {
    hide Locates, Visible, MatchAt;
    if |file| < |sign| + DIGEST {
      NotFound(file, sign, 0);
      return None;
    }
    var limit := |file| - (|sign| + DIGEST) + 1;
    var i, checked := 0, 0;
    while i < limit
      invariant checked <= i <= limit && checked < |sign|
      invariant file[i - checked..i] == sign[..checked]
      invariant NoneBefore(file, sign, i - checked)
      decreases limit - (i - checked), limit - i
    {
      hide NoneBefore;
      if file[i] != sign[checked] {
        PassedMismatch(file, sign, i, checked);
        if checked > 0 {
          i := i - checked;
          checked := 0;
        }
      } else {
        Agreement(file, sign, i, checked);
        checked := checked + 1;
        if checked == |sign| {
          Found(file, sign, i + 1);
          return Some(i + 1);
        }
      }
      i := i + 1;
    }
    NotFound(file, sign, i - checked);
    return None;
  }

  lemma LocatesUnique(file: seq<byte>, sign: seq<byte>, a: Option<nat>, b: Option<nat>)
    requires Locates(file, sign, a) && Locates(file, sign, b)
    ensures a == b
  {
    if a.Some? && b.Some? {
      assert !(a.value < b.value) && !(b.value < a.value);
    }
  }

  /** A signature followed by exactly the digest is there, and is not seen: the limit bounds its
      last byte, not its first. */
  lemma LastPlaceIsNotSeen(sign: seq<byte>, digest: seq<byte>)
    requires |sign| > 1 && |digest| == DIGEST
    ensures MatchAt(sign + digest, sign, 0) && Locates(sign + digest, sign, None)
  {
    var file := sign + digest;
    assert file[0..|sign|] == sign;
    assert Limit(file, sign) == 1;
  }

  /** The search finds the first signature of the file if and only if it ends early enough, and
      otherwise it finds nothing at all. */
  lemma FirstMatchFound(file: seq<byte>, sign: seq<byte>, p: nat)
    requires sign != [] && MatchAt(file, sign, p) && forall q: nat | q < p :: !MatchAt(file, sign, q)
    ensures Locates(file, sign, Some(p + |sign|)) <==> p + 2 * |sign| + DIGEST <= |file| + 1
    ensures Locates(file, sign, None) <==> p + 2 * |sign| + DIGEST > |file| + 1
  {
    var early := p + 2 * |sign| + DIGEST <= |file| + 1;
    assert Visible(file, sign, p) <==> early;
    forall q: nat | q > p && !early
      ensures !Visible(file, sign, q)
    {
    }
    hide MatchAt;
  }

  // ---- enrolling ------------------------------------------------------------

  method Enroll(file: seq<byte>, sign: seq<byte>, digest: seq<byte>) returns (result: Option<seq<byte>>)
    requires sign != [] && |digest| == DIGEST
    ensures result.None? ==> Locates(file, sign, None)
    ensures result.Some? ==>
              exists end: nat :: Locates(file, sign, Some(end)) && result.value == Overwrite(file, end, digest)
  {
    var loc := FindChecksum(file, sign);
    if loc.None? {
      return None;
    }
    result := Some(Overwrite(file, loc.value, digest));
  }

  lemma SameBefore(file: seq<byte>, end: nat, digest: seq<byte>, sign: seq<byte>, p: nat)
    requires p + |sign| <= end <= |file|
    ensures Visible(Overwrite(file, end, digest), sign, p) <==> Visible(file, sign, p)
  {
    assert Overwrite(file, end, digest)[p..p + |sign|] == file[p..p + |sign|];
  }

  lemma OverwriteTwice(file: seq<byte>, end: nat, first: seq<byte>, second: seq<byte>)
    requires |first| == |second|
    ensures Overwrite(Overwrite(file, end, first), end, second) == Overwrite(file, end, second)
  {
  }

  /** Enrolling leaves the signature in place: a later enrolment or reset finds the same bytes,
      so the last one wins and nothing else in the file changes. */
  lemma EnrollAgain(file: seq<byte>, sign: seq<byte>, end: nat, first: seq<byte>, second: seq<byte>)
    requires sign != [] && |first| == |second| == DIGEST && Locates(file, sign, Some(end))
    ensures Locates(Overwrite(file, end, first), sign, Some(end))
    ensures Overwrite(Overwrite(file, end, first), end, second) == Overwrite(file, end, second)
  {
    var after := Overwrite(file, end, first);
    forall p: nat | p + |sign| <= end
      ensures Visible(after, sign, p) <==> Visible(file, sign, p)
    {
      SameBefore(file, end, first, sign, p);
    }
    hide Visible, Overwrite;
    OverwriteTwice(file, end, first, second);
  }
}
