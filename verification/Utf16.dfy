/** Counting and truncating UTF-16 text by code points.

    Decoding follows section 2.2 of RFC 2781, except that an unpaired surrogate stands for itself
    instead of being an error, which is what the ICU iteration macro does. */
module Utf16 {

  type CodeUnit = x: int | 0 <= x < 0x1_0000
  type CodePoint = x: int | 0 <= x < 0x11_0000

  predicate IsLead(u: CodeUnit) { 0xD800 <= u < 0xDC00 }

  predicate IsTrail(u: CodeUnit) { 0xDC00 <= u < 0xE000 }

  /** How many units the code point at the start takes. */
  function Width(s: seq<CodeUnit>): nat
    requires s != []
  {
    if IsLead(s[0]) && |s| > 1 && IsTrail(s[1]) then 2 else 1
  }

  function First(s: seq<CodeUnit>): CodePoint
    requires s != []
  {
    if Width(s) == 2 then
      var lead: int, trail: int := s[0], s[1];
      0x1_0000 + (lead - 0xD800) * 0x400 + (trail - 0xDC00)
    else s[0]
  }

  function Decode(s: seq<CodeUnit>): seq<CodePoint> {
    if s == [] then [] else [First(s)] + Decode(s[Width(s)..])
  }

  function EncodeOne(c: CodePoint): seq<CodeUnit> {
    if c < 0x1_0000 then [c] else [0xD800 + (c - 0x1_0000) / 0x400, 0xDC00 + (c - 0x1_0000) % 0x400]
  }

  function Encode(cs: seq<CodePoint>): seq<CodeUnit> {
    if cs == [] then [] else EncodeOne(cs[0]) + Encode(cs[1..])
  }

  /** The first `n` code points of `s`, as units; the reference for truncation. */
  function Take(s: seq<CodeUnit>, n: nat): (r: seq<CodeUnit>)
    ensures r <= s
  {
    if s == [] || n == 0 then [] else
    var w := Width(s);
    var r := Take(s[w..], n - 1);
    assert s[..w] + s[w..][..|r|] == s[..w + |r|];
    s[..w] + r
  }

  function Min(a: int, b: int): int { if a < b then a else b }

  function ToInt32(n: nat): int {
    var m := n % 0x1_0000_0000;
    if m < 0x8000_0000 then m else m - 0x1_0000_0000
  }

  // ----------------------------------------------------------------- round trip

  lemma EncodeFirst(s: seq<CodeUnit>)
    requires s != []
    ensures EncodeOne(First(s)) == s[..Width(s)]
  {
  }

  lemma {:induction false} EncodeDecodes(s: seq<CodeUnit>)
    ensures Encode(Decode(s)) == s
  {
    if s == [] {
    } else {
      var rest := s[Width(s)..];
      EncodeFirst(s);
      EncodeDecodes(rest);
      assert Decode(s)[1..] == Decode(rest);
      assert s == s[..Width(s)] + rest;
    }
  }

  /** A lead surrogate as a code point of its own, followed by a trail surrogate. */
  predicate JoinsAt(cs: seq<CodePoint>, i: nat) {
    i + 1 < |cs| && 0xD800 <= cs[i] < 0xDC00 && 0xDC00 <= cs[i + 1] < 0xE000
  }

  lemma DecodeFirstEncoded(c: CodePoint, rest: seq<CodeUnit>)
    ensures EncodeOne(c) + rest != []
    ensures (IsLeadPoint(c) ==> rest == [] || !IsTrail(rest[0])) ==>
      First(EncodeOne(c) + rest) == c && (EncodeOne(c) + rest)[Width(EncodeOne(c) + rest)..] == rest
    ensures IsLeadPoint(c) && rest != [] && IsTrail(rest[0]) ==> First(EncodeOne(c) + rest) != c
  {
  }

  predicate IsLeadPoint(c: CodePoint) { 0xD800 <= c < 0xDC00 }

  /** The first unit of an encoded text. */
  lemma FirstUnit(cs: seq<CodePoint>)
    requires cs != []
    ensures Encode(cs) != [] && (IsTrail(Encode(cs)[0]) <==> 0xDC00 <= cs[0] < 0xE000)
  {
    assert EncodeOne(cs[0]) != [];
  }

  /** Decoding undoes encoding exactly if no two surrogates among the code points join into a pair. */
  lemma {:induction false} DecodeEncodesIff(cs: seq<CodePoint>)
    ensures Decode(Encode(cs)) == cs <==> forall i: nat :: !JoinsAt(cs, i)
  {
    if cs == [] {
    } else {
      var rest := Encode(cs[1..]);
      DecodeFirstEncoded(cs[0], rest);
      DecodeEncodesIff(cs[1..]);
      if |cs| > 1 {
        FirstUnit(cs[1..]);
      }
      assert forall i: nat :: JoinsAt(cs[1..], i) <==> JoinsAt(cs, i + 1);
      if JoinsAt(cs, 0) {
        assert Decode(Encode(cs))[0] != cs[0];
      } else {
        assert Decode(Encode(cs)) == [cs[0]] + Decode(rest);
        assert Decode(Encode(cs))[1..] == Decode(rest);
        if i: nat :| JoinsAt(cs, i) {
          assert JoinsAt(cs[1..], i - 1);
        }
        if i: nat :| JoinsAt(cs[1..], i) {
          assert JoinsAt(cs, i + 1);
        }
        if Decode(rest) == cs[1..] {
          assert [cs[0]] + cs[1..] == cs;
        }
      }
    }
  }

  /** A unit string never has more code points than units. */
  lemma {:induction false} DecodeIsShorter(s: seq<CodeUnit>)
    ensures |Decode(s)| <= |s|
  {
    if s == [] {
    } else {
      DecodeIsShorter(s[Width(s)..]);
    }
  }

  // --------------------------------------------------------------- what Take does

  /** The cut at `k` separates a lead surrogate from its trail. */
  predicate CutsPair(s: seq<CodeUnit>, k: nat)
    requires k <= |s|
  {
    0 < k < |s| && IsLead(s[k - 1]) && IsTrail(s[k])
  }

  /** The first code point does not depend on how much of the rest is kept. */
  lemma DecodeKept(s: seq<CodeUnit>, r: seq<CodeUnit>)
    requires s != [] && r <= s[Width(s)..]
    ensures Decode(s[..Width(s)] + r) == [First(s)] + Decode(r)
  {
  }

  lemma {:induction false} DecodeOfTake(s: seq<CodeUnit>, n: nat)
    ensures Decode(Take(s, n)) == Decode(s)[..Min(n, |Decode(s)|)]
  {
    if s == [] || n == 0 {
    } else {
      var rest := s[Width(s)..];
      DecodeOfTake(rest, n - 1);
      DecodeKept(s, Take(rest, n - 1));
    }
  }

  lemma {:induction false} TakeKeepsPairs(s: seq<CodeUnit>, n: nat)
    ensures !CutsPair(s, |Take(s, n)|)
  {
    if s == [] || n == 0 {
    } else {
      var w := Width(s);
      var k := |Take(s[w..], n - 1)|;
      TakeKeepsPairs(s[w..], n - 1);
      assert |Take(s, n)| == w + k;
      if 0 < k && w + k < |s| {
        assert s[w + k - 1] == s[w..][k - 1] && s[w + k] == s[w..][k];
      }
    }
  }

  lemma {:induction false} TakeIsPrefixByCodePoints(s: seq<CodeUnit>, n: nat)
    ensures Decode(Take(s, n)) == Decode(s)[..Min(n, |Decode(s)|)]
    ensures !CutsPair(s, |Take(s, n)|)
  {
    DecodeOfTake(s, n);
    TakeKeepsPairs(s, n);
  }

  lemma {:induction false} TakeByEncoding(s: seq<CodeUnit>, n: nat)
    ensures Take(s, n) == Encode(Decode(s)[..Min(n, |Decode(s)|)])
  {
    TakeIsPrefixByCodePoints(s, n);
    EncodeDecodes(Take(s, n));
  }

  lemma {:induction false} TakeAll(s: seq<CodeUnit>, n: nat)
    requires n >= |Decode(s)|
    ensures Take(s, n) == s
  {
    if s == [] {
    } else {
      TakeAll(s[Width(s)..], n - 1);
    }
  }

  /** Taking twice is taking the smaller number; in particular it is idempotent. */
  lemma {:induction false} TakeTwice(s: seq<CodeUnit>, m: nat, n: nat)
    ensures Take(Take(s, m), n) == Take(s, Min(m, n))
  {
    var d := Decode(s);
    var k := Min(m, |d|);
    TakeIsPrefixByCodePoints(s, m);
    TakeByEncoding(Take(s, m), n);
    TakeByEncoding(s, Min(m, n));
    assert d[..k][..Min(n, k)] == d[..Min(Min(m, n), |d|)];
  }

  // -------------------------------------------------------------------- the code

  /** The early return of the service: nothing to cut, judged by a 32-bit length. */
  predicate ReturnsEarly(s: seq<CodeUnit>, maxChars: int) {
    maxChars < 0 || ToInt32(|s|) <= maxChars
  }

  /** One more code point extends what was taken by the width found at the cut. */
  lemma {:induction false} TakeStep(s: seq<CodeUnit>, n: nat)
    requires |Take(s, n)| < |s|
    ensures var rest := s[|Take(s, n)|..]; Take(s, n + 1) == Take(s, n) + rest[..Width(rest)]
  {
    if n == 0 {
      assert Take(s[Width(s)..], 0) == [];
    } else {
      var w := Width(s);
      var tail := s[w..];
      var r := Take(tail, n - 1);
      var rest := tail[|r|..];
      TakeStep(tail, n - 1);
      assert s[|Take(s, n)|..] == rest;
      assert Take(s, n + 1) == s[..w] + (r + rest[..Width(rest)]);
    }
  }

  /** Position of the first zero unit, or the length. */
  function FirstZero(s: seq<CodeUnit>): (i: nat)
    ensures i <= |s| && (i < |s| ==> s[i] == 0) && 0 !in s[..i]
  {
    if s == [] || s[0] == 0 then 0 else
    var i := FirstZero(s[1..]);
    assert s[..1 + i] == [s[0]] + s[1..][..i];
    1 + i
  }

  /** The part of the text that the library counts when it is given the length in 32 bits: minus one
      stands for a text that ends at its first zero, and below that nothing is counted. */
  function CountedPart(s: seq<CodeUnit>): (r: seq<CodeUnit>)
    ensures r <= s
  {
    var length := ToInt32(|s|);
    if length >= 0 then s[..length] else if length == -1 then s[..FirstZero(s)] else []
  }

  /** A shorter part has fewer code points, unless the cut separates the last pair. */
  lemma {:induction false} PartHasFewer(s: seq<CodeUnit>, k: nat)
    requires k < |s| && (k + 1 == |s| ==> !CutsPair(s, k))
    ensures |Decode(s[..k])| < |Decode(s)|
  {
    var w := Width(s);
    if k < w {
      assert s[..k] == [] || s[..k] == [s[0]];
      assert k == 1 ==> Decode(s[..k][1..]) == [];
    } else {
      assert s[w..][..k - w] == s[..k][w..];
      PartHasFewer(s[w..], k - w);
    }
  }

  lemma ToInt32Fits(n: nat)
    ensures ToInt32(n) <= n && (ToInt32(n) == n <==> n < 0x8000_0000)
    ensures n >= 0x8000_0000 && ToInt32(n) >= 0 ==> ToInt32(n) + 1 < n
  {
  }

  /** All code points are counted exactly if the length fits 32 bits, or is read as minus one and the
      text holds no zero. */
  lemma CountsAllIff(s: seq<CodeUnit>)
    ensures |Decode(CountedPart(s))| == |Decode(s)| <==>
      |s| < 0x8000_0000 || (ToInt32(|s|) == -1 && 0 !in s)
  {
    var k := |CountedPart(s)|;
    ToInt32Fits(|s|);
    if k == |s| {
      assert s[..k] == s;
    } else {
      assert k + 1 == |s| ==> s[k] == 0;
      PartHasFewer(s, k);
      assert CountedPart(s) == s[..k];
      assert ToInt32(|s|) == -1 ==> s[k] == 0 && 0 in s;
    }
  }

  method CountUtf16Chars(s: seq<CodeUnit>) returns (count: nat)
    ensures count == |Decode(CountedPart(s))|
    ensures |s| < 0x8000_0000 ==> count == |Decode(s)|
  {
    CountsAllIff(s);
    count := CountCodePoints(CountedPart(s));
  }

  method CountCodePoints(s: seq<CodeUnit>) returns (count: nat)
    ensures count == |Decode(s)|
  {
    var offset := 0;
    count := 0;
    while offset < |s|
      invariant 0 <= offset <= |s| && count + |Decode(s[offset..])| == |Decode(s)|
      decreases |s| - offset
    {
      var rest := s[offset..];
      assert s[offset + Width(rest)..] == rest[Width(rest)..];
      offset := offset + (if IsLead(s[offset]) && offset + 1 < |s| && IsTrail(s[offset + 1]) then 2 else 1);
      count := count + 1;
    }
  }

  method TruncateUtf16String(s: seq<CodeUnit>, maxChars: int) returns (r: seq<CodeUnit>)
    ensures r == if ReturnsEarly(s, maxChars) then s else Take(s, maxChars)
  {
    if maxChars < 0 || ToInt32(|s|) <= maxChars {
      return s;
    }
    var offset, count := 0, 0;
    while offset < |s| && count < maxChars
      invariant 0 <= offset <= |s| && 0 <= count <= maxChars && s[..offset] == Take(s, count)
      decreases |s| - offset
    {
      TakeStep(s, count);
      CutStep(s, offset);
      var lead := s[offset];
      offset := offset + 1;
      if IsLead(lead) && offset < |s| && IsTrail(s[offset]) {
        offset := offset + 1;
      }
      count := count + 1;
    }
    if offset < |s| {
      return s[..offset];
    }
    TakeExhausted(s, count, maxChars);
    return s;
  }

  lemma CutStep(s: seq<CodeUnit>, offset: nat)
    requires offset < |s|
    ensures var rest := s[offset..];
      && Width(rest) == (if IsLead(s[offset]) && offset + 1 < |s| && IsTrail(s[offset + 1]) then 2 else 1)
      && s[..offset] + rest[..Width(rest)] == s[..offset + Width(rest)]
  {
  }

  lemma {:induction false} TakeExhausted(s: seq<CodeUnit>, k: nat, n: nat)
    requires k <= n && Take(s, k) == s
    ensures Take(s, n) == s
  {
    if s == [] || k == 0 {
    } else {
      var w := Width(s);
      assert (s[..w] + Take(s[w..], k - 1))[w..] == s[w..];
      TakeExhausted(s[w..], k - 1, n - 1);
    }
  }

  /** The promised truncation: exactly the first min(maxChars, all) code points. */
  predicate Truncated(s: seq<CodeUnit>, maxChars: nat, r: seq<CodeUnit>) {
    r <= s && Decode(r) == Decode(s)[..Min(maxChars, |Decode(s)|)] && !CutsPair(s, |r|)
  }

  lemma WholeIsTruncatedIff(s: seq<CodeUnit>, maxChars: nat)
    ensures Truncated(s, maxChars, s) <==> |Decode(s)| <= maxChars
  {
  }

  /** What the code returns keeps the promise exactly when its early return is not fooled by a length
      that does not fit 32 bits; below 2^31 units it always does. */
  lemma {:induction false} TruncatesIff(s: seq<CodeUnit>, maxChars: nat)
    ensures var r := if ReturnsEarly(s, maxChars) then s else Take(s, maxChars);
      && (Truncated(s, maxChars, r) <==> (ToInt32(|s|) <= maxChars ==> |Decode(s)| <= maxChars))
      && (|s| < 0x8000_0000 ==> Truncated(s, maxChars, r))
  {
    if ToInt32(|s|) <= maxChars {
      DecodeIsShorter(s);
      WholeIsTruncatedIff(s, maxChars);
    } else {
      TakeIsPrefixByCodePoints(s, maxChars);
    }
  }

  /** Such a text exists: 2^31 letters are not cut to none, since their length is taken as negative. */
  lemma LongTextIsNotTruncated() returns (s: seq<CodeUnit>)
    ensures ReturnsEarly(s, 0) && !Truncated(s, 0, s)
  {
    s := seq(0x8000_0000, _ => 65);
    WholeIsTruncatedIff(s, 0);
  }
}
