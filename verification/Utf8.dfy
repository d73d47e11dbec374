/** The UTF-8 checker of the parser framework, against section 2 of RFC 2279. */
module Utf8 {
  type octet = x: int | 0 <= x < 0x100 witness 0
  type Text = seq<octet>

  // ----- what the checker accepts -----

  /** The number of leading one bits, up to seven. */
  function Ones(b: octet): (n: nat)
    ensures n <= 7
  {
    if b < 0x80 then 0
    else if b < 0xc0 then 1
    else if b < 0xe0 then 2
    else if b < 0xf0 then 3
    else if b < 0xf8 then 4
    else if b < 0xfc then 5
    else if b < 0xfe then 6
    else 7
  }

  predicate IsContinuation(b: octet) {
    0x80 <= b < 0xc0
  }

  /** One octet sequence: a lead that announces its length, then continuations. */
  predicate IsSequence(q: Text) {
    && q != []
    && (if |q| == 1 then Ones(q[0]) == 0 else Ones(q[0]) == |q| <= 6)
    && forall i | 1 <= i < |q| :: IsContinuation(q[i])
  }

  function Concat(parts: seq<Text>): Text {
    if parts == [] then [] else parts[0] + Concat(parts[1..])
  }

  predicate AllSequences(parts: seq<Text>) {
    forall i | 0 <= i < |parts| :: IsSequence(parts[i])
  }

  ghost predicate IsText(s: Text) {
    exists parts :: AllSequences(parts) && Concat(parts) == s
  }

  /** The length the lead octet announces, 0 for none. */
  function Announced(b: octet): (n: nat)
    ensures n <= 6
  {
    if Ones(b) == 0 then 1 else if Ones(b) == 1 || Ones(b) == 7 then 0 else Ones(b)
  }

  predicate StartsWithSequence(s: Text) {
    s != [] && 1 <= Announced(s[0]) <= |s| && IsSequence(s[..Announced(s[0])])
  }

  /** A text is a sequence and then a text: the lead octet leaves no choice. */
  lemma TextStart(s: Text)
    requires s != []
    ensures IsText(s) <==> StartsWithSequence(s) && IsText(s[Announced(s[0])..])
  {
    if IsText(s) {
      var parts :| AllSequences(parts) && Concat(parts) == s;
      var q := parts[0];
      assert IsSequence(q) && s[0] == q[0] && Announced(q[0]) == |q|;
      assert s[..|q|] == q && s[|q|..] == Concat(parts[1..]);
      assert AllSequences(parts[1..]);
    }
    if StartsWithSequence(s) && IsText(s[Announced(s[0])..]) {
      var n := Announced(s[0]);
      var parts :| AllSequences(parts) && Concat(parts) == s[n..];
      var all := [s[..n]] + parts;
      assert all[1..] == parts && Concat(all) == s[..n] + s[n..] == s;
      assert AllSequences(all);
    }
  }

  lemma EmptyIsText()
    ensures IsText([])
  {
    assert AllSequences([]) && Concat([]) == [];
  }

  // ----- the checker -----

  /** What one turn of the counting loop leaves of the octet. */
  function ShiftLeft(b: octet): octet {
    2 * b % 0x100
  }

  /** Count the leading one bits, stopping at seven. */
  method CountOnes(octetRead: octet) returns (count: nat)
    ensures count == Ones(octetRead)
  {
    var b := octetRead;
    count := 0;
    while count < 7
      invariant count <= 7
      invariant Ones(octetRead) == if count + Ones(b) < 7 then count + Ones(b) else 7
    {
      if b < 0x80 {
        break;
      }
      count := count + 1;
      b := ShiftLeft(b);
    }
  }

  /** `check` returns 0 exactly for a concatenation of octet sequences, and else -1. */
  method Check(data: Text) returns (result: int)
    ensures result == if IsText(data) then 0 else -1
  {
    EmptyIsText();
    var i := 0;
    while i < |data|
      invariant 0 <= i <= |data|
      invariant IsText(data) <==> IsText(data[i..])
    {
      ghost var start := i;
      ghost var s := data[i..];
      TextStart(s);
      var b := data[i];
      i := i + 1;
      var count := CountOnes(b);
      if count == 0 {
        continue;
      }
      if count > 6 || count == 1 {
        return -1;
      }
      var j := 0;
      while j < count - 1
        invariant 0 <= j <= count - 1 && i == start + 1 + j <= |data|
        invariant forall k | 1 <= k < 1 + j :: IsContinuation(s[k])
      {
        if i >= |data| {
          return -1;
        }
        b := data[i];
        i := i + 1;
        if b / 64 != 2 {
          assert s[j + 1] == b && !IsContinuation(s[j + 1]) && Announced(s[0]) == count;
          assert count <= |s| ==> !IsSequence(s[..count]) by {
            if count <= |s| { assert s[..count][j + 1] == b; }
          }
          return -1;
        }
        j := j + 1;
      }
      assert data[i..] == s[count..];
    }
    result := 0;
  }

  // ----- encodings of RFC 2279 -----

  /** The greatest value plus one that n octets can hold. */
  function Room(n: nat): nat
    requires 1 <= n <= 6
  {
    if n == 1 then 0x80
    else if n == 2 then 0x800
    else if n == 3 then 0x1_0000
    else if n == 4 then 0x20_0000
    else if n == 5 then 0x400_0000
    else 0x8000_0000
  }

  /** The bits of a lead octet that announce n octets. */
  function LeadMark(n: nat): octet
    requires 1 <= n <= 6
  {
    if n == 1 then 0
    else if n == 2 then 0xc0
    else if n == 3 then 0xe0
    else if n == 4 then 0xf0
    else if n == 5 then 0xf8
    else 0xfc
  }

  /** What k octets carry: the lower 6 bits of each, most significant first, above them the lead's. */
  function Bits(lead: octet, v: nat, k: nat): (q: seq<int>)
    decreases k
  {
    if k == 0 then [lead + v] else Bits(lead, v / 64, k - 1) + [0x80 + v % 64]
  }

  function ValueOf(lead: octet, q: seq<int>): int
    requires q != []
  {
    if |q| == 1 then q[0] - lead else 64 * ValueOf(lead, q[..|q| - 1]) + (q[|q| - 1] - 0x80)
  }

  /** How much fits above k octets of six bits. */
  function Power(k: nat): (n: nat)
    ensures n > 0
  {
    if k == 0 then 1 else 64 * Power(k - 1)
  }

  lemma PowerStep(top: nat, k: nat)
    requires k > 0
    ensures top * Power(k) == 64 * (top * Power(k - 1))
  {
  }

  lemma {:induction false} BitsAreOctets(lead: octet, v: nat, k: nat, top: nat)
    requires v < top * Power(k) && lead + top <= 0x100
    ensures var q := Bits(lead, v, k);
            |q| == k + 1 && lead <= q[0] < lead + top && ValueOf(lead, q) == v
            && forall i | 1 <= i < |q| :: 0x80 <= q[i] < 0xc0
    decreases k
  {
    if k > 0 {
      PowerStep(top, k);
      assert v / 64 < top * Power(k - 1);
      BitsAreOctets(lead, v / 64, k - 1, top);
      assert Bits(lead, v, k)[..k] == Bits(lead, v / 64, k - 1);
    }
  }

  lemma {:induction false} OctetsAreBits(lead: octet, q: seq<int>, top: nat)
    requires q != [] && lead <= q[0] < lead + top
    requires forall i | 1 <= i < |q| :: 0x80 <= q[i] < 0xc0
    ensures 0 <= ValueOf(lead, q) < top * Power(|q| - 1)
    ensures Bits(lead, ValueOf(lead, q), |q| - 1) == q
  {
    if |q| > 1 {
      var k := |q| - 1;
      OctetsAreBits(lead, q[..k], top);
      var high := ValueOf(lead, q[..k]);
      PowerStep(top, k);
      assert ValueOf(lead, q) / 64 == high && ValueOf(lead, q) % 64 == q[k] - 0x80;
      assert q == q[..k] + [q[k]];
    }
  }

  /** How many values fit into the lead octet of an n-octet sequence. */
  function Top(n: nat): nat
    requires 1 <= n <= 6
  {
    if n == 1 then 0x80
    else if n == 2 then 0x20
    else if n == 3 then 0x10
    else if n == 4 then 8
    else if n == 5 then 4
    else 2
  }

  lemma RoomIsTop(n: nat)
    requires 1 <= n <= 6
    ensures Room(n) == Top(n) * Power(n - 1)
  {
    assert Power(0) == 1 && Power(1) == 64 && Power(2) == 0x1000;
    assert Power(3) == 0x4_0000 && Power(4) == 0x100_0000 && Power(5) == 0x4000_0000;
  }

  /** A value in n octets, whether or not fewer would do. */
  function Encode(v: nat, n: nat): (q: Text)
    requires 1 <= n <= 6 && v < Room(n)
    ensures IsSequence(q) && |q| == n && Decode(q) == v
  {
    EncodeFits(v, n);
    Bits(LeadMark(n), v, n - 1)
  }

  lemma EncodeFits(v: nat, n: nat)
    requires 1 <= n <= 6 && v < Room(n)
    ensures var q := Bits(LeadMark(n), v, n - 1);
            |q| == n && LeadMark(n) <= q[0] < LeadMark(n) + Top(n) && ValueOf(LeadMark(n), q) == v
            && forall i | 1 <= i < |q| :: 0x80 <= q[i] < 0xc0
  {
    RoomIsTop(n);
    BitsAreOctets(LeadMark(n), v, n - 1, Top(n));
  }

  function Decode(q: Text): int
    requires IsSequence(q)
  {
    ValueOf(LeadMark(|q|), q)
  }

  /** The octet sequences are exactly the encodings of values, in the announced number of octets. */
  lemma SequenceIsEncoding(q: Text)
    requires IsSequence(q)
    ensures 0 <= Decode(q) < Room(|q|) && Encode(Decode(q), |q|) == q
  {
    RoomIsTop(|q|);
    OctetsAreBits(LeadMark(|q|), q, Top(|q|));
  }

  type ucs4 = x: int | 0 <= x < 0x8000_0000 witness 0

  /** The number of octets RFC 2279 gives a character. */
  function Length(c: ucs4): (n: nat)
    ensures 1 <= n <= 6 && c < Room(n) && (n > 1 ==> c >= Room(n - 1))
  {
    if c < 0x80 then 1
    else if c < 0x800 then 2
    else if c < 0x1_0000 then 3
    else if c < 0x20_0000 then 4
    else if c < 0x400_0000 then 5
    else 6
  }

  function EncodeAll(cs: seq<ucs4>): seq<Text> {
    if cs == [] then [] else [Encode(cs[0], Length(cs[0]))] + EncodeAll(cs[1..])
  }

  /** The first example of section 4 of RFC 2279, octet by octet. */
  lemma ExampleIsEncoded()
    ensures EncodeAll([0x41, 0x2262, 0x0391, 0x2e]) == [[0x41], [0xe2, 0x89, 0xa2], [0xce, 0x91], [0x2e]]
  {
    assert Bits(0xe0, 0x2262, 2) == Bits(0xe0, 0x89, 1) + [0xa2] && Bits(0xe0, 0x89, 1) == Bits(0xe0, 2, 0) + [0x89];
    assert Bits(0xc0, 0x0391, 1) == Bits(0xc0, 0x0e, 0) + [0x91];
    assert Encode(0x41, 1) == [0x41] && Encode(0x2e, 1) == [0x2e] && Encode(0x0391, 2) == [0xce, 0x91];
    assert Encode(0x2262, 3) == [0xe2, 0x89, 0xa2];
    assert [0x41, 0x2262, 0x0391, 0x2e][1..] == [0x2262, 0x0391, 0x2e];
    assert [0x2262, 0x0391, 0x2e][1..] == [0x0391, 0x2e] && [0x0391, 0x2e][1..] == [0x2e];
  }

  /** Every encoding of UCS-4 characters is a text, and so passes the checker. */
  lemma {:induction false} EncodingsAreTexts(cs: seq<ucs4>)
    ensures IsText(Concat(EncodeAll(cs))) && AllSequences(EncodeAll(cs))
  {
    if cs == [] {
      EmptyIsText();
    } else {
      EncodingsAreTexts(cs[1..]);
      var all := EncodeAll(cs);
      assert all[1..] == EncodeAll(cs[1..]);
      assert AllSequences(all);
    }
  }

  // ----- which texts are encodings -----

  /** A sequence longer than its value needs, read off its first two octets. */
  predicate Overlong(q: Text) {
    |q| >= 2
    && (|| q[0] == 0xc0 || q[0] == 0xc1
        || (q[0] == 0xe0 && q[1] < 0xa0)
        || (q[0] == 0xf0 && q[1] < 0x90)
        || (q[0] == 0xf8 && q[1] < 0x88)
        || (q[0] == 0xfc && q[1] < 0x84))
  }

  /** The first two octets are the most significant bits of the value. */
  lemma {:induction false} LeadingBits(lead: octet, q: seq<int>) returns (low: int)
    requires |q| >= 2 && forall i | 1 <= i < |q| :: 0x80 <= q[i] < 0xc0
    ensures 0 <= low < Power(|q| - 2)
    ensures ValueOf(lead, q) == (64 * (q[0] - lead) + (q[1] - 0x80)) * Power(|q| - 2) + low
  {
    if |q| == 2 {
      low := 0;
      assert ValueOf(lead, q[..1]) == q[0] - lead;
    } else {
      var k := |q| - 1;
      low := LeadingBits(lead, q[..k]);
      PowerTimes(64 * (q[0] - lead) + (q[1] - 0x80), k - 1);
      low := 64 * low + (q[k] - 0x80);
    }
  }

  lemma PowerTimes(h: int, k: nat)
    requires k > 0
    ensures h * Power(k) == 64 * (h * Power(k - 1))
  {
  }

  lemma BelowPower(h: int, bound: nat, low: int, p: nat)
    requires 0 <= low < p
    ensures h * p + low < bound * p <==> h < bound
  {
    if h < bound {
      assert (h + 1) * p <= bound * p;
    } else {
      assert h * p >= bound * p;
    }
  }

  /** A sequence is overlong if and only if one octet less would hold its value. */
  lemma OverlongMeansSmall(q: Text)
    requires IsSequence(q)
    ensures Overlong(q) <==> |q| > 1 && Decode(q) < Room(|q| - 1)
  {
    if |q| > 1 {
      var n, lead := |q|, LeadMark(|q|);
      var first: int, second: int := q[0], q[1];
      var low := LeadingBits(lead, q);
      assert Power(0) == 1 && Power(1) == 64 && Power(2) == 0x1000 && Power(3) == 0x4_0000 && Power(4) == 0x100_0000;
      BelowPower(64 * (first - lead) + (second - 0x80), Room(n - 1) / Power(n - 2), low, Power(n - 2));
    }
  }

  ghost predicate IsEncoding(q: Text) {
    exists c: ucs4 :: q == Encode(c, Length(c))
  }

  /** An accepted sequence is the encoding of some character if and only if it is not overlong. */
  lemma EncodingUnlessOverlong(q: Text)
    requires IsSequence(q)
    ensures IsEncoding(q) <==> !Overlong(q)
  {
    OverlongMeansSmall(q);
    if IsEncoding(q) {
      var c: ucs4 :| q == Encode(c, Length(c));
      assert Decode(q) == c;
    }
    if !Overlong(q) {
      SequenceIsEncoding(q);
      RoomGrows(|q|);
      var c: ucs4 := Decode(q);
      assert Length(c) == |q|;
      assert q == Encode(c, Length(c));
    }
  }

  lemma RoomGrows(n: nat)
    requires 1 <= n <= 6
    ensures Room(n) <= 0x8000_0000
  {
  }

  /** No sequence of the text is overlong; the lead octets say where sequences start. */
  predicate Shortest(s: Text)
    decreases |s|
  {
    s == []
    || (StartsWithSequence(s) && !Overlong(s[..Announced(s[0])]) && Shortest(s[Announced(s[0])..]))
  }

  ghost predicate EncodesSome(s: Text) {
    exists cs: seq<ucs4> :: Concat(EncodeAll(cs)) == s
  }

  lemma EncodedStart(cs: seq<ucs4>)
    requires Concat(EncodeAll(cs)) != []
    ensures var s := Concat(EncodeAll(cs));
            && StartsWithSequence(s) && !Overlong(s[..Announced(s[0])])
            && exists rest: seq<ucs4> :: Concat(EncodeAll(rest)) == s[Announced(s[0])..]
  {
    var s, q := Concat(EncodeAll(cs)), Encode(cs[0], Length(cs[0]));
    assert EncodeAll(cs)[1..] == EncodeAll(cs[1..]);
    assert s == q + Concat(EncodeAll(cs[1..]));
    assert s[0] == q[0] && Announced(q[0]) == |q| && s[..|q|] == q;
    EncodingUnlessOverlong(q);
    assert Concat(EncodeAll(cs[1..])) == s[|q|..];
  }

  lemma {:induction false} EncodingsAreShort(s: Text)
    requires EncodesSome(s)
    ensures IsText(s) && Shortest(s)
    decreases |s|
  {
    var cs: seq<ucs4> :| Concat(EncodeAll(cs)) == s;
    EncodingsAreTexts(cs);
    if s != [] {
      EncodedStart(cs);
      assert EncodesSome(s[Announced(s[0])..]);
      EncodingsAreShort(s[Announced(s[0])..]);
    }
  }

  lemma EncodesFirst(s: Text, n: nat, c: ucs4, rest: seq<ucs4>)
    requires n <= |s| && s[..n] == Encode(c, Length(c)) && Concat(EncodeAll(rest)) == s[n..]
    ensures EncodesSome(s)
  {
    var cs := [c] + rest;
    assert cs[1..] == rest;
    var all := EncodeAll(cs);
    assert all[0] == s[..n] && all[1..] == EncodeAll(rest);
    assert Concat(all) == s[..n] + s[n..] == s;
  }

  lemma {:induction false} ShortTextsAreEncodings(s: Text)
    requires IsText(s) && Shortest(s)
    ensures EncodesSome(s)
    decreases |s|
  {
    if s == [] {
      assert Concat(EncodeAll([])) == [];
    } else {
      hide IsText;
      var n := Announced(s[0]);
      TextStart(s);
      ShortTextsAreEncodings(s[n..]);
      EncodingUnlessOverlong(s[..n]);
      var c: ucs4 :| s[..n] == Encode(c, Length(c));
      var rest: seq<ucs4> :| Concat(EncodeAll(rest)) == s[n..];
      EncodesFirst(s, n, c, rest);
    }
  }

  /** Exactly which texts are encodings: those, among the accepted ones, that hold no overlong
      sequence. */
  lemma EncodingsAreShortest(s: Text)
    ensures EncodesSome(s) <==> IsText(s) && Shortest(s)
  {
    if EncodesSome(s) {
      EncodingsAreShort(s);
    }
    if IsText(s) && Shortest(s) {
      ShortTextsAreEncodings(s);
    }
  }

  /** One of the texts that are accepted without being an encoding: the two-octet form of zero. */
  lemma AcceptsOverlong()
    ensures IsText([0xc0, 0x80]) && !EncodesSome([0xc0, 0x80])
  {
    EncodingsAreShortest([0xc0, 0x80]);
    var q: Text := [0xc0, 0x80];
    assert Ones(q[0]) == 2 && IsSequence(q);
    assert AllSequences([q]) && Concat([q]) == q + Concat([]) == q;
  }
}
