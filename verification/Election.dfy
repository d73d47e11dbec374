/** The election of RFC 3588 section 5.6.4 as the peer state machine runs it.

    Both host names are padded to one length with octet 0x08 and compared octet by octet.  The
    comparison is on C++ `char`, whose sign is left to the compiler: `signedChar` carries it. */
module Election {
  type octet = x: int | 0 <= x < 0x100 witness 0
  type Host = seq<octet>

  datatype Outcome = Win | Lose | SameHost

  const PAD: octet := 0x08

  /** The value C++ compares when it compares two `char`s. */
  function Key(signedChar: bool, b: octet): int {
    if signedChar && b >= 0x80 then b - 0x100 else b
  }

  /** Octet i of a host padded without end. */
  function At(h: Host, i: nat): octet {
    if i < |h| then h[i] else PAD
  }

  ghost predicate FirstDifference(a: Host, b: Host, i: nat) {
    At(a, i) != At(b, i) && forall j: nat | j < i :: At(a, j) == At(b, j)
  }

  /** Host a beats host b: at the first octet where the padded names differ, a's is greater. */
  ghost predicate Wins(signedChar: bool, a: Host, b: Host) {
    exists i: nat :: FirstDifference(a, b, i) && Key(signedChar, At(a, i)) > Key(signedChar, At(b, i))
  }

  /** The padded names are equal, although the names may not be. */
  ghost predicate Tie(a: Host, b: Host) {
    forall i: nat :: At(a, i) == At(b, i)
  }

  function Pads(n: nat): Host {
    seq(n, i => PAD)
  }

  /** The comparison itself, in the order of the original: pad, test for equality only when no
      padding was needed, then scan to the first difference. */
  method Compare(signedChar: bool, localHost: Host, peerHost: Host) returns (outcome: Outcome)
    ensures outcome == SameHost <==> localHost == peerHost
    ensures outcome == Win <==> Wins(signedChar, localHost, peerHost)
  {
    var local, peer := localHost, peerHost;
    if |local| < |peer| {
      local := local + Pads(|peer| - |local|);
    } else if |local| > |peer| {
      peer := peer + Pads(|local| - |peer|);
    } else if local == peer {
      return SameHost;
    }
    assert forall j: nat | j < |local| :: At(localHost, j) == local[j] && At(peerHost, j) == peer[j];
    var i := 0;
    while i < |local|
      invariant 0 <= i <= |local|
      invariant forall j: nat | j < i :: At(localHost, j) == At(peerHost, j)
    {
      if local[i] == peer[i] {
        i := i + 1;
      } else if Key(signedChar, local[i]) > Key(signedChar, peer[i]) {
        assert FirstDifference(localHost, peerHost, i);
        return Win;
      } else {
        assert FirstDifference(localHost, peerHost, i);
        return Lose;
      }
    }
    outcome := Lose;
  }

  /** Two hosts never both win. */
  lemma NeverBothWin(signedChar: bool, a: Host, b: Host)
    ensures !(Wins(signedChar, a, b) && Wins(signedChar, b, a))
  {
    forall i: nat, j: nat | FirstDifference(a, b, i) && FirstDifference(b, a, j)
      ensures i == j
    {
    }
  }

  lemma {:induction false} FindFirstDifference(a: Host, b: Host, i: nat) returns (first: nat)
    requires At(a, i) != At(b, i)
    ensures FirstDifference(a, b, first)
  {
    if j: nat :| j < i && At(a, j) != At(b, j) {
      first := FindFirstDifference(a, b, j);
    } else {
      first := i;
    }
  }

  /** Exactly one of two hosts wins if and only if their padded names differ. */
  lemma OneWinnerUnlessTie(signedChar: bool, a: Host, b: Host)
    ensures (Wins(signedChar, a, b) || Wins(signedChar, b, a)) <==> !Tie(a, b)
  {
    if !Tie(a, b) {
      var i: nat :| At(a, i) != At(b, i);
      var first := FindFirstDifference(a, b, i);
      assert FirstDifference(b, a, first);
    }
  }

  function Rest(h: Host): Host {
    if h == [] then [] else h[1..]
  }

  lemma DifferenceShifts(a: Host, b: Host, i: nat)
    requires At(a, 0) == At(b, 0)
    ensures FirstDifference(a, b, i + 1) <==> FirstDifference(Rest(a), Rest(b), i)
  {
    assert forall h: Host, j: nat :: At(Rest(h), j) == At(h, j + 1);
    if FirstDifference(Rest(a), Rest(b), i) {
      forall j: nat | j < i + 1 ensures At(a, j) == At(b, j) {
        if j > 0 {
          assert At(Rest(a), j - 1) == At(Rest(b), j - 1);
        }
      }
    }
  }

  lemma WinsShifts(signedChar: bool, a: Host, b: Host)
    requires At(a, 0) == At(b, 0)
    ensures Wins(signedChar, a, b) <==> Wins(signedChar, Rest(a), Rest(b))
  {
    assert forall h: Host, j: nat :: At(Rest(h), j) == At(h, j + 1);
    if Wins(signedChar, a, b) {
      var i: nat :| FirstDifference(a, b, i) && Key(signedChar, At(a, i)) > Key(signedChar, At(b, i));
      DifferenceShifts(a, b, i - 1);
    }
    if Wins(signedChar, Rest(a), Rest(b)) {
      var i: nat :| FirstDifference(Rest(a), Rest(b), i)
                    && Key(signedChar, At(Rest(a), i)) > Key(signedChar, At(Rest(b), i));
      DifferenceShifts(a, b, i);
    }
  }

  /** The order of the election: the greater of the first two octets wins, where `char` is signed one from 0x80 on
      being less than one below; equal ones leave it to the rest, and a name that has ended goes on with 0x08. */
  lemma FirstOctetDecides(signedChar: bool, a: Host, b: Host)
    ensures var x, y := if a == [] then 0x08 else a[0], if b == [] then 0x08 else b[0];
            Wins(signedChar, a, b) <==>
              if x == y then Wins(signedChar, Rest(a), Rest(b))
              else if signedChar && (x < 0x80 <= y || y < 0x80 <= x) then x < y
              else y < x
    ensures !Wins(signedChar, [], [])
  {
    if At(a, 0) == At(b, 0) {
      WinsShifts(signedChar, a, b);
    } else {
      assert FirstDifference(a, b, 0);
    }
  }

  /** Beating is transitive, so with `NeverBothWin` and `OneWinnerUnlessTie` the election is a strict
      total order on hosts up to padding. */
  lemma WinsIsTransitive(signedChar: bool, a: Host, b: Host, c: Host)
    requires Wins(signedChar, a, b) && Wins(signedChar, b, c)
    ensures Wins(signedChar, a, c)
  {
    var i: nat :| FirstDifference(a, b, i) && Key(signedChar, At(a, i)) > Key(signedChar, At(b, i));
    var j: nat :| FirstDifference(b, c, j) && Key(signedChar, At(b, j)) > Key(signedChar, At(c, j));
    var k := if i < j then i else j;
    assert FirstDifference(a, c, k);
  }

  predicate ExtendedByPads(a: Host, b: Host) {
    |a| <= |b| && b == a + Pads(|b| - |a|)
  }

  /** A tie is exactly one name being the other followed by padding octets. */
  lemma TieMeansTrailingPads(a: Host, b: Host)
    ensures Tie(a, b) <==> ExtendedByPads(a, b) || ExtendedByPads(b, a)
  {
    if Tie(a, b) {
      if |a| <= |b| {
        TieExtends(a, b);
      } else {
        TieExtends(b, a);
      }
    } else {
      var i: nat :| At(a, i) != At(b, i);
    }
  }

  lemma TieExtends(a: Host, b: Host)
    requires Tie(a, b) && |a| <= |b|
    ensures ExtendedByPads(a, b)
  {
    forall i: nat | i < |b| ensures b[i] == (a + Pads(|b| - |a|))[i] {
      assert At(a, i) == At(b, i);
    }
  }

  /** Distinct hosts free of the padding octet never tie: exactly one of the two wins. */
  lemma DistinctHostsElectOne(signedChar: bool, a: Host, b: Host)
    requires a != b && PAD !in a && PAD !in b
    ensures Wins(signedChar, a, b) <==> !Wins(signedChar, b, a)
  {
    NeverBothWin(signedChar, a, b);
    OneWinnerUnlessTie(signedChar, a, b);
    TieMeansTrailingPads(a, b);
    assert |a| < |b| ==> b[|a|] != PAD;
    assert |b| < |a| ==> a[|b|] != PAD;
    assert |a| == |b| ==> Pads(0) == [] && a + [] == a && b + [] == b;
  }

  // ----- two sides whose compilers differ on the sign of `char` -----

  /** The first octets at which the padded names differ lie on the same side of 0x80. */
  ghost predicate SameSide(a: Host, b: Host) {
    forall i: nat | FirstDifference(a, b, i) :: At(a, i) < 0x80 <==> At(b, i) < 0x80
  }

  /** Who wins by one sign of `char`, read off the first difference. */
  lemma WinsAtDifference(signedChar: bool, a: Host, b: Host, i: nat)
    requires FirstDifference(a, b, i)
    ensures Wins(signedChar, a, b) <==> Key(signedChar, At(a, i)) > Key(signedChar, At(b, i))
  {
  }

  lemma DifferenceIsSymmetric(a: Host, b: Host, i: nat)
    requires FirstDifference(a, b, i)
    ensures FirstDifference(b, a, i)
  {
  }

  /** Each side electing by its own `char`, exactly one wins if and only if the padded names differ and,
      where the two compilers disagree, their first difference is on one side of 0x80. */
  lemma OneWinnerExactly(signedA: bool, signedB: bool, a: Host, b: Host)
    ensures (Wins(signedA, a, b) <==> !Wins(signedB, b, a)) <==> !Tie(a, b) && (signedA == signedB || SameSide(a, b))
  {
    if !Tie(a, b) {
      var k: nat :| At(a, k) != At(b, k);
      var i := FindFirstDifference(a, b, k);
      DifferenceIsSymmetric(a, b, i);
      WinsAtDifference(signedA, a, b, i);
      WinsAtDifference(signedB, b, a, i);
      assert forall j: nat | FirstDifference(a, b, j) :: j == i;
    }
  }

  /** Octets of 7 bits elect alike under either sign. */
  lemma SevenBitsAgree(a: Host, b: Host)
    requires forall i | 0 <= i < |a| :: a[i] < 0x80
    requires forall i | 0 <= i < |b| :: b[i] < 0x80
    ensures SameSide(a, b)
  {
  }

  /** Both sides win, or neither: names that first differ across 0x80 between a side with signed `char`
      and one without. */
  lemma MixedSignsFail(a: Host, b: Host, i: nat)
    requires FirstDifference(a, b, i) && At(a, i) < 0x80 <= At(b, i)
    ensures Wins(true, a, b) && Wins(false, b, a)
    ensures !Wins(false, a, b) && !Wins(true, b, a)
  {
    DifferenceIsSymmetric(a, b, i);
    WinsAtDifference(true, a, b, i);
    WinsAtDifference(false, a, b, i);
    WinsAtDifference(true, b, a, i);
    WinsAtDifference(false, b, a, i);
  }
}
