/** The text form of a session identifier: how it is printed into a Session-Id AVP and parsed back.

    The parser keeps positions in 32-bit words and compares them with `std::string::npos`.  Where npos
    has 64 bits the comparison never holds; `Platform` carries that choice. */
module SessionId {
  import opened Common
  import opened SessionCounter

  /** Whether npos and unsigned long have 32 bits. */
  datatype Platform = Platform(npos32: bool, ulong32: bool)

  datatype Status = Success | ParsingFailed

  /** What fits an AVP, whose length field has 24 bits. */
  type AvpString = s: string | |s| < 0x100_0000

  const ABSENT: word := 0xffff_ffff

  // ----- numbers in text -----

  predicate IsDigit(c: char) {
    '0' <= c <= '9'
  }

  predicate AllDigits(s: string) {
    forall i | 0 <= i < |s| :: IsDigit(s[i])
  }

  function Digit(d: nat): char
    requires d < 10
  {
    '0' + d as char
  }

  /** What `%u` prints. */
  function Decimal(n: nat): string {
    if n < 10 then [Digit(n)] else Decimal(n / 10) + [Digit(n % 10)]
  }

  function ValueOf(s: string): nat
    requires AllDigits(s)
  {
    if s == [] then 0 else 10 * ValueOf(s[..|s| - 1]) + (s[|s| - 1] as int - '0' as int)
  }

  predicate IsSpace(c: char) {
    c == ' ' || 9 <= c as int <= 13
  }

  function SkipSpaces(s: string): string {
    if s != [] && IsSpace(s[0]) then SkipSpaces(s[1..]) else s
  }

  function DigitPrefix(s: string): (p: string)
    ensures AllDigits(p)
  {
    if s != [] && IsDigit(s[0]) then [s[0]] + DigitPrefix(s[1..]) else []
  }

  predicate Signed(s: string) {
    s != [] && (s[0] == '-' || s[0] == '+')
  }

  /** The number a C conversion finds at the start of a string: its sign and magnitude. */
  function Scan(s: string): (bool, nat) {
    var t := SkipSpaces(s);
    if Signed(t) then (t[0] == '-', ValueOf(DigitPrefix(t[1..]))) else (false, ValueOf(DigitPrefix(t)))
  }

  /** strtoul, stored in a 32-bit word. */
  function Strtoul(p: Platform, s: string): word {
    var (negative, n) := Scan(s);
    var range := if p.ulong32 then WORD else WORD * WORD;
    if n >= range then LAST
    else if negative then (range - n) % WORD
    else n % WORD
  }

  /** atoi is defined when the number is an `int`. */
  predicate AtoiDefined(s: string) {
    var (negative, n) := Scan(s);
    n < 0x8000_0000 || (negative && n == 0x8000_0000)
  }

  /** atoi, stored in a 32-bit word. */
  function Atoi(s: string): word {
    var (negative, n) := Scan(s);
    (if negative then WORD - n % WORD else n) % WORD
  }

  // ----- the identifier -----

  datatype Id = Id(diameterId: string, high: word, low: word, optional: string)

  function Printed(id: Id): string {
    id.diameterId + ";" + Decimal(id.high) + ";" + Decimal(id.low)
    + (if |id.optional| > 0 then ";" + id.optional else "")
  }

  predicate HasSemicolon(s: string) {
    ';' in s
  }

  function Head(s: string): string
    requires HasSemicolon(s)
  {
    if s[0] == ';' then "" else [s[0]] + Head(s[1..])
  }

  function Tail(s: string): string
    requires HasSemicolon(s)
  {
    if s[0] == ';' then s[1..] else Tail(s[1..])
  }

  /** The fields a text is cut into.  A missing optional field leaves the object's old value. */
  datatype Fields = Fields(diameterId: string, high: string, low: string, optional: Option<string>)

  /** How the parser cuts a text.  Where npos has 64 bits a missing semicolon goes unnoticed and the
      position after it wraps around to the start of the text. */
  function Cut(p: Platform, s: string): Option<Fields> {
    if !HasSemicolon(s) then
      if p.npos32 then None else Some(Fields(s, s, s, Some(s)))
    else
      var r := Tail(s);
      if !HasSemicolon(r) then
        if p.npos32 then None else Some(Fields(Head(s), r, Head(s), Some(r)))
      else
        var t := Tail(r);
        if HasSemicolon(t) then Some(Fields(Head(s), Head(r), Head(t), Some(Tail(t))))
        else Some(Fields(Head(s), Head(r), t, if p.npos32 then None else Some(s)))
  }

  // ----- the two methods -----

  function Substr(s: string, at: nat, n: nat): string
    requires at <= |s|
  {
    if at + n <= |s| then s[at..at + n] else s[at..]
  }

  lemma {:induction false} HeadEndsAt(s: string, k: nat)
    requires k < |s| && s[k] == ';' && forall i | 0 <= i < k :: s[i] != ';'
    ensures Head(s) == s[..k] && Tail(s) == s[k + 1..]
  {
    if k > 0 {
      HeadEndsAt(s[1..], k - 1);
    }
  }

  /** What the parser takes from a position `at` to where a search from there ended. */
  predicate Found(s: AvpString, at: nat, r: word, next: word)
    requires at <= |s|
  {
    if HasSemicolon(s[at..]) then
      r != ABSENT && at <= r && next == r + 1 <= |s|
      && Substr(s, at, r - at) == Head(s[at..]) && s[next..] == Tail(s[at..])
    else
      r == ABSENT && next == 0 && Substr(s, at, ABSENT - at) == s[at..]
  }

  /** `std::string::find(";", at)` kept in a 32-bit word. */
  method FindSemicolon(s: AvpString, at: nat) returns (r: word)
    requires at <= |s|
    ensures Found(s, at, r, Increment(r))
  {
    var i := at;
    while i < |s|
      invariant at <= i <= |s| && forall j | at <= j < i :: s[j] != ';'
    {
      if s[i] == ';' {
        assert s[at..][i - at] == ';';
        HeadEndsAt(s[at..], i - at);
        return i;
      }
      i := i + 1;
    }
    r := ABSENT;
  }

  class DiameterSessionId {
    var diameterId: string
    var high: word
    var low: word
    var optional: string

    function Value(): Id
      reads this
    {
      Id(diameterId, high, low, optional)
    }

    constructor ()
      ensures Value() == Id("", 0, 0, "")
    {
      diameterId, high, low, optional := "", 0, 0, "";
    }

    /** The printed numbers are built first, then the optional value is added. */
    method Set() returns (sid: string)
      ensures sid == Printed(Value())
    {
      var nums := ";" + Decimal(high) + ";" + Decimal(low);
      sid := diameterId + nums;
      if |optional| > 0 {
        sid := sid + ";";
        sid := sid + optional;
      }
      assert sid == Printed(Value());
    }

    /** Get: `sid` is the Session-Id AVP, if the message has one. */
    method Get(p: Platform, sid: Option<AvpString>) returns (rc: Status)
      modifies this
      ensures rc == Success <==> sid.Some? && Cut(p, sid.value).Some?
      ensures rc == Success ==>
                var f := Cut(p, sid.value).value;
                && diameterId == f.diameterId
                && high == Strtoul(p, f.high)
                && (AtoiDefined(f.low) ==> low == Atoi(f.low))
                && optional == if f.optional.Some? then f.optional.value else old(optional)
      ensures rc != Success ==> high == old(high) && low == old(low) && optional == old(optional)
    {
      hide Strtoul, Atoi, AtoiDefined, Head, Tail;
      if sid.None? {
        return ParsingFailed;
      }
      var s := sid.value;
      var where1 := FindSemicolon(s, 0);
      assert s[0..] == s;
      if where1 == ABSENT && p.npos32 {
        return ParsingFailed;
      }
      diameterId := Substr(s, 0, where1);
      where1 := Increment(where1);
      ghost var r := s[where1..];
      assert r == if HasSemicolon(s) then Tail(s) else s;
      var where2 := FindSemicolon(s, where1);
      if where2 == ABSENT && p.npos32 {
        return ParsingFailed;
      }
      var stringHigh := Substr(s, where1, where2 - where1);
      assert stringHigh == if HasSemicolon(r) then Head(r) else r;
      high := Strtoul(p, stringHigh);
      where2 := Increment(where2);
      ghost var t := s[where2..];
      assert t == if HasSemicolon(r) then Tail(r) else s;
      where1 := FindSemicolon(s, where2);
      ghost var f := Cut(p, s).value;
      if where1 == ABSENT && p.npos32 {
        var stringLow := Substr(s, where2, ABSENT);
        assert f.low == stringLow;
        low := ReadLow(stringLow);
      } else {
        var stringLow := Substr(s, where2, where1 - where2);
        assert f.low == stringLow;
        low := ReadLow(stringLow);
        optional := Substr(s, Increment(where1), ABSENT);
        assert f.optional == Some(optional);
      }
      return Success;
    }

    /** What atoi gives for a number that is no `int` is not defined. */
    static method ReadLow(s: string) returns (low: word)
      ensures AtoiDefined(s) ==> low == Atoi(s)
    {
      if AtoiDefined(s) {
        low := Atoi(s);
      } else {
        low := *;
      }
    }
  }

  // ----- round trips -----

  lemma {:induction false} DecimalIsDigits(n: nat)
    ensures Decimal(n) != [] && AllDigits(Decimal(n)) && ValueOf(Decimal(n)) == n
  {
    if n >= 10 {
      DecimalIsDigits(n / 10);
      assert Decimal(n)[..|Decimal(n)| - 1] == Decimal(n / 10);
    }
  }

  lemma {:induction false} DigitPrefixOfDigits(s: string)
    requires AllDigits(s)
    ensures DigitPrefix(s) == s
  {
    if s != [] {
      DigitPrefixOfDigits(s[1..]);
    }
  }

  /** Printing a word and reading it back gives the word, by strtoul always, by atoi when it is an int. */
  lemma NumbersRoundTrip(p: Platform, w: word)
    ensures Strtoul(p, Decimal(w)) == w
    ensures AtoiDefined(Decimal(w)) <==> w < 0x8000_0000
    ensures AtoiDefined(Decimal(w)) ==> Atoi(Decimal(w)) == w
  {
    DecimalIsDigits(w);
    var s := Decimal(w);
    DigitPrefixOfDigits(s);
    assert IsDigit(s[0]);
    assert SkipSpaces(s) == s && !Signed(s);
  }

  lemma {:induction false} CutAtSemicolon(a: string, b: string)
    requires !HasSemicolon(a)
    ensures HasSemicolon(a + ";" + b) && Head(a + ";" + b) == a && Tail(a + ";" + b) == b
  {
    var s := a + ";" + b;
    assert s[|a|] == ';';
    if a != [] {
      CutAtSemicolon(a[1..], b);
      assert s[1..] == a[1..] + ";" + b;
      assert s[0] == a[0] && a[0] in a;
    }
  }

  lemma DigitsHaveNoSemicolon(n: nat)
    ensures !HasSemicolon(Decimal(n))
  {
    DecimalIsDigits(n);
  }

  /** The printed form is cut into the fields it was made of; only an empty optional value is lost,
      exactly where npos has 64 bits: the whole text takes its place. */
  lemma CutUndoesPrinted(p: Platform, id: Id)
    requires !HasSemicolon(id.diameterId)
    ensures var optional := if id.optional != "" then Some(id.optional)
                            else if p.npos32 then None
                            else Some(Printed(id));
            Cut(p, Printed(id)) == Some(Fields(id.diameterId, Decimal(id.high), Decimal(id.low), optional))
  {
    var low := Decimal(id.low);
    var rest := if id.optional == "" then low else low + ";" + id.optional;
    DigitsHaveNoSemicolon(id.high);
    DigitsHaveNoSemicolon(id.low);
    assert Printed(id) == id.diameterId + ";" + (Decimal(id.high) + ";" + rest);
    CutAtSemicolon(id.diameterId, Decimal(id.high) + ";" + rest);
    CutAtSemicolon(Decimal(id.high), rest);
    if id.optional != "" {
      CutAtSemicolon(low, id.optional);
    }
  }

  lemma {:induction false} HeadHasNoSemicolon(s: string)
    requires HasSemicolon(s)
    ensures !HasSemicolon(Head(s))
  {
    if s[0] != ';' {
      assert s == [s[0]] + s[1..];
      HeadHasNoSemicolon(s[1..]);
    }
  }

  lemma {:induction false} SemicolonSkipped(a: string, b: string)
    requires HasSemicolon(a)
    ensures HasSemicolon(a + b) && Tail(a + b) == Tail(a) + b
  {
    assert (a + b)[0] == a[0] && (a + b)[1..] == a[1..] + b;
    if a[0] != ';' {
      assert a == [a[0]] + a[1..];
      SemicolonSkipped(a[1..], b);
    }
  }

  /** Which texts are accepted: all where npos has 64 bits, else those with two semicolons. */
  lemma AcceptedTexts(p: Platform, s: string)
    ensures Cut(p, s).Some? <==> (p.npos32 ==> HasSemicolon(s) && HasSemicolon(Tail(s)))
  {
  }

  /** A printed form is always accepted, but an identity with a semicolon comes back without it. */
  lemma SemicolonLosesIdentity(p: Platform, id: Id)
    requires HasSemicolon(id.diameterId)
    ensures Cut(p, Printed(id)).Some? && Cut(p, Printed(id)).value.diameterId != id.diameterId
  {
    var rest := ";" + Decimal(id.high) + ";" + Decimal(id.low)
                + (if |id.optional| > 0 then ";" + id.optional else "");
    assert Printed(id) == id.diameterId + rest;
    SemicolonSkipped(id.diameterId, rest);
    assert rest[0] == ';';
    var t := Tail(id.diameterId) + rest;
    assert t[|Tail(id.diameterId)|] == ';';
    HeadHasNoSemicolon(Printed(id));
  }

  /** Get into a fresh identifier undoes Set if and only if the identity has no semicolon, and the optional
      value is not empty or npos has 32 bits, for any low word that is an int. */
  method RoundTrip(p: Platform, id: DiameterSessionId) returns (copy: DiameterSessionId)
    requires id.low < 0x8000_0000 && |Printed(id.Value())| < 0x100_0000
    ensures fresh(copy)
    ensures copy.Value() == id.Value() <==> !HasSemicolon(id.diameterId) && (id.optional != "" || p.npos32)
  {
    copy := new DiameterSessionId();
    var sid := id.Set();
    var rc := copy.Get(p, Some(sid));
    NumbersRoundTrip(p, id.high);
    NumbersRoundTrip(p, id.low);
    if HasSemicolon(id.diameterId) {
      SemicolonLosesIdentity(p, id.Value());
    } else {
      CutUndoesPrinted(p, id.Value());
    }
  }

  lemma NextDigit(n: nat, d: nat)
    requires n > 0 && d < 10
    ensures Decimal(10 * n + d) == Decimal(n) + [Digit(d)]
  {
  }

  /** The identifier that section 8.8 of RFC 3588 gives as an example. */
  lemma ExampleIsPrinted()
    ensures Printed(Id("accesspoint7.acme.com", 1876543210, 523, "mobile@200.1.1.88"))
            == "accesspoint7.acme.com;1876543210;523;mobile@200.1.1.88"
  {
    hide Decimal;
    assert Decimal(523) == "523" by { Digits523(); }
    assert Decimal(1876543210) == "1876543210" by { Digits1876543210(); }
  }

  lemma Digits523()
    ensures Decimal(523) == "523"
  {
    NextDigit(5, 2);
    NextDigit(52, 3);
  }

  lemma Digits1876543210()
    ensures Decimal(1876543210) == "1876543210"
  {
    assert Decimal(1) == "1";
    hide Decimal;
    NextDigit(1, 8);
    NextDigit(18, 7);
    NextDigit(187, 6);
    NextDigit(1876, 5);
    NextDigit(18765, 4);
    NextDigit(187654, 3);
    NextDigit(1876543, 2);
    NextDigit(18765432, 1);
    NextDigit(187654321, 0);
  }
}
