/** Unpadded base64url (section 5 of RFC 4648, Appendix C of RFC 7515), as the tokens use it. */
module Base64Url {
  import opened Options

  type Byte = b: nat | b < 256

  function CharOf(n: nat): (c: char)
    requires n < 64
    ensures c != '=' && c != '.'
  {
    if n < 26 then 'A' + n as char
    else if n < 52 then 'a' + (n - 26) as char
    else if n < 62 then '0' + (n - 52) as char
    else if n == 62 then '-'
    else '_'
  }

  function ValueOf(c: char): (v: Option<nat>)
    ensures v.Some? ==> v.value < 64
  {
    if 'A' <= c <= 'Z' then Some((c - 'A') as nat)
    else if 'a' <= c <= 'z' then Some((c - 'a') as nat + 26)
    else if '0' <= c <= '9' then Some((c - '0') as nat + 52)
    else if c == '-' then Some(62)
    else if c == '_' then Some(63)
    else None
  }

  lemma ValueOfCharOf(n: nat)
    requires n < 64
    ensures ValueOf(CharOf(n)) == Some(n)
  {
  }

  /** Three bytes as four characters; a shorter last group is filled with `=`. */
  function Encode(bytes: seq<Byte>): string {
    if bytes == [] then ""
    else if |bytes| == 1 then
      [CharOf(bytes[0] / 4), CharOf(bytes[0] % 4 * 16), '=', '=']
    else if |bytes| == 2 then
      [CharOf(bytes[0] / 4), CharOf(bytes[0] % 4 * 16 + bytes[1] / 16), CharOf(bytes[1] % 16 * 4), '=']
    else
      Quad(bytes[0], bytes[1], bytes[2]) + Encode(bytes[3..])
  }

  function Quad(a: Byte, b: Byte, c: Byte): (q: string)
    ensures |q| == 4
  {
    [CharOf(a / 4), CharOf(a % 4 * 16 + b / 16), CharOf(b % 16 * 4 + c / 64), CharOf(c % 64)]
  }

  /** Drops every trailing `=`. */
  function Strip(s: string): string {
    if s != "" && s[|s| - 1] == '=' then Strip(s[..|s| - 1]) else s
  }

  function Fill(n: nat): (s: string)
    ensures |s| == n
  {
    seq(n, i => '=')
  }

  /** Python's `-len(data) % 4`, which is never negative. */
  function Missing(n: nat): nat { (4 - n % 4) % 4 }

  function Repad(s: string): string { s + Fill(Missing(|s|)) }

  /** Decodes padded text; any character outside the alphabet or a wrong length is an error. */
  function Decode(s: string): Option<seq<Byte>> {
    if s == "" then Some([])
    else if |s| < 4 then None
    else
      match (ValueOf(s[0]), ValueOf(s[1]))
      case (Some(p), Some(q)) =>
        if s[2..] == "==" then Some([(p * 4 + q / 16) as Byte])
        else (
          match (ValueOf(s[2]), ValueOf(s[3]))
          case (Some(r), Some(t)) => (
            match Decode(s[4..])
            case Some(rest) =>
              Some([(p * 4 + q / 16) as Byte, (q % 16 * 16 + r / 4) as Byte, (r % 4 * 64 + t) as Byte] + rest)
            case None => None)
          case (Some(r), None) =>
            if s[3..] == "=" then Some([(p * 4 + q / 16) as Byte, (q % 16 * 16 + r / 4) as Byte]) else None
          case _ => None)
      case _ => None
  }

  function ToText(bytes: seq<Byte>): string { Strip(Encode(bytes)) }

  function FromText(s: string): Option<seq<Byte>> { Decode(Repad(s)) }

  predicate NoDot(s: string) { '.' !in s }

  /** How many characters `=` the padded form ends in. */
  function Padding(n: nat): nat { if n % 3 == 1 then 2 else if n % 3 == 2 then 1 else 0 }

  /** Whole groups of four, and `=` nowhere but in the padding. */
  predicate Shaped(s: string, pad: nat) {
    && |s| % 4 == 0 && NoDot(s) && pad <= |s|
    && s[|s| - pad..] == Fill(pad)
    && forall i :: 0 <= i < |s| - pad ==> s[i] != '='
  }

  lemma QuadShape(a: Byte, b: Byte, c: Byte)
    ensures NoDot(Quad(a, b, c)) && '=' !in Quad(a, b, c)
  {
  }

  lemma QuadBefore(q: string, rest: string, pad: nat)
    requires |q| == 4 && NoDot(q) && '=' !in q && Shaped(rest, pad)
    ensures Shaped(q + rest, pad)
  {
    var s := q + rest;
    assert s[|s| - pad..] == rest[|rest| - pad..];
  }

  lemma ShortShape(bytes: seq<Byte>)
    requires |bytes| < 3
    ensures Shaped(Encode(bytes), Padding(|bytes|))
  {
    hide CharOf;
    var s := Encode(bytes);
    if |bytes| == 1 {
      assert s[2..] == Fill(2);
    } else if |bytes| == 2 {
      assert s[3..] == Fill(1);
    }
  }

  lemma {:induction false} EncodeShape(bytes: seq<Byte>)
    ensures Shaped(Encode(bytes), Padding(|bytes|))
  {
    hide Shaped, Quad;
    if |bytes| < 3 {
      ShortShape(bytes);
    } else {
      EncodeShape(bytes[3..]);
      QuadShape(bytes[0], bytes[1], bytes[2]);
      QuadBefore(Quad(bytes[0], bytes[1], bytes[2]), Encode(bytes[3..]), Padding(|bytes| - 3));
      assert |bytes| % 3 == (|bytes| - 3) % 3;
    }
  }

  lemma {:induction false} StripFilled(core: string, n: nat)
    requires core == "" || core[|core| - 1] != '='
    ensures Strip(core + Fill(n)) == core
  {
    if n == 0 {
      assert core + Fill(0) == core;
    } else {
      var s := core + Fill(n);
      assert s[..|s| - 1] == core + Fill(n - 1);
      StripFilled(core, n - 1);
    }
  }

  lemma {:induction false} EncodeLength(bytes: seq<Byte>)
    ensures |Encode(bytes)| == TextLength(|bytes|) + Padding(|bytes|)
  {
    hide CharOf;
    if |bytes| >= 3 {
      EncodeLength(bytes[3..]);
      LengthStep(|bytes| - 3);
    }
  }

  lemma LengthStep(n: nat)
    ensures TextLength(n + 3) == TextLength(n) + 4 && Padding(n + 3) == Padding(n)
  {
  }

  lemma MissingAfterPadding(n: nat, pad: nat)
    requires n % 4 == 0 && pad < 4 && pad <= n
    ensures Missing(n - pad) == pad
  {
  }

  /** Re-padding restores exactly what stripping removed. */
  lemma RepadRestores(bytes: seq<Byte>)
    ensures Repad(ToText(bytes)) == Encode(bytes)
    ensures NoDot(ToText(bytes))
  {
    EncodeShape(bytes);
    PaddedForm(Encode(bytes), Padding(|bytes|));
  }

  lemma PaddedForm(s: string, pad: nat)
    requires |s| % 4 == 0 && pad < 4 && pad <= |s| && s[|s| - pad..] == Fill(pad)
    requires forall i :: 0 <= i < |s| - pad ==> s[i] != '='
    requires NoDot(s)
    ensures Repad(Strip(s)) == s && NoDot(Strip(s))
  {
    var core := s[..|s| - pad];
    assert s == core + Fill(pad);
    StripFilled(core, pad);
    MissingAfterPadding(|s|, pad);
  }

  /* ---------- the table ---------- */

  /** Table 2 of RFC 4648. */
  predicate TableEntry(v: nat, c: char) {
    && v < 64
    && (v < 26 ==> c as int == 'A' as int + v)
    && (26 <= v < 52 ==> c as int == 'a' as int + v - 26)
    && (52 <= v < 62 ==> c as int == '0' as int + v - 52)
    && (v == 62 ==> c == '-') && (v == 63 ==> c == '_')
  }

  function ByteAt(bytes: seq<Byte>, n: nat): Byte { if n < |bytes| then bytes[n] else 0 }

  /** What the `k`-th bit of a byte counts, the most significant one first. */
  function Place(k: nat): (w: nat)
    requires k < 8
    ensures w > 0
  {
    [128, 64, 32, 16, 8, 4, 2, 1][k]
  }

  /** Bit `i` of a byte string; behind its end there are zeros. */
  function Bit(bytes: seq<Byte>, i: nat): nat { ByteAt(bytes, i / 8) / Place(i % 8) % 2 }

  /** The number that the six bits from `i` on stand for. */
  function Sextet(bytes: seq<Byte>, i: nat): nat {
    32 * Bit(bytes, i) + 16 * Bit(bytes, i + 1) + 8 * Bit(bytes, i + 2) + 4 * Bit(bytes, i + 3) + 2 * Bit(bytes, i + 4)
    + Bit(bytes, i + 5)
  }

  lemma Halved(a: nat, m: nat)
    requires m == 1 || m == 2 || m == 4 || m == 8 || m == 16 || m == 32 || m == 64
    ensures a / m == 2 * (a / (2 * m)) + a / m % 2
  {
  }

  /** The upper bits of a byte. */
  lemma UpperBits(a: Byte)
    ensures a / 64 == 2 * (a / 128 % 2) + a / 64 % 2
    ensures a / 16 == 8 * (a / 128 % 2) + 4 * (a / 64 % 2) + 2 * (a / 32 % 2) + a / 16 % 2
    ensures a / 4 == 32 * (a / 128 % 2) + 16 * (a / 64 % 2) + 8 * (a / 32 % 2) + 4 * (a / 16 % 2) + 2 * (a / 8 % 2)
                     + a / 4 % 2
  {
    Halved(a, 4);
    Halved(a, 8);
    Halved(a, 16);
    Halved(a, 32);
    Halved(a, 64);
  }

  /** The lower bits of a byte. */
  lemma LowerBits(a: Byte)
    ensures a % 4 == 2 * (a / 2 % 2) + a % 2
    ensures a % 16 == 8 * (a / 8 % 2) + 4 * (a / 4 % 2) + a % 4
    ensures a % 64 == 32 * (a / 32 % 2) + 16 * (a / 16 % 2) + a % 16
  {
    Halved(a, 1);
    Halved(a, 2);
    Halved(a, 4);
    Halved(a, 8);
    Halved(a, 16);
    Halved(a, 32);
    assert a == 4 * (a / 4) + a % 4;
    assert a == 16 * (a / 16) + a % 16;
    assert a == 64 * (a / 64) + a % 64;
  }

  lemma CharIsEntry(n: nat)
    requires n < 64
    ensures TableEntry(n, CharOf(n))
  {
  }

  lemma BitAt(bytes: seq<Byte>, n: nat, k: nat)
    requires k < 8
    ensures Bit(bytes, 8 * n + k) == ByteAt(bytes, n) / Place(k) % 2
  {
    assert (8 * n + k) / 8 == n && (8 * n + k) % 8 == k;
  }

  lemma FirstSextet(bytes: seq<Byte>)
    ensures Sextet(bytes, 0) == ByteAt(bytes, 0) / 4
  {
    hide Bit, ByteAt;
    BitAt(bytes, 0, 0);
    BitAt(bytes, 0, 1);
    BitAt(bytes, 0, 2);
    BitAt(bytes, 0, 3);
    BitAt(bytes, 0, 4);
    BitAt(bytes, 0, 5);
    UpperBits(ByteAt(bytes, 0));
  }

  lemma SecondSextet(bytes: seq<Byte>)
    ensures Sextet(bytes, 6) == ByteAt(bytes, 0) % 4 * 16 + ByteAt(bytes, 1) / 16
  {
    hide Bit, ByteAt;
    BitAt(bytes, 0, 6);
    BitAt(bytes, 0, 7);
    BitAt(bytes, 1, 0);
    BitAt(bytes, 1, 1);
    BitAt(bytes, 1, 2);
    BitAt(bytes, 1, 3);
    LowerBits(ByteAt(bytes, 0));
    UpperBits(ByteAt(bytes, 1));
  }

  lemma ThirdSextet(bytes: seq<Byte>)
    ensures Sextet(bytes, 12) == ByteAt(bytes, 1) % 16 * 4 + ByteAt(bytes, 2) / 64
  {
    hide Bit, ByteAt;
    BitAt(bytes, 1, 4);
    BitAt(bytes, 1, 5);
    BitAt(bytes, 1, 6);
    BitAt(bytes, 1, 7);
    BitAt(bytes, 2, 0);
    BitAt(bytes, 2, 1);
    LowerBits(ByteAt(bytes, 1));
    UpperBits(ByteAt(bytes, 2));
  }

  lemma FourthSextet(bytes: seq<Byte>)
    ensures Sextet(bytes, 18) == ByteAt(bytes, 2) % 64
  {
    hide Bit, ByteAt;
    BitAt(bytes, 2, 2);
    BitAt(bytes, 2, 3);
    BitAt(bytes, 2, 4);
    BitAt(bytes, 2, 5);
    BitAt(bytes, 2, 6);
    BitAt(bytes, 2, 7);
    LowerBits(ByteAt(bytes, 2));
  }

  /** How many characters the unpadded text of `n` bytes has: one for every begun group of six bits. */
  function TextLength(n: nat): nat { (8 * n + 5) / 6 }

  /** The first `n` characters are the table's entries for the six-bit groups. */
  predicate Tabled(bytes: seq<Byte>, s: string, n: nat) {
    n <= |s| && forall k :: 0 <= k < n ==> TableEntry(Sextet(bytes, 6 * k), s[k])
  }

  lemma GroupTabled(bytes: seq<Byte>, s: string)
    requires bytes != [] && |s| == 4
    requires s[0] == CharOf(ByteAt(bytes, 0) / 4)
    requires s[1] == CharOf(ByteAt(bytes, 0) % 4 * 16 + ByteAt(bytes, 1) / 16)
    requires |bytes| >= 2 ==> s[2] == CharOf(ByteAt(bytes, 1) % 16 * 4 + ByteAt(bytes, 2) / 64)
    requires |bytes| >= 3 ==> s[3] == CharOf(ByteAt(bytes, 2) % 64)
    ensures Tabled(bytes, s, if |bytes| >= 3 then 4 else |bytes| + 1)
  {
    hide TableEntry, CharOf, Sextet, ByteAt;
    FirstSextet(bytes);
    SecondSextet(bytes);
    ThirdSextet(bytes);
    FourthSextet(bytes);
    CharIsEntry(ByteAt(bytes, 0) / 4);
    CharIsEntry(ByteAt(bytes, 0) % 4 * 16 + ByteAt(bytes, 1) / 16);
    CharIsEntry(ByteAt(bytes, 1) % 16 * 4 + ByteAt(bytes, 2) / 64);
    CharIsEntry(ByteAt(bytes, 2) % 64);
  }

  lemma BitLater(bytes: seq<Byte>, i: nat)
    requires |bytes| >= 3
    ensures Bit(bytes, i + 24) == Bit(bytes[3..], i)
  {
    assert (i + 24) / 8 == i / 8 + 3 && (i + 24) % 8 == i % 8;
  }

  lemma SextetLater(bytes: seq<Byte>, i: nat)
    requires |bytes| >= 3
    ensures Sextet(bytes, i + 24) == Sextet(bytes[3..], i)
  {
    hide Bit;
    BitLater(bytes, i);
    BitLater(bytes, i + 1);
    BitLater(bytes, i + 2);
    BitLater(bytes, i + 3);
    BitLater(bytes, i + 4);
    BitLater(bytes, i + 5);
  }

  lemma TabledAppend(bytes: seq<Byte>, q: string, rest: string, n: nat)
    requires |bytes| >= 3 && |q| == 4 && Tabled(bytes, q, 4) && Tabled(bytes[3..], rest, n)
    ensures Tabled(bytes, q + rest, n + 4)
  {
    hide TableEntry, Sextet;
    forall k | 0 <= k < n + 4 ensures TableEntry(Sextet(bytes, 6 * k), (q + rest)[k]) {
      if k >= 4 {
        SextetLater(bytes, 6 * (k - 4));
        assert 6 * (k - 4) + 24 == 6 * k && (q + rest)[k] == rest[k - 4];
      }
    }
  }

  lemma {:induction false} EncodeTabled(bytes: seq<Byte>)
    ensures Tabled(bytes, Encode(bytes), TextLength(|bytes|))
  {
    hide Tabled, CharOf;
    if bytes == [] {
      assert Tabled(bytes, Encode(bytes), 0) by { NothingTabled(bytes, Encode(bytes)); }
    } else if |bytes| < 3 {
      GroupTabled(bytes, Encode(bytes));
    } else {
      EncodeTabled(bytes[3..]);
      GroupTabled(bytes, Quad(bytes[0], bytes[1], bytes[2]));
      TabledAppend(bytes, Quad(bytes[0], bytes[1], bytes[2]), Encode(bytes[3..]), TextLength(|bytes| - 3));
    }
  }

  lemma NothingTabled(bytes: seq<Byte>, s: string)
    ensures Tabled(bytes, s, 0)
  {
  }

  lemma QuadBack(a: Byte, b: Byte, c: Byte)
    ensures var p, q, r, t := a / 4, a % 4 * 16 + b / 16, b % 16 * 4 + c / 64, c % 64;
            && p * 4 + q / 16 == a && q % 16 * 16 + r / 4 == b && r % 4 * 64 + t == c
  {
  }

  lemma OneByteBack(a: Byte)
    ensures Decode([CharOf(a / 4), CharOf(a % 4 * 16), '=', '=']) == Some([a])
  {
    var s := [CharOf(a / 4), CharOf(a % 4 * 16), '=', '='];
    ValueOfCharOf(a / 4);
    ValueOfCharOf(a % 4 * 16);
    QuadBack(a, 0, 0);
    assert s[2..] == "==";
  }

  lemma TwoBytesBack(a: Byte, b: Byte)
    ensures Decode([CharOf(a / 4), CharOf(a % 4 * 16 + b / 16), CharOf(b % 16 * 4), '=']) == Some([a, b])
  {
    var s := [CharOf(a / 4), CharOf(a % 4 * 16 + b / 16), CharOf(b % 16 * 4), '='];
    ValueOfCharOf(a / 4);
    ValueOfCharOf(a % 4 * 16 + b / 16);
    ValueOfCharOf(b % 16 * 4);
    QuadBack(a, b, 0);
    assert s[3..] == "=" && s[2..][0] != "=="[0];
  }

  lemma ThreeBytesBack(a: Byte, b: Byte, c: Byte, rest: string)
    ensures Decode(Quad(a, b, c) + rest)
            == match Decode(rest) case Some(more) => Some([a, b, c] + more) case None => None
  {
    var s := Quad(a, b, c) + rest;
    ValueOfCharOf(a / 4);
    ValueOfCharOf(a % 4 * 16 + b / 16);
    ValueOfCharOf(b % 16 * 4 + c / 64);
    ValueOfCharOf(c % 64);
    QuadBack(a, b, c);
    assert s[2..][0] != "=="[0];
    assert s[4..] == rest;
  }

  lemma {:induction false} DecodeEncode(bytes: seq<Byte>)
    ensures Decode(Encode(bytes)) == Some(bytes)
  {
    if bytes == [] {
    } else if |bytes| == 1 {
      OneByteBack(bytes[0]);
      assert bytes == [bytes[0]];
    } else if |bytes| == 2 {
      TwoBytesBack(bytes[0], bytes[1]);
      assert bytes == [bytes[0], bytes[1]];
    } else {
      DecodeEncode(bytes[3..]);
      ThreeBytesBack(bytes[0], bytes[1], bytes[2], Encode(bytes[3..]));
      assert bytes == [bytes[0], bytes[1], bytes[2]] + bytes[3..];
    }
  }

  /** Every byte string comes back from its unpadded text. */
  lemma TextRoundTrip(bytes: seq<Byte>)
    ensures FromText(ToText(bytes)) == Some(bytes)
    ensures NoDot(ToText(bytes))
  {
    RepadRestores(bytes);
    DecodeEncode(bytes);
  }

  /** Comparing texts is comparing byte strings. */
  lemma TextsCompareAsBytes(a: seq<Byte>, b: seq<Byte>)
    ensures ToText(a) == ToText(b) <==> a == b
  {
    TextRoundTrip(a);
    TextRoundTrip(b);
  }

  /** The text is the one the standard gives: character `k` is the table's entry for bits 6k to 6k + 5. */
  lemma TextIsTabled(bytes: seq<Byte>)
    ensures |ToText(bytes)| == (8 * |bytes| + 5) / 6
    ensures forall k :: 0 <= k < |ToText(bytes)| ==> TableEntry(Sextet(bytes, 6 * k), ToText(bytes)[k])
  {
    hide Sextet, TableEntry;
    var s, n := Encode(bytes), |bytes|;
    EncodeShape(bytes);
    EncodeTabled(bytes);
    EncodeLength(bytes);
    var core := s[..|s| - Padding(n)];
    assert s == core + Fill(Padding(n));
    StripFilled(core, Padding(n));
  }
}
