/** The two unpadded base64 encodings in use: standard (section 4 of RFC 4648) for
  * password hashes and URL-safe (section 5 of RFC 4648) for opaque tokens. Padding is
  * omitted as section 3.2 of RFC 4648 allows. The decoder behaves like Go's
  * non-strict one: it skips line breaks and ignores unused trailing bits.
  */
module Base64 {
  import opened Wrappers

  newtype Byte = x: int | 0 <= x < 256

  type Sextet = x: int | 0 <= x < 64

  datatype Alphabet = Std | Url

  function Char(a: Alphabet, v: Sextet): char {
    if v < 26 then 'A' + v as char
    else if v < 52 then 'a' + (v - 26) as char
    else if v < 62 then '0' + (v - 52) as char
    else if a.Std? then (if v == 62 then '+' else '/')
    else if v == 62 then '-' else '_'
  }

  function Value(a: Alphabet, c: char): Option<Sextet> {
    if 'A' <= c <= 'Z' then Some((c - 'A') as int)
    else if 'a' <= c <= 'z' then Some((c - 'a') as int + 26)
    else if '0' <= c <= '9' then Some((c - '0') as int + 52)
    else if c == (if a.Std? then '+' else '-') then Some(62)
    else if c == (if a.Std? then '/' else '_') then Some(63)
    else None
  }

  lemma CharRoundTrip(a: Alphabet, v: Sextet)
    ensures Value(a, Char(a, v)) == Some(v)
  {
  }

  function Encode(a: Alphabet, b: seq<Byte>): string {
    if b == [] then ""
    else
      var b0 := b[0] as int;
      if |b| == 1 then [Char(a, b0 / 4), Char(a, b0 % 4 * 16)]
      else
        var b1 := b[1] as int;
        if |b| == 2 then [Char(a, b0 / 4), Char(a, b0 % 4 * 16 + b1 / 16), Char(a, b1 % 16 * 4)]
        else
          var b2 := b[2] as int;
          [Char(a, b0 / 4), Char(a, b0 % 4 * 16 + b1 / 16), Char(a, b1 % 16 * 4 + b2 / 64), Char(a, b2 % 64)]
          + Encode(a, b[3..])
  }

  function DropLineBreaks(s: string): string {
    if s == "" then ""
    else if s[0] in "\r\n" then DropLineBreaks(s[1..])
    else [s[0]] + DropLineBreaks(s[1..])
  }

  /** All characters as sextets, or None when one is outside the alphabet. */
  function Sextets(a: Alphabet, s: string): (r: Option<seq<Sextet>>)
    ensures r.Some? ==> |r.value| == |s|
  {
    if s == "" then Some([])
    else match (Value(a, s[0]), Sextets(a, s[1..]))
      case (Some(v), Some(vs)) => Some([v] + vs)
      case _ => None
  }

  /** Four sextets make three bytes; a final group of two or three makes one or two; a single one is an error. */
  function Assemble(v: seq<Sextet>): Option<seq<Byte>> {
    if v == [] then Some([])
    else if |v| == 1 then None
    else
      var v0: int, v1: int := v[0], v[1];
      var b0 := (v0 * 4 + v1 / 16) as Byte;
      if |v| == 2 then Some([b0])
      else
        var v2: int := v[2];
        var b1 := (v1 % 16 * 16 + v2 / 4) as Byte;
        if |v| == 3 then Some([b0, b1])
        else
          var v3: int := v[3];
          var b2 := (v2 % 4 * 64 + v3) as Byte;
          match Assemble(v[4..])
          case None => None
          case Some(rest) => Some([b0, b1, b2] + rest)
  }

  function Decode(a: Alphabet, s: string): Option<seq<Byte>> {
    match Sextets(a, DropLineBreaks(s))
    case None => None
    case Some(v) => Assemble(v)
  }

  // ---- Round trip --------------------------------------------------------------

  predicate IsUrlChar(c: char) {
    'A' <= c <= 'Z' || 'a' <= c <= 'z' || '0' <= c <= '9' || c in "_-"
  }

  predicate IsStdChar(c: char) {
    'A' <= c <= 'Z' || 'a' <= c <= 'z' || '0' <= c <= '9' || c in "+/"
  }

  lemma {:induction false} EncodeAlphabet(a: Alphabet, b: seq<Byte>)
    ensures forall c | c in Encode(a, b) :: if a.Std? then IsStdChar(c) else IsUrlChar(c)
  {
    if |b| > 2 {
      EncodeAlphabet(a, b[3..]);
    }
  }

  lemma {:induction false} NoLineBreaks(s: string)
    requires forall c | c in s :: c !in "\r\n"
    ensures DropLineBreaks(s) == s
  {
    if s != "" {
      assert forall c | c in s[1..] :: c in s;
      NoLineBreaks(s[1..]);
    }
  }

  lemma {:induction false} SextetsAt(a: Alphabet, s: string)
    requires Sextets(a, s).Some?
    ensures forall i | 0 <= i < |s| :: Value(a, s[i]) == Some(Sextets(a, s).value[i])
  {
    if s != "" {
      SextetsAt(a, s[1..]);
    }
  }

  /** The sextets the encoder draws its characters from. */
  function Split(b: seq<Byte>): seq<Sextet> {
    if b == [] then []
    else
      var b0 := b[0] as int;
      if |b| == 1 then [b0 / 4, b0 % 4 * 16]
      else
        var b1 := b[1] as int;
        if |b| == 2 then [b0 / 4, b0 % 4 * 16 + b1 / 16, b1 % 16 * 4]
        else
          var b2 := b[2] as int;
          [b0 / 4, b0 % 4 * 16 + b1 / 16, b1 % 16 * 4 + b2 / 64, b2 % 64] + Split(b[3..])
  }

  lemma {:induction false} SextetsAppend(a: Alphabet, v: seq<Sextet>, s: string)
    requires |v| <= 4
    ensures Sextets(a, seq(|v|, i requires 0 <= i < |v| => Char(a, v[i])) + s)
         == match Sextets(a, s) case None => None case Some(w) => Some(v + w)
  {
    var t := seq(|v|, i requires 0 <= i < |v| => Char(a, v[i]));
    if v == [] {
      assert t + s == s;
      if Sextets(a, s).Some? { assert v + Sextets(a, s).value == Sextets(a, s).value; }
    } else {
      var u := v[1..];
      SextetsAppend(a, u, s);
      CharRoundTrip(a, v[0]);
      assert (t + s)[1..] == seq(|u|, i requires 0 <= i < |u| => Char(a, u[i])) + s;
      if Sextets(a, s).Some? {
        assert [v[0]] + (u + Sextets(a, s).value) == v + Sextets(a, s).value;
      }
    }
  }

  lemma {:induction false} EncodeIsSplit(a: Alphabet, b: seq<Byte>)
    ensures Sextets(a, Encode(a, b)) == Some(Split(b))
    decreases |b|
  {
    if b != [] {
      var head := if |b| <= 3 then Split(b) else Split(b)[..4];
      var rest := if |b| < 3 then [] else b[3..];
      assert |rest| < |b|;
      EncodeIsSplit(a, rest);
      if |b| == 3 { assert Split(b) == head + Split(rest); }
      SextetsAppend(a, head, Encode(a, rest));
      assert Encode(a, b) == seq(|head|, i requires 0 <= i < |head| => Char(a, head[i])) + Encode(a, rest);
      assert Split(b) == head + Split(rest);
    }
  }

  /** The four sextets of a group determine its three bytes. */
  lemma Regroup(b0: int, b1: int, b2: int)
    requires 0 <= b0 < 256 && 0 <= b1 < 256 && 0 <= b2 < 256
    ensures b0 / 4 * 4 + (b0 % 4 * 16 + b1 / 16) / 16 == b0
    ensures (b0 % 4 * 16 + b1 / 16) % 16 * 16 + (b1 % 16 * 4 + b2 / 64) / 4 == b1
    ensures (b1 % 16 * 4 + b2 / 64) % 4 * 64 + b2 % 64 == b2
  {
  }

  lemma {:induction false} AssembleSplit(b: seq<Byte>)
    ensures Assemble(Split(b)) == Some(b)
  {
    if |b| == 0 {
    } else if |b| == 1 {
      assert b == [b[0]];
    } else if |b| == 2 {
      assert b == [b[0], b[1]];
    } else {
      AssembleSplit(b[3..]);
      Regroup(b[0] as int, b[1] as int, b[2] as int);
      var v := Split(b);
      assert v[4..] == Split(b[3..]);
      assert b == [b[0], b[1], b[2]] + b[3..];
    }
  }

  /** Unpadded length: six random bytes make eight characters, thirty-two make forty-three. */
  lemma {:induction false} EncodeLength(a: Alphabet, b: seq<Byte>)
    ensures |Encode(a, b)| == (4 * |b| + 2) / 3
  {
    if |b| > 2 { EncodeLength(a, b[3..]); }
  }

  /** Decoding inverts encoding, for every byte sequence and both alphabets. */
  lemma RoundTrip(a: Alphabet, b: seq<Byte>)
    ensures Decode(a, Encode(a, b)) == Some(b)
  {
    EncodeAlphabet(a, b);
    NoLineBreaks(Encode(a, b));
    EncodeIsSplit(a, b);
    AssembleSplit(b);
  }

  // ---- Against the standard ------------------------------------------------------

  /** Tables 1 and 2 of RFC 4648: runs of consecutive characters from 'A', 'a' and '0', then the two that differ. */
  lemma TablesOfTheStandard(a: Alphabet, v: Sextet)
    ensures Char(a, 0) == 'A' && Char(a, 26) == 'a' && Char(a, 52) == '0'
    ensures Char(Std, 62) == '+' && Char(Std, 63) == '/' && Char(Url, 62) == '-' && Char(Url, 63) == '_'
    ensures v < 61 && v != 25 && v != 51 ==> Char(a, v + 1) == Char(a, v) + 1 as char
  {
  }

  /** The sextets from position j, n of them, read as one number. */
  function Sextets64(v: seq<Sextet>, j: nat, n: nat): int
    requires j + n <= |v|
  {
    if n == 0 then 0 else Sextets64(v, j, n - 1) * 64 + v[j + n - 1] as int
  }

  function Bytes256(b: seq<Byte>, j: nat, n: nat): int
    requires j + n <= |b|
  {
    if n == 0 then 0 else Bytes256(b, j, n - 1) * 256 + b[j + n - 1] as int
  }

  lemma FirstGroup(b: seq<Byte>)
    requires b != []
    ensures var v, n := Split(b), if |b| < 3 then |b| else 3;
      && n + 1 <= |v| && (|b| < 3 ==> |v| == n + 1)
      && Sextets64(v, 0, n + 1) == Bytes256(b, 0, n) * (if n == 1 then 16 else if n == 2 then 4 else 1)
  {
    var v := Split(b);
    assert Sextets64(v, 0, 1) == v[0] as int;
    assert Sextets64(v, 0, 2) == v[0] as int * 64 + v[1] as int;
    assert Bytes256(b, 0, 1) == b[0] as int;
    if |b| >= 2 {
      assert Sextets64(v, 0, 3) == Sextets64(v, 0, 2) * 64 + v[2] as int;
      assert Bytes256(b, 0, 2) == b[0] as int * 256 + b[1] as int;
    }
    if |b| >= 3 {
      assert Sextets64(v, 0, 4) == Sextets64(v, 0, 3) * 64 + v[3] as int;
      assert Bytes256(b, 0, 3) == Bytes256(b, 0, 2) * 256 + b[2] as int;
    }
  }

  lemma {:induction false} Sextets64Drop(v: seq<Sextet>, k: nat, j: nat, n: nat)
    requires k + j + n <= |v|
    ensures Sextets64(v[k..], j, n) == Sextets64(v, k + j, n)
  {
    if n > 0 { Sextets64Drop(v, k, j, n - 1); }
  }

  lemma {:induction false} Bytes256Drop(b: seq<Byte>, k: nat, j: nat, n: nat)
    requires k + j + n <= |b|
    ensures Bytes256(b[k..], j, n) == Bytes256(b, k + j, n)
  {
    if n > 0 { Bytes256Drop(b, k, j, n - 1); }
  }

  lemma SplitDrops(b: seq<Byte>)
    requires |b| >= 3
    ensures |Split(b)| == 4 + |Split(b[3..])| && Split(b)[4..] == Split(b[3..])
  {
  }

  /** Each three bytes, read as one number, are their four sextets read as one; one or two bytes that are left at the
    * end are their two or three sextets without the zero bits that fill up the last one. */
  lemma {:induction false} SplitRegroupsBits(b: seq<Byte>, i: nat)
    requires 3 * i < |b|
    ensures var v, n := Split(b), if |b| - 3 * i < 3 then |b| - 3 * i else 3;
      && 4 * i + n + 1 <= |v| && (n < 3 ==> |v| == 4 * i + n + 1)
      && Sextets64(v, 4 * i, n + 1) == Bytes256(b, 3 * i, n) * (if n == 1 then 16 else if n == 2 then 4 else 1)
    decreases i
  {
    if i == 0 {
      FirstGroup(b);
    } else {
      var n := if |b| - 3 * i < 3 then |b| - 3 * i else 3;
      hide Split, Sextets64, Bytes256;
      SplitRegroupsBits(b[3..], i - 1);
      SplitDrops(b);
      var v := Split(b);
      assert v[4..] == Split(b[3..]) && |v[4..]| == |v| - 4;
      Sextets64Drop(v, 4, 4 * (i - 1), n + 1);
      Bytes256Drop(b, 3, 3 * (i - 1), n);
      assert 4 + 4 * (i - 1) == 4 * i && 3 + 3 * (i - 1) == 3 * i;
    }
  }

  lemma {:induction false} SextetsSome(a: Alphabet, s: string)
    ensures Sextets(a, s).Some? <==> forall c | c in s :: Value(a, c).Some?
  {
    if s != "" {
      SextetsSome(a, s[1..]);
      assert s == [s[0]] + s[1..];
    }
  }

  lemma AssembleRest(v: seq<Sextet>)
    requires |v| > 3
    ensures Assemble(v).Some? <==> Assemble(v[4..]).Some?
    ensures Assemble(v).Some? ==> |Assemble(v).value| == 3 + |Assemble(v[4..]).value|
  {
  }

  lemma {:induction false} AssembleSome(v: seq<Sextet>)
    ensures Assemble(v).Some? <==> |v| % 4 != 1
    ensures Assemble(v).Some? ==> |Assemble(v).value| == |v| * 3 / 4
  {
    if |v| > 3 {
      hide Assemble;
      AssembleRest(v);
      AssembleSome(v[4..]);
    }
  }

  lemma {:induction false} DroppedAre(s: string)
    ensures forall c :: c in DropLineBreaks(s) <==> c in s && c !in "\r\n"
  {
    if s != "" {
      DroppedAre(s[1..]);
      assert s == [s[0]] + s[1..];
    }
  }

  /** Exactly the strings are decoded that hold nothing but line breaks and characters of the alphabet, and not one
    * character more than a multiple of four of these; four characters make three bytes. */
  lemma DecodesExactly(a: Alphabet, s: string)
    ensures var n := |DropLineBreaks(s)|;
      && (Decode(a, s).Some? <==> (forall c | c in s && c !in "\r\n" :: Value(a, c).Some?) && n % 4 != 1)
      && (Decode(a, s).Some? ==> |Decode(a, s).value| == n * 3 / 4)
  {
    DroppedAre(s);
    SextetsSome(a, DropLineBreaks(s));
    if Sextets(a, DropLineBreaks(s)).Some? { AssembleSome(Sextets(a, DropLineBreaks(s)).value); }
  }
}
