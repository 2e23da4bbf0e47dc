/** Password hashes: the PHC string printer and parser around Argon2id. The key
  * derivation itself is a parameter; what is modelled is the text format, with the
  * scanning rules of Go's fmt.Sscanf.
  */
module Password {
  import opened Base64
  import opened Wrappers
  import S = Strings

  datatype Params = Params(memory: nat, iterations: nat, parallelism: nat)

  /** The widths of the parameter fields: two 32-bit numbers and an 8-bit one. */
  predicate Fits(p: Params) {
    p.memory < 0x1_0000_0000 && p.iterations < 0x1_0000_0000 && p.parallelism < 0x100
  }

  datatype Decoded = Decoded(params: Params, salt: seq<Byte>, key: seq<Byte>)

  /** Argon2id: password, salt, iterations, memory, parallelism and key length to a key. */
  type Kdf = (string, seq<Byte>, nat, nat, nat, nat) -> seq<Byte>

  const VERSION := 19
  const DEFAULT_PARAMS := Params(65536, 3, 2)
  const KEY_LENGTH := 32

  // ---- Printing ------------------------------------------------------------------

  function Digit(d: nat): char
    requires d < 10
  {
    '0' + d as char
  }

  function PrintNat(n: nat): string {
    if n < 10 then [Digit(n)] else PrintNat(n / 10) + [Digit(n % 10)]
  }

  function PrintParams(p: Params): string {
    "m=" + PrintNat(p.memory) + (",t=" + PrintNat(p.iterations) + (",p=" + PrintNat(p.parallelism)))
  }

  /** "$argon2id$v=%d$m=%d,t=%d,p=%d$%s$%s" */
  function EncodeHash(p: Params, salt: seq<Byte>, key: seq<Byte>): string {
    S.Join(["", "argon2id", "v=" + PrintNat(VERSION), PrintParams(p), Encode(Std, salt), Encode(Std, key)], '$')
  }

  // ---- Scanning ------------------------------------------------------------------

  predicate IsDigit(c: char) {
    '0' <= c <= '9'
  }

  /** The length of the longest prefix of digits. */
  function DigitRun(s: string): (n: nat)
    ensures n <= |s|
  {
    if s == "" || !IsDigit(s[0]) then 0 else 1 + DigitRun(s[1..])
  }

  function Number(s: string): nat
    requires forall c | c in s :: IsDigit(c)
  {
    if s == "" then 0
    else
      var last := s[|s| - 1];
      assert last in s;
      assert IsDigit(last);
      Number(s[..|s| - 1]) * 10 + (last - '0') as nat
  }

  predicate IsSpace(c: char) {
    '\t' <= c <= '\r' || c in " \U{0085}\U{00A0}\U{1680}\U{2028}\U{2029}\U{202F}\U{205F}\U{3000}"
      || '\U{2000}' <= c <= '\U{200A}'
  }

  /** Leading space is skipped, but a newline is an error. */
  function SkipSpace(s: string): Option<string> {
    if s == "" || !IsSpace(s[0]) then Some(s)
    else if s[0] == '\n' then None
    else SkipSpace(s[1..])
  }

  lemma {:induction false} DigitRunDigits(s: string)
    ensures forall c | c in s[..DigitRun(s)] :: IsDigit(c)
  {
    if s != "" && IsDigit(s[0]) {
      DigitRunDigits(s[1..]);
      assert s[..DigitRun(s)] == [s[0]] + s[1..][..DigitRun(s[1..])];
    }
  }

  /** %d into an unsigned variable: at least one digit, and the value must be below the limit. */
  function ScanUint(s: string, limit: nat): Option<(nat, string)> {
    match SkipSpace(s)
    case None => None
    case Some(t) =>
      DigitRunDigits(t);
      var n := DigitRun(t);
      if n == 0 || Number(t[..n]) >= limit then None else Some((Number(t[..n]), t[n..]))
  }

  /** %d into a 64-bit signed variable: as above with an optional sign. */
  function ScanInt(s: string): Option<(int, string)> {
    match SkipSpace(s)
    case None => None
    case Some(t) =>
      var signed := t != "" && t[0] in "+-";
      var u := if signed then t[1..] else t;
      DigitRunDigits(u);
      var n := DigitRun(u);
      var m: int := Number(u[..n]);
      var v := if signed && t[0] == '-' then -m else m;
      if n == 0 || v < -0x8000_0000_0000_0000 || v >= 0x8000_0000_0000_0000 then None else Some((v, u[n..]))
  }

  /** A literal of the format must be next in the input. */
  function ScanLiteral(s: string, literal: string): Option<string> {
    if literal <= s then Some(s[|literal|..]) else None
  }

  function ScanField(s: string, literal: string, limit: nat): Option<(nat, string)> {
    match ScanLiteral(s, literal)
    case None => None
    case Some(t) => ScanUint(t, limit)
  }

  /** Sscanf("v=%d"); what follows the number is not looked at, nor is its value. */
  predicate ScansVersion(s: string) {
    ScanLiteral(s, "v=").Some? && ScanInt(ScanLiteral(s, "v=").value).Some?
  }

  /** Sscanf("m=%d,t=%d,p=%d"). */
  function ScanParams(s: string): Option<Params> {
    match ScanField(s, "m=", 0x1_0000_0000)
    case None => None
    case Some((m, s1)) =>
      match ScanField(s1, ",t=", 0x1_0000_0000)
      case None => None
      case Some((t, s2)) =>
        match ScanField(s2, ",p=", 0x100)
        case None => None
        case Some((p, _)) => Some(Params(m, t, p))
  }

  function DecodeHash(encoded: string): Option<Decoded> {
    var parts := S.Split(encoded, '$');
    if |parts| != 6 || parts[1] != "argon2id" || !ScansVersion(parts[2]) then None
    else match (ScanParams(parts[3]), Decode(Std, parts[4]), Decode(Std, parts[5]))
      case (Some(p), Some(salt), Some(key)) => Some(Decoded(p, salt, key))
      case _ => None
  }

  // ---- Hashing and verifying -------------------------------------------------------

  function HashPassword(kdf: Kdf, password: string, salt: seq<Byte>): string {
    var p := DEFAULT_PARAMS;
    EncodeHash(p, salt, kdf(password, salt, p.iterations, p.memory, p.parallelism, KEY_LENGTH))
  }

  /** None is the error for a malformed hash; the key length is kept in 32 bits. */
  function VerifyPassword(kdf: Kdf, password: string, encoded: string): Option<bool> {
    match DecodeHash(encoded)
    case None => None
    case Some(Decoded(p, salt, key)) =>
      Some(kdf(password, salt, p.iterations, p.memory, p.parallelism, |key| % 0x1_0000_0000) == key)
  }

  // ---- Round trip ------------------------------------------------------------------

  lemma {:induction false} PrintNatDigits(n: nat)
    ensures PrintNat(n) != "" && forall c | c in PrintNat(n) :: IsDigit(c)
    ensures Number(PrintNat(n)) == n
  {
    if n >= 10 {
      PrintNatDigits(n / 10);
      assert PrintNat(n)[..|PrintNat(n)| - 1] == PrintNat(n / 10);
    }
  }

  lemma {:induction false} DigitRunStops(digits: string, rest: string)
    requires forall c | c in digits :: IsDigit(c)
    requires rest == "" || !IsDigit(rest[0])
    ensures DigitRun(digits + rest) == |digits|
  {
    if digits == "" {
      assert digits + rest == rest;
    } else {
      assert digits[0] in digits;
      assert (digits + rest)[1..] == digits[1..] + rest;
      DigitRunStops(digits[1..], rest);
    }
  }

  lemma ScanPrinted(n: nat, rest: string, limit: nat)
    requires n < limit && (rest == "" || !IsDigit(rest[0]))
    ensures ScanUint(PrintNat(n) + rest, limit) == Some((n, rest))
  {
    PrintNatDigits(n);
    DigitRunStops(PrintNat(n), rest);
    var s := PrintNat(n) + rest;
    assert s[0] == PrintNat(n)[0] && PrintNat(n)[0] in PrintNat(n);
    assert s[..|PrintNat(n)|] == PrintNat(n) && s[|PrintNat(n)|..] == rest;
  }

  lemma ScanPrintedField(literal: string, n: nat, rest: string, limit: nat)
    requires n < limit && (rest == "" || !IsDigit(rest[0]))
    ensures ScanField(literal + PrintNat(n) + rest, literal, limit) == Some((n, rest))
  {
    var s := literal + PrintNat(n) + rest;
    assert s[|literal|..] == PrintNat(n) + rest;
    ScanPrinted(n, rest, limit);
  }

  lemma ScanPrintedParams(p: Params)
    requires Fits(p)
    ensures ScanParams(PrintParams(p)) == Some(p)
  {
    var s2 := ",p=" + PrintNat(p.parallelism);
    var s1 := ",t=" + PrintNat(p.iterations) + s2;
    ScanPrintedField("m=", p.memory, s1, 0x1_0000_0000);
    ScanPrintedField(",t=", p.iterations, s2, 0x1_0000_0000);
    ScanPrintedField(",p=", p.parallelism, "", 0x100);
    assert s2 + "" == s2;
  }

  lemma NoDollar(p: Params, b: seq<Byte>)
    ensures '$' !in PrintParams(p) && '$' !in Encode(Std, b)
  {
    PrintNatDigits(p.memory);
    PrintNatDigits(p.iterations);
    PrintNatDigits(p.parallelism);
    EncodeAlphabet(Std, b);
  }

  lemma VersionScans()
    ensures '$' !in "v=" + PrintNat(VERSION) && ScansVersion("v=" + PrintNat(VERSION))
  {
    var d := PrintNat(VERSION);
    PrintNatDigits(VERSION);
    DigitRunStops(d, "");
    assert d + "" == d && ("v=" + d)[2..] == d && d[..|d|] == d && d[0] in d;
  }

  /** The parser inverts the printer, for all parameters of the field widths and any salt and key. */
  lemma PhcRoundTrip(p: Params, salt: seq<Byte>, key: seq<Byte>)
    requires Fits(p)
    ensures DecodeHash(EncodeHash(p, salt, key)) == Some(Decoded(p, salt, key))
  {
    hide PrintNat, PrintParams, ScansVersion, ScanParams, Encode, Decode;
    var parts := ["", "argon2id", "v=" + PrintNat(VERSION), PrintParams(p), Encode(Std, salt), Encode(Std, key)];
    VersionScans();
    NoDollar(p, salt);
    NoDollar(p, key);
    S.SplitJoin(parts, '$');
    ScanPrintedParams(p);
    RoundTrip(Std, salt);
    RoundTrip(Std, key);
  }

  /** Verification accepts exactly the passwords that derive the stored key; in particular the one that was hashed. */
  lemma VerifyAfterHash(kdf: Kdf, password: string, salt: seq<Byte>, attempt: string)
    requires forall w, s, t, m, l, k :: |kdf(w, s, t, m, l, k)| == k
    ensures VerifyPassword(kdf, attempt, HashPassword(kdf, password, salt))
         == Some(kdf(attempt, salt, 3, 65536, 2, 32) == kdf(password, salt, 3, 65536, 2, 32))
    ensures VerifyPassword(kdf, password, HashPassword(kdf, password, salt)) == Some(true)
  {
    hide EncodeHash, DecodeHash;
    PhcRoundTrip(DEFAULT_PARAMS, salt, kdf(password, salt, 3, 65536, 2, 32));
  }

  // ---- What the scanner accepts ------------------------------------------------------

  predicate AllDigits(s: string) {
    forall c | c in s :: IsDigit(c)
  }

  /** Space that %d skips: none of it a newline. */
  predicate Blank(s: string) {
    forall c | c in s :: IsSpace(c) && c != '\n'
  }

  predicate NoDigitFirst(s: string) {
    s == "" || !IsDigit(s[0])
  }

  lemma {:induction false} SkipSpaceMeaning(s: string, t: string)
    ensures SkipSpace(s) == Some(t)
       <==> (|t| <= |s| && s[|s| - |t|..] == t && Blank(s[..|s| - |t|]) && (t == "" || !IsSpace(t[0])))
  {
    if s != "" && IsSpace(s[0]) && s[0] != '\n' {
      SkipSpaceMeaning(s[1..], t);
      if |t| < |s| {
        var k := |s| - |t|;
        assert s[1..][k - 1..] == s[k..];
        assert s[..k] == [s[0]] + s[1..][..k - 1];
      }
    } else if |t| < |s| {
      assert s[0] in s[..|s| - |t|];
    }
  }

  lemma {:induction false} DigitRunMaximal(s: string)
    ensures AllDigits(s[..DigitRun(s)]) && NoDigitFirst(s[DigitRun(s)..])
  {
    DigitRunDigits(s);
    if s != "" && IsDigit(s[0]) {
      DigitRunMaximal(s[1..]);
      assert s[DigitRun(s)..] == s[1..][DigitRun(s[1..])..];
    }
  }

  /** s is blank space, then the digits, then the rest, which does not go on with a digit. */
  predicate Numeral(s: string, blank: string, digits: string, rest: string) {
    && s == blank + (digits + rest) && Blank(blank) && digits != "" && AllDigits(digits) && NoDigitFirst(rest)
  }

  lemma DigitIsNoSpace(c: char)
    requires IsDigit(c)
    ensures !IsSpace(c)
  {
  }

  lemma SkipsBlank(s: string, blank: string, t: string)
    requires s == blank + t && Blank(blank) && (t == "" || !IsSpace(t[0]))
    ensures SkipSpace(s) == Some(t)
  {
    assert s[|s| - |t|..] == t && s[..|s| - |t|] == blank;
    SkipSpaceMeaning(s, t);
  }

  lemma SkippedBlank(s: string) returns (blank: string)
    requires SkipSpace(s).Some?
    ensures s == blank + SkipSpace(s).value && Blank(blank)
  {
    SkipSpaceMeaning(s, SkipSpace(s).value);
    blank := s[..|s| - |SkipSpace(s).value|];
  }

  lemma DigitsOf(u: string)
    ensures u == u[..DigitRun(u)] + u[DigitRun(u)..]
    ensures AllDigits(u[..DigitRun(u)]) && NoDigitFirst(u[DigitRun(u)..])
  {
    DigitRunMaximal(u);
  }

  lemma UintSplits(t: string, limit: nat, v: nat, rest: string)
    requires SkipSpace(t) == Some(t) && ScanUint(t, limit) == Some((v, rest))
    ensures var digits := t[..DigitRun(t)];
      AllDigits(digits) && digits != "" && Number(digits) == v < limit && rest == t[DigitRun(t)..]
  {
    DigitRunDigits(t);
    hide SkipSpace, Number, IsDigit;
  }

  lemma NumeralRead(s: string, limit: nat, v: nat, rest: string) returns (blank: string, digits: string)
    requires ScanUint(s, limit) == Some((v, rest))
    ensures v < limit && Numeral(s, blank, digits, rest) && Number(digits) == v
  {
    var t := SkipSpace(s).value;
    SkipsOnce(s);
    hide SkipSpace;
    assert ScanUint(t, limit) == Some((v, rest));
    UintSplits(t, limit, v, rest);
    blank := SkippedBlank(s);
    digits := t[..DigitRun(t)];
    DigitsOf(t);
    hide DigitRun, Blank, NoDigitFirst, Number, AllDigits, ScanUint;
  }

  lemma SkipsOnce(s: string)
    requires SkipSpace(s).Some?
    ensures SkipSpace(SkipSpace(s).value) == Some(SkipSpace(s).value)
  {
    SkipSpaceMeaning(s, SkipSpace(s).value);
  }

  /** %d into an unsigned field reads v and leaves rest exactly when s is such a numeral of v, below the limit. */
  lemma ScanUintMeaning(s: string, limit: nat, v: nat, rest: string)
    ensures ScanUint(s, limit) == Some((v, rest))
       <==> (v < limit && exists blank, digits :: Numeral(s, blank, digits, rest) && Number(digits) == v)
  {
    if ScanUint(s, limit) == Some((v, rest)) {
      var blank, digits := NumeralRead(s, limit, v, rest);
    }
    hide ScanUint, Blank, NoDigitFirst;
    forall blank, digits | Numeral(s, blank, digits, rest) && Number(digits) == v < limit
      ensures ScanUint(s, limit) == Some((v, rest))
    {
      ReadsNumeral(s, blank, digits, rest, limit);
    }
  }

  lemma ReadsNumeral(s: string, blank: string, digits: string, rest: string, limit: nat)
    requires Numeral(s, blank, digits, rest) && Number(digits) < limit
    ensures ScanUint(s, limit) == Some((Number(digits), rest))
  {
    var t := digits + rest;
    assert t[0] == digits[0] && digits[0] in digits;
    DigitIsNoSpace(t[0]);
    SkipsBlank(s, blank, t);
    assert t[..|digits|] == digits && t[|digits|..] == rest;
    DigitRunStops(digits, rest);
  }

  /** A parameter field: the literal, then a numeral of v below the limit, then the rest. */
  ghost predicate Field(s: string, literal: string, limit: nat, v: nat, rest: string) {
    && v < limit
    && exists blank, digits ::
      && s == literal + (blank + (digits + rest))
      && Numeral(blank + (digits + rest), blank, digits, rest) && Number(digits) == v
  }

  lemma ScanFieldMeaning(s: string, literal: string, limit: nat, v: nat, rest: string)
    ensures ScanField(s, literal, limit) == Some((v, rest)) <==> Field(s, literal, limit, v, rest)
  {
    if literal <= s {
      var t := s[|literal|..];
      assert s == literal + t;
      ScanUintMeaning(t, limit, v, rest);
      forall blank, digits | s == literal + (blank + (digits + rest))
        ensures t == blank + (digits + rest)
      {
        assert s[|literal|..] == blank + (digits + rest);
      }
    } else {
      forall u ensures s != literal + u { assert literal <= literal + u; }
    }
  }

  /** The parameters p are read exactly from "m=", ",t=" and ",p=" with numerals of them after each, in this order and
    * within the widths of the fields; what follows the last numeral is not looked at. */
  lemma ScanParamsMeaning(s: string, p: Params)
    ensures ScanParams(s) == Some(p)
       <==> (exists s1, s2, rest ::
               && Field(s, "m=", 0x1_0000_0000, p.memory, s1) && Field(s1, ",t=", 0x1_0000_0000, p.iterations, s2)
               && Field(s2, ",p=", 0x100, p.parallelism, rest))
  {
    hide ScanField, Field;
    forall t, literal, limit: nat, v: nat, rest
      ensures ScanField(t, literal, limit) == Some((v, rest)) <==> Field(t, literal, limit, v, rest)
    {
      ScanFieldMeaning(t, literal, limit, v, rest);
    }
  }

  // ---- What the parser accepts -------------------------------------------------------

  /** A signed numeral that fits 64 bits. */
  predicate SignedNumeral(s: string, blank: string, sign: string, digits: string, rest: string) {
    && s == blank + (sign + (digits + rest)) && Blank(blank) && (sign == "" || sign == "+" || sign == "-")
    && digits != "" && AllDigits(digits) && NoDigitFirst(rest)
    && (if sign == "-" then Number(digits) <= 0x8000_0000_0000_0000 else Number(digits) < 0x8000_0000_0000_0000)
  }

  lemma SignOf(t: string) returns (sign: string)
    ensures var signed := t != "" && t[0] in "+-";
      && t == sign + (if signed then t[1..] else t) && (sign == "" || sign == "+" || sign == "-")
      && (sign == "-" <==> signed && t[0] == '-')
  {
    sign := if t != "" && t[0] == '+' then "+" else if t != "" && t[0] == '-' then "-" else "";
  }

  lemma SignedRead(s: string) returns (blank: string, sign: string, digits: string, rest: string)
    requires ScanInt(s).Some?
    ensures SignedNumeral(s, blank, sign, digits, rest)
  {
    var t := SkipSpace(s).value;
    var u := if t != "" && t[0] in "+-" then t[1..] else t;
    blank := SkippedBlank(s);
    sign := SignOf(t);
    DigitsOf(u);
    digits, rest := u[..DigitRun(u)], u[DigitRun(u)..];
    hide DigitRun, SkipSpace, IsSpace, Blank, NoDigitFirst, Number;
  }

  lemma SignIsSkipped(sign: string, u: string)
    requires (sign == "" || sign == "+" || sign == "-") && u != "" && IsDigit(u[0])
    ensures var t := sign + u; var signed := t[0] in "+-";
      && !IsSpace(t[0]) && (signed <==> sign != "") && (if signed then t[1..] else t) == u
      && (signed && t[0] == '-' <==> sign == "-")
  {
    var t := sign + u;
    if sign == "" { assert t == u; } else { assert t[0] == sign[0] && t[1..] == u; }
  }

  lemma ReadsSigned(s: string, blank: string, sign: string, digits: string, rest: string)
    requires SignedNumeral(s, blank, sign, digits, rest)
    ensures ScanInt(s).Some?
  {
    var t, u := sign + (digits + rest), digits + rest;
    assert u[0] == digits[0] && digits[0] in digits;
    SignIsSkipped(sign, u);
    SkipsBlank(s, blank, t);
    DigitRunStops(digits, rest);
    assert u[..|digits|] == digits;
    hide IsSpace, IsDigit, SkipSpace, DigitRun, Number, Blank;
  }

  /** The version field: any number whatever. */
  ghost predicate VersionField(s: string) {
    && "v=" <= s
    && exists blank, sign, digits, rest :: SignedNumeral(s[2..], blank, sign, digits, rest)
  }

  lemma ScansVersionMeaning(s: string)
    ensures ScansVersion(s) <==> VersionField(s)
  {
    if "v=" <= s {
      hide ScanInt, SignedNumeral;
      if ScanInt(s[2..]).Some? { var blank, sign, digits, rest := SignedRead(s[2..]); }
      if blank, sign, digits, rest :| SignedNumeral(s[2..], blank, sign, digits, rest) {
        ReadsSigned(s[2..], blank, sign, digits, rest);
      }
    }
  }

  /** The text is this '$'-separated hash of d. */
  ghost predicate Spells(encoded: string, parts: seq<string>, d: Decoded) {
    && |parts| == 6 && (forall p | p in parts :: '$' !in p) && encoded == S.Join(parts, '$')
    && parts[1] == "argon2id" && VersionField(parts[2]) && ScanParams(parts[3]) == Some(d.params)
    && Decode(Std, parts[4]) == Some(d.salt) && Decode(Std, parts[5]) == Some(d.key)
  }

  /** Exactly the texts of six parts are decoded whose second is the name of the algorithm, whose third holds a version
    * of any value, and whose others are the parameters, the salt and the key. */
  lemma DecodeMeaning(encoded: string, d: Decoded)
    ensures DecodeHash(encoded) == Some(d) <==> exists parts :: Spells(encoded, parts, d)
  {
    hide ScansVersion, VersionField, ScanParams, Decode, S.Split, S.Join;
    var parts := S.Split(encoded, '$');
    S.JoinSplit(encoded, '$');
    if |parts| == 6 { ScansVersionMeaning(parts[2]); }
    if DecodeHash(encoded) == Some(d) { assert Spells(encoded, parts, d); }
    forall ps | Spells(encoded, ps, d)
      ensures ps == parts
    {
      S.SplitJoin(ps, '$');
    }
  }

  /** The parts of a new hash. */
  lemma HashText(kdf: Kdf, password: string, salt: seq<Byte>)
    ensures HashPassword(kdf, password, salt)
         == S.Join(["", "argon2id", "v=" + "19", "m=" + "65536" + (",t=" + "3" + (",p=" + "2")), Encode(Std, salt),
                    Encode(Std, kdf(password, salt, 3, 65536, 2, 32))], '$')
  {
    assert PrintNat(65) == PrintNat(6) + [Digit(5)] == "65";
    assert PrintNat(655) == PrintNat(65) + [Digit(5)] == "655";
    assert PrintNat(6553) == PrintNat(655) + [Digit(3)] == "6553";
    assert PrintNat(65536) == PrintNat(6553) + [Digit(6)] == "65536";
    assert PrintNat(19) == PrintNat(1) + [Digit(9)] == "19" && PrintNat(3) == "3" && PrintNat(2) == "2";
  }
}
