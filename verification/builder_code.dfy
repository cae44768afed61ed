/** The ERC-8021 builder-code suffix: encoding, appending to calldata, and recognising one. */
module BuilderCodes {
  import opened Options
  import opened Texts

  type Byte = b: int | 0 <= b < 256

  const MAGIC: seq<Byte> := [0x80, 0x21, 0x80, 0x21, 0x80, 0x21, 0x80, 0x21, 0x80, 0x21, 0x80, 0x21, 0x80, 0x21, 0x80,
                             0x21]

  const BASE_CHAIN_IDS := {8453, 84532}

  // ----- Hexadecimal text -----

  function HexDigit(n: int): (c: char)
    requires 0 <= n < 16
    ensures IsHex(c)
    ensures c as int == if n < 10 then '0' as int + n else 'a' as int + n - 10
  {
    if n < 10 then ('0' as int + n) as char else ('a' as int + n - 10) as char
  }

  predicate IsHex(c: char) { '0' <= c <= '9' || 'a' <= c <= 'f' }

  function HexValue(c: char): (n: int)
    requires IsHex(c)
    ensures 0 <= n < 16 && HexDigit(n) == c
  {
    if c <= '9' then c as int - '0' as int else c as int - 'a' as int + 10
  }

  predicate AllHex(s: string) { forall i :: 0 <= i < |s| ==> IsHex(s[i]) }

  /** The k-th half byte. */
  function Nibble(bytes: seq<Byte>, k: nat): (n: int)
    requires k < 2 * |bytes|
    ensures 0 <= n < 16
  {
    if k % 2 == 0 then bytes[k / 2] / 16 else bytes[k / 2] % 16
  }

  /** bytes.hex() */
  function Hex(bytes: seq<Byte>): (s: string)
    ensures |s| == 2 * |bytes| && AllHex(s)
  {
    seq(2 * |bytes|, k requires 0 <= k < 2 * |bytes| => HexDigit(Nibble(bytes, k)))
  }

  /** bytes.fromhex() of lower-case digits */
  function Unhex(s: string): (bytes: seq<Byte>)
    requires AllHex(s) && |s| % 2 == 0
    ensures 2 * |bytes| == |s|
    ensures forall i :: 0 <= i < |bytes| ==> bytes[i] == 16 * HexValue(s[2 * i]) + HexValue(s[2 * i + 1])
  {
    seq(|s| / 2, i requires 0 <= i < |s| / 2 => 16 * HexValue(s[2 * i]) + HexValue(s[2 * i + 1]))
  }

  lemma UnhexHex(bytes: seq<Byte>)
    ensures Unhex(Hex(bytes)) == bytes
  {
    var s := Hex(bytes);
    forall i | 0 <= i < |bytes|
      ensures Unhex(s)[i] == bytes[i]
    {
      assert s[2 * i] == HexDigit(Nibble(bytes, 2 * i)) && s[2 * i + 1] == HexDigit(Nibble(bytes, 2 * i + 1));
    }
  }

  lemma HexInjective(a: seq<Byte>, b: seq<Byte>)
    requires Hex(a) == Hex(b)
    ensures a == b
  {
    UnhexHex(a);
    UnhexHex(b);
  }

  lemma HexSplit(a: seq<Byte>, b: seq<Byte>)
    ensures Hex(a + b) == Hex(a) + Hex(b)
  {
    forall k | 0 <= k < 2 * |a + b|
      ensures Hex(a + b)[k] == (Hex(a) + Hex(b))[k]
    {
      if k >= 2 * |a| {
        assert (k - 2 * |a|) / 2 == k / 2 - |a| && (k - 2 * |a|) % 2 == k % 2;
        assert (a + b)[k / 2] == b[(k - 2 * |a|) / 2];
      }
    }
  }

  /** s.removeprefix("0x") */
  function Bare(s: string): string {
    if "0x" <= s then s[2..] else s
  }

  predicate EndsWith(s: string, suffix: string) {
    |suffix| <= |s| && s[|s| - |suffix|..] == suffix
  }

  // ----- Codes and suffixes -----

  predicate CodeChar(c: char) { 'a' <= c <= 'z' || '0' <= c <= '9' || c == '_' }

  predicate CleanCode(code: string) {
    1 <= |code| <= 32 && forall i :: 0 <= i < |code| ==> CodeChar(code[i])
  }

  /** The source's pattern ends in `$`, which also matches before one final newline. */
  predicate ValidCode(code: string) {
    CleanCode(code) || (code != "" && code[|code| - 1] == '\n' && CleanCode(code[..|code| - 1]))
  }

  /** The pattern accepts exactly the clean codes and each of them with one newline after it. */
  lemma NewlinePasses(code: string)
    ensures CleanCode(code) ==> ValidCode(code + "\n") && !CleanCode(code + "\n")
    ensures ValidCode(code) && !CleanCode(code) ==> exists clean :: CleanCode(clean) && code == clean + "\n"
  {
    if CleanCode(code) {
      assert (code + "\n")[..|code|] == code && (code + "\n")[|code|] == '\n';
    }
    if ValidCode(code) && !CleanCode(code) {
      assert code == code[..|code| - 1] + "\n";
    }
  }

  function Ascii(code: string): (bytes: seq<Byte>)
    requires forall i :: 0 <= i < |code| ==> code[i] as int < 128
    ensures |bytes| == |code| && forall i :: 0 <= i < |code| ==> bytes[i] == code[i] as int
  {
    seq(|code|, i requires 0 <= i < |code| => code[i] as int)
  }

  function EncodeDataSuffix(code: string): seq<Byte>
    requires ValidCode(code)
  {
    Ascii(code) + [|code|, 0] + MAGIC
  }

  /** The configured suffix: None unless the stripped setting is a valid code. */
  function LoadDataSuffix(setting: string): (r: Option<seq<Byte>>)
    ensures r.Some? <==> CleanCode(Trim(setting))
    ensures r.Some? ==> r.value == EncodeDataSuffix(Trim(setting))
  {
    var code := Trim(setting);
    TrimTwice(setting);
    if code == "" || !ValidCode(code) then None else Some(EncodeDataSuffix(code))
  }

  function AppendSuffix(data: string, chainId: int, suffix: Option<seq<Byte>>): string {
    if suffix.None? || suffix.value == [] || chainId !in BASE_CHAIN_IDS then data
    else if EndsWith(Lower(Bare(data)), Hex(suffix.value)) then "0x" + Bare(data)
    else "0x" + Bare(data) + Hex(suffix.value)
  }

  /** What stands before the magic tail, for each schema. */
  predicate WellFormedBody(body: seq<Byte>) {
    var n: int := |body|;
    n > 0 &&
    match body[n - 1]
    case 0 => n >= 2 && (var length: int := body[n - 2]; length > 0 && n == length + 2)
    case 1 => n >= 2 && (var length: int := body[n - 2]; length > 0 && n > length + 2)
    case 2 => n >= 3 && (var high, low: int := body[n - 3], body[n - 2];
                         256 * high + low > 0 && n == 256 * high + low + 3)
    case _ => false
  }

  predicate HasAttributionSuffix(text: string) {
    EndsInSuffix(text, MAGIC)
  }

  predicate EndsInSuffix(text: string, magic: seq<Byte>) {
    var tail := Bare(Lower(text));
    && |tail| % 2 == 0 && AllHex(tail) && EndsWith(tail, Hex(magic))
    && WellFormedBody(Unhex(tail[..|tail| - 2 * |magic|]))
  }

  // ----- What the parser accepts -----

  lemma LowerOfHex(s: string)
    requires AllHex(s)
    ensures Lower(s) == s && Bare(s) == s
  {
    if "0x" <= s { assert s[1] == 'x' && IsHex(s[1]); }
  }

  lemma EndsWithExactly(bytes: seq<Byte>, tail: seq<Byte>)
    ensures EndsWith(Hex(bytes), Hex(tail)) <==> |tail| <= |bytes| && bytes[|bytes| - |tail|..] == tail
  {
    if |tail| <= |bytes| {
      var front, back := bytes[..|bytes| - |tail|], bytes[|bytes| - |tail|..];
      assert bytes == front + back;
      HexSplit(front, back);
      assert Hex(bytes)[|Hex(bytes)| - |Hex(tail)|..] == Hex(back);
      if Hex(back) == Hex(tail) { HexInjective(back, tail); }
    }
  }

  /** The text before a tail, for lower-case hexadecimal text. */
  lemma EndsInSuffixOfText(text: string, magic: seq<Byte>, front: string)
    requires AllHex(text) && |text| % 2 == 0 && text == front + Hex(magic)
    ensures AllHex(front) && |front| % 2 == 0
    ensures EndsInSuffix(text, magic) <==> WellFormedBody(Unhex(front))
  {
    LowerOfHex(text);
    assert text[..|text| - 2 * |magic|] == front;
    assert text[|front|..] == Hex(magic);
    assert forall i :: 0 <= i < |front| ==> front[i] == text[i];
  }

  lemma NoTailNoSuffix(text: string, magic: seq<Byte>)
    requires AllHex(text) && !EndsWith(text, Hex(magic))
    ensures !EndsInSuffix(text, magic)
  {
    LowerOfHex(text);
  }

  /** Hexadecimal text ends in a well-formed suffix iff the bytes are a well-formed body and the tail. */
  lemma EndsInSuffixExactly(bytes: seq<Byte>, magic: seq<Byte>)
    ensures EndsInSuffix(Hex(bytes), magic) <==>
            && |magic| <= |bytes| && bytes[|bytes| - |magic|..] == magic
            && WellFormedBody(bytes[..|bytes| - |magic|])
  {
    EndsWithExactly(bytes, magic);
    if |magic| <= |bytes| && bytes[|bytes| - |magic|..] == magic {
      var body := bytes[..|bytes| - |magic|];
      assert bytes == body + magic;
      HexSplit(body, magic);
      EndsInSuffixOfText(Hex(bytes), magic, Hex(body));
      UnhexHex(body);
    } else {
      NoTailNoSuffix(Hex(bytes), magic);
    }
  }

  /** On the hexadecimal text of some bytes the parser accepts iff they are a well-formed body and the tail. */
  lemma AcceptsExactly(bytes: seq<Byte>)
    ensures HasAttributionSuffix(Hex(bytes)) <==> exists body :: bytes == body + MAGIC && WellFormedBody(body)
  {
    EndsInSuffixExactly(bytes, MAGIC);
    SplitsAt(bytes, MAGIC);
  }

  lemma SplitsAt(bytes: seq<Byte>, magic: seq<Byte>)
    ensures (exists body :: bytes == body + magic && WellFormedBody(body)) <==>
            && |magic| <= |bytes| && bytes[|bytes| - |magic|..] == magic
            && WellFormedBody(bytes[..|bytes| - |magic|])
  {
    if |magic| <= |bytes| && bytes[|bytes| - |magic|..] == magic {
      assert bytes == bytes[..|bytes| - |magic|] + magic;
    }
    forall body | bytes == body + magic
      ensures |magic| <= |bytes| && bytes[|bytes| - |magic|..] == magic && body == bytes[..|bytes| - |magic|]
    {
    }
  }

  /** A configured suffix is accepted; with anything before it, a second suffix included, it is not. */
  lemma EncodedAcceptedAlone(code: string, before: seq<Byte>)
    requires ValidCode(code)
    ensures HasAttributionSuffix(Hex(before + EncodeDataSuffix(code))) <==> before == []
  {
    var body := before + Ascii(code) + [|code|, 0];
    var bytes := before + EncodeDataSuffix(code);
    assert bytes == body + MAGIC;
    EndsInSuffixExactly(bytes, MAGIC);
    assert bytes[..|bytes| - |MAGIC|] == body && bytes[|bytes| - |MAGIC|..] == MAGIC;
  }

  /** A schema 0 body is exactly one nonempty code, its length and the schema byte. */
  lemma SchemaZeroIsOneCode(body: seq<Byte>)
    ensures WellFormedBody(body) && body[|body| - 1] == 0 <==>
            exists code: seq<Byte> :: 0 < |code| < 256 && body == code + [|code|, 0]
  {
    if WellFormedBody(body) && body[|body| - 1] == 0 {
      var code := body[..|body| - 2];
      assert body == code + [|code|, 0];
    }
  }

  // ----- Appending -----

  /** Off Base, or without a suffix, nothing changes; on Base the calldata stays in front, the suffix ends
      it, and appending again adds nothing. */
  lemma AppendLaws(data: string, chainId: int, suffix: Option<seq<Byte>>)
    ensures var once := AppendSuffix(data, chainId, suffix);
            && (chainId !in BASE_CHAIN_IDS || suffix.None? || suffix.value == [] ==> once == data)
            && Bare(data) <= Bare(once)
            && (chainId in BASE_CHAIN_IDS && suffix.Some? ==> EndsWith(Lower(Bare(once)), Hex(suffix.value)))
            && AppendSuffix(once, chainId, suffix) == once
  {
    if suffix.Some? && suffix.value != [] && chainId in BASE_CHAIN_IDS {
      var hex := Hex(suffix.value);
      var once := AppendSuffix(data, chainId, suffix);
      if EndsWith(Lower(Bare(data)), hex) {
        PrefixedBare(Bare(data));
        assert Bare(once) == Bare(data);
      } else {
        PrefixedBare(Bare(data) + hex);
        assert once == "0x" + (Bare(data) + hex);
        assert Bare(once) == Bare(data) + hex;
        LowerConcat(Bare(data), hex);
      }
    }
  }

  lemma PrefixedBare(s: string)
    ensures Bare("0x" + s) == s
  {
    assert ("0x" + s)[2..] == s;
  }

  lemma LowerConcat(s: string, hex: string)
    requires AllHex(hex)
    ensures EndsWith(Lower(s + hex), hex)
  {
    LowerOfHex(hex);
    assert Lower(s + hex)[|s|..] == Lower(hex);
  }

  /** A configured suffix appended to whole calldata bytes is recognised after them. */
  lemma AppendedIsRecognised(calldata: seq<Byte>, chainId: int, code: string)
    requires ValidCode(code) && chainId in BASE_CHAIN_IDS
    ensures var suffix := EncodeDataSuffix(code);
            var sent := AppendSuffix("0x" + Hex(calldata), chainId, Some(suffix));
            !EndsWith(Hex(calldata), Hex(suffix)) ==>
              sent == "0x" + Hex(calldata + suffix) && HasAttributionSuffix(sent[2 + 2 * |calldata|..])
  {
    var suffix := EncodeDataSuffix(code);
    EncodedAcceptedAlone(code, []);
    assert [] + suffix == suffix;
    PrefixedBare(Hex(calldata));
    LowerOfHex(Hex(calldata));
    AppendedText(Hex(calldata), Hex(suffix));
    HexSplit(calldata, suffix);
  }

  lemma AppendedText(data: string, hex: string)
    ensures "0x" + data + hex == "0x" + (data + hex)
    ensures ("0x" + data + hex)[2 + |data|..] == hex
  {
  }
}
