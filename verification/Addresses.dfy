/** The addresses a deriver prints (btpay/bitcoin/xpub.py) and the address validator
    (btpay/security/validators.py). SHA-256 and HASH160 (20-byte results) are parameters. */
module Addresses {
  import opened Arithmetic
  import opened Wrappers
  import opened Base58
  import Bech32
  import ConvertBits
  import PackedRegister
  import Strings

  // ---- Lengths and leading digits -------------------------------------------

  function Pow(b: nat, n: nat): nat {
    if n == 0 then 1 else b * Pow(b, n - 1)
  }

  lemma {:induction false} PowPositive(b: nat, n: nat)
    requires b > 0
    ensures Pow(b, n) > 0
  {
    if n > 0 {
      PowPositive(b, n - 1);
      MulMono(b, 1, Pow(b, n - 1));
    }
  }

  lemma {:induction false} NumberBounds(d: seq<nat>, base: nat)
    requires base > 1 && Digits(d, base) && d != []
    ensures d[0] * Pow(base, |d| - 1) <= Number(d, base) < (d[0] + 1) * Pow(base, |d| - 1)
  {
    var k := |d| - 1;
    if k == 0 {
      assert d[..0] == [];
    } else {
      NumberBounds(d[..k], base);
      ScaleBounds(d[0], Pow(base, k - 1), Number(d[..k], base), d[k], base);
    }
  }

  lemma ScaleBounds(a: nat, p: nat, n: nat, r: nat, base: nat)
    requires a * p <= n < (a + 1) * p && r < base
    ensures a * (base * p) <= n * base + r < (a + 1) * (base * p)
  {
    MulMono(base, a * p, n);
    MulMono(base, n + 1, (a + 1) * p);
    assert a * (base * p) == base * (a * p) && (a + 1) * (base * p) == base * ((a + 1) * p);
  }

  /** A number between d and d + 1 times base^k has k + 1 digits, the first of them d. */
  lemma {:induction false} LeadingDigit(n: nat, base: nat, d: nat, k: nat)
    requires base > 1 && 0 < d < base && d * Pow(base, k) <= n < (d + 1) * Pow(base, k)
    ensures |Minimal(n, base)| == k + 1 && Minimal(n, base)[0] == d
  {
    PowPositive(base, k);
    MulMono(Pow(base, k), 1, d);
    Shrinks(n, base);
    if k == 0 {
      assert n == d;
      DivUnique(n, base, 0, n);
    } else {
      UnscaleBounds(d, Pow(base, k - 1), n, base);
      LeadingDigit(n / base, base, d, k - 1);
    }
  }

  lemma UnscaleBounds(a: nat, p: nat, n: nat, base: nat)
    requires base > 1 && a * (base * p) <= n < (a + 1) * (base * p)
    ensures 0 <= n / base && a * p <= n / base < (a + 1) * p
  {
    DivMod(n, base);
    var q, r := n / base, n % base;
    assert a * (base * p) == base * (a * p) && (a + 1) * (base * p) == base * ((a + 1) * p);
    if q < a * p {
      MulMono(base, q + 1, a * p);
    }
    if q >= (a + 1) * p {
      MulMono(base, (a + 1) * p, q);
    }
  }

  lemma Associates(a: nat, b: nat, c: nat)
    ensures a * (b * c) == a * b * c
  {
  }

  lemma {:induction false} PowAdd(b: nat, m: nat, n: nat)
    ensures Pow(b, m + n) == Pow(b, m) * Pow(b, n)
  {
    if m > 0 {
      PowAdd(b, m - 1, n);
      Associates(b, Pow(b, m - 1), Pow(b, n));
    }
  }

  lemma PowersOf58()
    ensures Pow(58, 33) == 15599970876632771988160814054146447252125923204784443097088
    ensures Pow(58, 34) == 904798310844700775313327215140493940623303545877497699631104
  {
    assert Pow(58, 11) == 24986644000165537792;
    PowAdd(58, 11, 11);
    PowAdd(58, 22, 11);
    assert Pow(58, 34) == 58 * Pow(58, 33);
  }

  lemma PowersOf256()
    ensures Pow(256, 24) == 6277101735386680763835789423207666416102355444464034512896
  {
    assert Pow(256, 8) == 18446744073709551616;
    PowAdd(256, 8, 8);
    PowAdd(256, 16, 8);
  }

  /** How 25-byte numbers with the program's version bytes compare to powers of 58. */
  lemma Constants()
    ensures Pow(256, 24) <= Pow(58, 33)
    ensures 2 * Pow(58, 33) <= 5 * Pow(256, 24) && 6 * Pow(256, 24) <= 3 * Pow(58, 33)
    ensures 44 * Pow(58, 33) <= 111 * Pow(256, 24) && 112 * Pow(256, 24) <= 46 * Pow(58, 33)
    ensures Pow(58, 34) <= 196 * Pow(256, 24) && 197 * Pow(256, 24) <= 2 * Pow(58, 34)
  {
    hide Pow;
    PowersOf58();
    PowersOf256();
  }

  lemma {:induction false} LengthBound(n: nat, base: nat, k: nat)
    requires base > 1
    ensures |Minimal(n, base)| <= k <==> n < Pow(base, k)
  {
    PowPositive(base, k);
    if n > 0 && k > 0 {
      Shrinks(n, base);
      LengthBound(n / base, base, k - 1);
      QuotientBelow(n, base, Pow(base, k - 1));
    }
  }

  lemma QuotientBelow(n: nat, base: nat, p: nat)
    requires base > 0
    ensures n / base < p <==> n < base * p
  {
    DivMod(n, base);
    if n / base < p {
      MulMono(base, n / base + 1, p);
    } else {
      MulMono(base, p, n / base);
    }
  }

  /** 256^k fits in k + 9 base-58 digits, for k up to 24. */
  lemma {:induction false} ByteRoom(k: nat)
    requires k <= 24
    ensures Pow(256, k) <= Pow(58, k + 9)
    decreases 24 - k
  {
    if k == 24 {
      Constants();
    } else {
      ByteRoom(k + 1);
      assert 256 * Pow(256, k) <= 58 * Pow(58, k + 9);
    }
  }

  lemma {:induction false} PowMono(a: nat, b: nat, k: nat)
    requires a <= b
    ensures Pow(a, k) <= Pow(b, k)
  {
    if k > 0 {
      PowMono(a, b, k - 1);
      MulMono(a, Pow(a, k - 1), Pow(b, k - 1));
      MulMono(Pow(b, k - 1), a, b);
    }
  }

  /** Any 25 bytes that start with a zero encode to 25 to 34 characters. */
  lemma ZeroVersionLength(data: seq<nat>)
    requires Digits(data, 256) && |data| == 25 && data[0] == 0
    ensures 25 <= |EncodedDigits(data)| <= 34 && EncodedDigits(data)[0] == 0
  {
    hide Number, Minimal, Pow;
    var z, n := LeadingZeros(data), Number(data, 256);
    Canonical(data, 256);
    LengthBound(n, 256, 25 - z);
    ByteRoom(25 - z);
    LengthBound(n, 58, 34 - z);
    if z < 25 {
      LengthBound(n, 256, 24 - z);
      PowMono(58, 256, 24 - z);
      LengthBound(n, 58, 24 - z);
    }
  }

  /** Where the number behind 25 bytes lies, by its version byte. */
  lemma VersionBounds(data: seq<nat>)
    requires Digits(data, 256) && |data| == 25
    ensures data[0] * Pow(256, 24) <= Number(data, 256) < (data[0] + 1) * Pow(256, 24)
  {
    NumberBounds(data, 256);
  }

  /** Version 5 gives 34 characters, the first of digit 2; version 111 gives 34, the first
      of digit 44 or 45; version 196 gives 35, the first of digit 1. */
  lemma VersionShape(data: seq<nat>)
    requires Digits(data, 256) && |data| == 25
    ensures data[0] == 5 ==> |EncodedDigits(data)| == 34 && EncodedDigits(data)[0] == 2
    ensures data[0] == 111 ==> |EncodedDigits(data)| == 34 && EncodedDigits(data)[0] in {44, 45}
    ensures data[0] == 196 ==> |EncodedDigits(data)| == 35 && EncodedDigits(data)[0] == 1
  {
    hide Number, Minimal, Pow, LeadingZeros;
    var n := Number(data, 256);
    VersionBounds(data);
    Constants();
    if data[0] > 0 {
      assert LeadingZeros(data) == 0;
      assert EncodedDigits(data) == Minimal(n, 58);
    }
    if data[0] == 5 {
      LeadingDigit(n, 58, 2, 33);
    } else if data[0] == 111 {
      if n < 45 * Pow(58, 33) {
        LeadingDigit(n, 58, 44, 33);
      } else {
        LeadingDigit(n, 58, 45, 33);
      }
    } else if data[0] == 196 {
      LeadingDigit(n, 58, 1, 34);
    }
  }

  // ---- The printers ---------------------------------------------------------

  datatype Network = Mainnet | Testnet

  datatype Kind = P2PKH | P2SHWrapped | P2WPKH

  function PubkeyHashVersion(network: Network): nat {
    if network == Mainnet then 0x00 else 0x6f
  }

  function ScriptHashVersion(network: Network): nat {
    if network == Mainnet then 0x05 else 0xc4
  }

  function Hrp(network: Network): string {
    if network == Mainnet then "bc" else "tb"
  }

  /** What the payload of a Base58 address is: the hash of the key, or of the script that
      pays to the hash of the key. */
  function Committed(hash160: Hash, kind: Kind, pubkey: seq<nat>): (h: seq<nat>)
    ensures |h| == 20 && Digits(h, 256)
  {
    if kind == P2SHWrapped then Digest(hash160, 20, [0x00, 0x14] + Digest(hash160, 20, pubkey))
    else Digest(hash160, 20, pubkey)
  }

  function Payload(hash160: Hash, kind: Kind, pubkey: seq<nat>, network: Network): (p: seq<nat>)
    ensures |p| == 21 && Digits(p, 256)
  {
    [if kind == P2SHWrapped then ScriptHashVersion(network) else PubkeyHashVersion(network)]
    + Committed(hash160, kind, pubkey)
  }

  /** A Base58 address commits to the hash of the key, or to the hash of the version 0 witness
      program that holds it, behind the version byte of its kind and network. */
  lemma PayloadExactly(hash160: Hash, pubkey: seq<nat>)
    requires var h := hash160(pubkey); |h| == 20 && Digits(h, 256)
    requires var h := hash160([0x00, 0x14] + hash160(pubkey)); |h| == 20 && Digits(h, 256)
    ensures Payload(hash160, P2PKH, pubkey, Mainnet) == [0x00] + hash160(pubkey)
    ensures Payload(hash160, P2PKH, pubkey, Testnet) == [0x6f] + hash160(pubkey)
    ensures Payload(hash160, P2SHWrapped, pubkey, Mainnet) == [0x05] + hash160([0x00, 0x14] + hash160(pubkey))
    ensures Payload(hash160, P2SHWrapped, pubkey, Testnet) == [0xc4] + hash160([0x00, 0x14] + hash160(pubkey))
  {
    SameDigest(hash160, 20, pubkey);
    SameDigest(hash160, 20, [0x00, 0x14] + hash160(pubkey));
    hide Digest;
  }

  /** The address string of a key. */
  ghost function Printed(sha: Hash, hash160: Hash, kind: Kind, pubkey: seq<nat>, network: Network): string {
    if kind == P2WPKH then Bech32.Encoded(Hrp(network), 0, Digest(hash160, 20, pubkey))
    else CheckEncoded(sha, Payload(hash160, kind, pubkey, network))
  }

  method PrintSegwit(hash160: Hash, pubkey: seq<nat>, network: Network) returns (s: string)
    ensures s == Bech32.Encoded(Hrp(network), 0, Digest(hash160, 20, pubkey))
  {
    hide *;
    ByteHash(hash160, pubkey);
    HrpAscii(network);
    s := Bech32.Encode(Hrp(network), 0, Digest(hash160, 20, pubkey));
  }

  method Print(sha: Hash, hash160: Hash, kind: Kind, pubkey: seq<nat>, network: Network) returns (s: string)
    ensures s == Printed(sha, hash160, kind, pubkey, network)
  {
    hide *;
    if kind == P2WPKH {
      PrintedSegwit(sha, hash160, pubkey, network);
      s := PrintSegwit(hash160, pubkey, network);
    } else {
      PrintedBase58(sha, hash160, kind, pubkey, network);
      s := CheckEncode(sha, Payload(hash160, kind, pubkey, network));
    }
  }

  lemma PrintedBase58(sha: Hash, hash160: Hash, kind: Kind, pubkey: seq<nat>, network: Network)
    requires kind != P2WPKH
    ensures Printed(sha, hash160, kind, pubkey, network)
         == CheckEncoded(sha, Payload(hash160, kind, pubkey, network))
  {
    hide Payload, CheckEncoded, Bech32.Encoded;
  }

  lemma PrintedSegwit(sha: Hash, hash160: Hash, pubkey: seq<nat>, network: Network)
    ensures Printed(sha, hash160, P2WPKH, pubkey, network)
         == Bech32.Encoded(Hrp(network), 0, Digest(hash160, 20, pubkey))
  {
    hide Payload, CheckEncoded, Bech32.Encoded;
  }

  lemma HrpAscii(network: Network)
    ensures Bech32.Ascii(Hrp(network))
  {
  }

  lemma ByteHash(hash160: Hash, pubkey: seq<nat>)
    ensures ConvertBits.Fits(Digest(hash160, 20, pubkey), 8)
  {
    assert Digits(Digest(hash160, 20, pubkey), 256);
  }

  // ---- The validator --------------------------------------------------------

  function LowerChar(c: char): char {
    if 'A' <= c <= 'Z' then (c as int + 32) as char else c
  }

  function Lower(s: string): (r: string)
    ensures |r| == |s|
  {
    seq(|s|, i requires 0 <= i < |s| => LowerChar(s[i]))
  }

  predicate Bech32Prefixed(lower: string, testnet: bool) {
    "bc1" <= lower || (testnet && "tb1" <= lower)
  }

  /** `validate_btc_address`: the stripped address, or an error. */
  function Validate(sha: Hash, addr: string, testnet: bool): Result<string> {
    var a := Strings.Strip(addr);
    var lower := Lower(a);
    if Bech32Prefixed(lower, testnet) then
      if |lower| < 14 || |lower| > 74 then Error
      else if forall i :: 3 <= i < |lower| ==> lower[i] in Bech32.CHARSET then Ok(a)
      else Error
    else if a == "" then Error
    else if a[0] in {'1', '3'} || (testnet && a[0] in {'m', 'n', '2'}) then
      if !(25 <= |a| <= 34) then Error
      else if AddressDecoded(sha, a).Ok? then Ok(a)
      else Error
    else Error
  }

  /** A character of the Bech32 set in either case: a digit or letter other than 1, b, i, o. */
  predicate Bech32Char(c: char) {
    || ('0' <= c <= '9' && c != '1')
    || ('a' <= c <= 'z' && c !in {'b', 'i', 'o'})
    || ('A' <= c <= 'Z' && c !in {'B', 'I', 'O'})
  }

  /** What the validator takes for a segwit address: the part in either case, mixed too, the
      length, and the characters. */
  predicate LooksSegwit(a: string, testnet: bool) {
    && 14 <= |a| <= 74
    && ((a[0] in {'b', 'B'} && a[1] in {'c', 'C'}) || (testnet && a[0] in {'t', 'T'} && a[1] in {'b', 'B'}))
    && a[2] == '1'
    && forall i :: 3 <= i < |a| ==> Bech32Char(a[i])
  }

  /** And for a Base58 one: the first character, the length, and a payload whose checksum ends
      the number the characters spell, in at least 25 bytes. */
  ghost predicate LooksBase58(sha: Hash, a: string, testnet: bool) {
    && 25 <= |a| <= 34 && (a[0] in {'1', '3'} || (testnet && a[0] in {'m', 'n', '2'}))
    && InAlphabet(a) && exists payload :: RawAddress(DigitsOf(a)) == WithChecksum(sha, payload)
  }

  /** The validator answers with the stripped address if it looks like one of the two, and
      raises otherwise. */
  lemma ValidateExactly(sha: Hash, addr: string, testnet: bool, r: string)
    ensures Validate(sha, addr, testnet) == Ok(r) <==>
      r == Strings.Strip(addr) && (LooksSegwit(r, testnet) || LooksBase58(sha, r, testnet))
  {
    var a := Strings.Strip(addr);
    hide Strings.Strip, AddressDecoded, LooksBase58, Bech32.CHARSET;
    PartInEitherCase(a, testnet);
    if Bech32Prefixed(Lower(a), testnet) {
      assert !LooksBase58(sha, a, testnet) by {
        BitcoinPart(sha, a, testnet);
      }
      forall i | 3 <= i < |a|
        ensures Lower(a)[i] in Bech32.CHARSET <==> Bech32Char(a[i])
      {
        EitherCase(a[i]);
      }
      hide Bech32Char;
    } else {
      Base58Exactly(sha, a, testnet);
    }
  }

  lemma EitherCase(c: char)
    ensures LowerChar(c) in Bech32.CHARSET <==> Bech32Char(c)
  {
    var x := LowerChar(c);
    InCharset(x);
    hide Bech32.CHARSET;
    assert Bech32.CharsetPosition(x) >= 0 <==> Bech32Char(c);
  }

  lemma InCharset(x: char)
    ensures x in Bech32.CHARSET <==> Bech32.CharsetPosition(x) >= 0
  {
    if x in Bech32.CHARSET {
      var i :| 0 <= i < |Bech32.CHARSET| && Bech32.CHARSET[i] == x;
      Bech32.PositionOf(i);
    } else {
      hide Bech32.CHARSET;
      if Bech32.CharsetPosition(x) >= 0 {
        PositionHolds(x);
      }
    }
  }

  lemma PositionHolds(x: char)
    requires Bech32.CharsetPosition(x) >= 0
    ensures Bech32.CharsetPosition(x) < |Bech32.CHARSET| && Bech32.CHARSET[Bech32.CharsetPosition(x)] == x
  {
  }

  lemma PartInEitherCase(a: string, testnet: bool)
    ensures Bech32Prefixed(Lower(a), testnet) <==>
      |a| >= 3 && a[2] == '1'
      && ((a[0] in {'b', 'B'} && a[1] in {'c', 'C'}) || (testnet && a[0] in {'t', 'T'} && a[1] in {'b', 'B'}))
  {
    var lower := Lower(a);
    StartsWithThree(lower, 'b', 'c', '1');
    StartsWithThree(lower, 't', 'b', '1');
    assert "bc1" == ['b', 'c', '1'] && "tb1" == ['t', 'b', '1'];
  }

  lemma StartsWithThree(s: string, x: char, y: char, z: char)
    ensures [x, y, z] <= s <==> |s| >= 3 && s[0] == x && s[1] == y && s[2] == z
  {
  }

  lemma BitcoinPart(sha: Hash, a: string, testnet: bool)
    requires Bech32Prefixed(Lower(a), testnet)
    ensures !LooksBase58(sha, a, testnet)
  {
    PartInEitherCase(a, testnet);
  }

  lemma Base58Exactly(sha: Hash, a: string, testnet: bool)
    ensures LooksBase58(sha, a, testnet) <==>
      && a != "" && (a[0] in {'1', '3'} || (testnet && a[0] in {'m', 'n', '2'}))
      && 25 <= |a| <= 34 && AddressDecoded(sha, a).Ok?
  {
    if InAlphabet(a) {
      var raw := RawAddress(DigitsOf(a));
      hide RawAddress, DigitsOf, WithChecksum, InAlphabet;
      forall payload
        ensures Checked(sha, raw) == Ok(payload) <==> raw == WithChecksum(sha, payload)
      {
        CheckedExactly(sha, raw, payload);
      }
      hide Checked;
    }
  }

  lemma AlphabetChars(d: nat)
    requires d < 58
    ensures !Strings.IsSpace(DigitChar(d))
    ensures d == 0 ==> DigitChar(d) == '1'
    ensures d == 1 ==> DigitChar(d) == '2'
    ensures d == 2 ==> DigitChar(d) == '3'
    ensures d == 44 ==> DigitChar(d) == 'm'
    ensures d == 45 ==> DigitChar(d) == 'n'
  {
    CharDigitOf(d);
  }

  /** What the validator makes of a Base58Check string with a 21-byte payload depends on
      its first character and its length alone. */
  lemma Base58Verdict(sha: Hash, payload: seq<nat>, testnet: bool)
    requires Digits(payload, 256) && |payload| == 21
    ensures var s := CheckEncoded(sha, payload);
      var d := EncodedDigits(WithChecksum(sha, payload));
      && |d| == |s| > 0
      && (d[0] in {0, 2} || (testnet && d[0] in {1, 44, 45}) ==>
            Validate(sha, s, testnet) == if 25 <= |s| <= 34 then Ok(s) else Error)
      && (!testnet && d[0] in {1, 44, 45} ==> Validate(sha, s, testnet) == Error)
  {
    hide CharDigit, Minimal, Number, LeadingZeros, DigitChar, Strings.Strip;
    var data := WithChecksum(sha, payload);
    var s, d := CheckEncoded(sha, payload), EncodedDigits(data);
    WithChecksumFits(sha, payload);
    DigitsOfEncoded(data);
    EncodedNumber(data);
    NonEmpty(data);
    AddressRoundTrip(sha, payload);
    AlphabetChars(d[0]);
    AlphabetChars(d[|d| - 1]);
    EncodedDigitsFit(data);
    assert s[0] == DigitChar(d[0]) && s[|s| - 1] == DigitChar(d[|d| - 1]);
    Strings.StripIdentity(s);
    if d[0] in {0, 1, 2, 44, 45} {
      assert s[0] in {'1', '2', '3', 'm', 'n'};
      assert Lower(s)[0] == s[0];
      assert "bc1"[0] == 'b' && "tb1"[0] == 't';
      assert !Bech32Prefixed(Lower(s), testnet);
    }
  }

  lemma NonEmpty(data: seq<nat>)
    requires data != [] && Digits(data, 256)
    ensures EncodedDigits(data) != [] && Digits(EncodedDigits(data), 58)
  {
    EncodedDigitsFit(data);
    Canonical(data, 256);
    MinimalSpells(Number(data, 256), 58);
  }

  /** A printed Bech32 address has 42 characters: prefix, separator, and 39 symbols. */
  lemma SegwitShape(hash160: Hash, pubkey: seq<nat>, network: Network)
    ensures var s := Bech32.Encoded(Hrp(network), 0, Digest(hash160, 20, pubkey));
      && |s| == 42 && s[..3] == Hrp(network) + "1"
      && (forall i :: 3 <= i < 42 ==> s[i] in Bech32.CHARSET)
  {
    ByteHash(hash160, pubkey);
    ConvertBits.EightToFive(Digest(hash160, 20, pubkey));
    var values := Bech32.AddressValues(Hrp(network), 0, Digest(hash160, 20, pubkey));
    var s := Bech32.Encoded(Hrp(network), 0, Digest(hash160, 20, pubkey));
    EncodedAs(hash160, pubkey, network);
    hide *;
    forall i | 3 <= i < 42
      ensures s[i] in Bech32.CHARSET
    {
      SymbolInCharset(values, i - 3);
    }
  }

  lemma EncodedAs(hash160: Hash, pubkey: seq<nat>, network: Network)
    ensures |Hrp(network)| == 2
    ensures Bech32.Encoded(Hrp(network), 0, Digest(hash160, 20, pubkey))
         == Hrp(network) + "1" + Bech32.Chars(Bech32.AddressValues(Hrp(network), 0, Digest(hash160, 20, pubkey)))
  {
    hide Bech32.AddressValues, Bech32.Chars;
  }

  lemma SymbolInCharset(values: seq<nat>, i: nat)
    requires PackedRegister.Quintets(values) && i < |values|
    ensures Bech32.Chars(values)[i] in Bech32.CHARSET
  {
    Bech32.CharAt(values, i);
  }

  lemma CharsetIsLower(c: char)
    requires c in Bech32.CHARSET
    ensures LowerChar(c) == c && !Strings.IsSpace(c)
  {
    var i :| 0 <= i < |Bech32.CHARSET| && Bech32.CHARSET[i] == c;
    Bech32.PositionOf(i);
  }

  lemma SegwitVerdict(sha: Hash, s: string, network: Network, testnet: bool)
    requires |s| == 42 && s[..3] == Hrp(network) + "1"
    requires forall i :: 3 <= i < 42 ==> s[i] in Bech32.CHARSET
    ensures Validate(sha, s, testnet) == if network == Mainnet || testnet then Ok(s) else Error
  {
    hide Strings.Strip, AddressDecoded, Bech32.CHARSET;
    var p := s[..3];
    assert p == if network == Mainnet then "bc1" else "tb1";
    assert s[0] == p[0] && s[1] == p[1] && s[2] == p[2];
    CharsetIsLower(s[41]);
    Strings.StripIdentity(s);
    forall i | 0 <= i < 42
      ensures Lower(s)[i] == s[i]
    {
      if i >= 3 {
        CharsetIsLower(s[i]);
      }
    }
    assert Lower(s) == s;
  }

  lemma PayloadVersion(hash160: Hash, kind: Kind, pubkey: seq<nat>, network: Network)
    requires kind != P2WPKH
    ensures var version := Payload(hash160, kind, pubkey, network)[0];
      && version in {0x00, 0x05, 0x6f, 0xc4}
      && (version in {0x00, 0x05} <==> network == Mainnet)
      && (version == 0x6f <==> network == Testnet && kind == P2PKH)
  {
  }

  lemma PrintedSegwitIsValid(sha: Hash, hash160: Hash, pubkey: seq<nat>, network: Network, testnet: bool)
    ensures var s := Printed(sha, hash160, P2WPKH, pubkey, network);
      Validate(sha, s, testnet) == if network == Mainnet || testnet then Ok(s) else Error
  {
    hide *;
    PrintedSegwit(sha, hash160, pubkey, network);
    SegwitShape(hash160, pubkey, network);
    SegwitVerdict(sha, Bech32.Encoded(Hrp(network), 0, Digest(hash160, 20, pubkey)), network, testnet);
  }

  /** The validator accepts what the deriver prints, with exactly one exception: testnet
      strings need the testnet flag, and testnet script-hash addresses are never
      accepted, because they have 35 characters. */
  lemma PrintedIsValid(sha: Hash, hash160: Hash, kind: Kind, pubkey: seq<nat>, network: Network, testnet: bool)
    ensures var s := Printed(sha, hash160, kind, pubkey, network);
      Validate(sha, s, testnet)
      == if network == Mainnet || (testnet && kind != P2SHWrapped) then Ok(s) else Error
  {
    hide *;
    if kind == P2WPKH {
      PrintedSegwitIsValid(sha, hash160, pubkey, network, testnet);
    } else {
      PrintedBase58(sha, hash160, kind, pubkey, network);
      PayloadVersion(hash160, kind, pubkey, network);
      VersionedVerdict(sha, Payload(hash160, kind, pubkey, network), testnet);
    }
  }

  lemma VersionedVerdict(sha: Hash, payload: seq<nat>, testnet: bool)
    requires |payload| == 21 && Digits(payload, 256) && payload[0] in {0x00, 0x05, 0x6f, 0xc4}
    ensures var s := CheckEncoded(sha, payload);
      Validate(sha, s, testnet)
      == if payload[0] in {0x00, 0x05} || (testnet && payload[0] == 0x6f) then Ok(s) else Error
  {
    var data := WithChecksum(sha, payload);
    WithChecksumFits(sha, payload);
    assert data[0] == payload[0];
    hide *;
    Base58Verdict(sha, payload, testnet);
    if payload[0] == 0x00 {
      ZeroVersionLength(data);
    } else {
      VersionShape(data);
    }
  }

  /** Both decoders return the payload of every printed Base58 address except, for the
      first decoder, an all-zero one. */
  lemma DecodersAgree(sha: Hash, hash160: Hash, kind: Kind, pubkey: seq<nat>, network: Network)
    requires kind != P2WPKH
    ensures var s := Printed(sha, hash160, kind, pubkey, network);
      var payload := Payload(hash160, kind, pubkey, network);
      && AddressDecoded(sha, s) == Ok(payload)
      && (CheckDecoded(sha, s) == Ok(payload) <==> !AllZero(WithChecksum(sha, payload)))
  {
    hide *;
    PrintedBase58(sha, hash160, kind, pubkey, network);
    AddressRoundTrip(sha, Payload(hash160, kind, pubkey, network));
    CheckRoundTrip(sha, Payload(hash160, kind, pubkey, network));
  }

  /** The checksum of a segwit address is not looked at: with any of its characters behind the
      part replaced by another of the set, a printed mainnet address is still accepted, and
      yet no decoder reads it as a version 0 address. */
  lemma TypoAccepted(sha: Hash, hash160: Hash, pubkey: seq<nat>, i: nat, v: nat, witprog: seq<nat>)
    requires 3 <= i < 42 && v < 32
    ensures var s := Printed(sha, hash160, P2WPKH, pubkey, Mainnet);
      && |s| == 42
      && (s[i] != Bech32.CHARSET[v] ==>
            var typo := s[i := Bech32.CHARSET[v]];
            Validate(sha, typo, false) == Ok(typo) && !Bech32.DecodesTo(typo, "bc", 0, witprog))
  {
    var program := Digest(hash160, 20, pubkey);
    var s := Bech32.Encoded("bc", 0, program);
    PrintedSegwit(sha, hash160, pubkey, Mainnet);
    SegwitShape(hash160, pubkey, Mainnet);
    if s[i] != Bech32.CHARSET[v] {
      var typo := s[i := Bech32.CHARSET[v]];
      MainnetPart();
      assert typo[..3] == s[..3];
      CharsetIndex(v);
      assert Validate(sha, typo, false) == Ok(typo) by {
        hide Validate, Bech32.Encoded, Bech32.CHARSET;
        SegwitVerdict(sha, typo, Mainnet, false);
      }
      TypoNotDecoded(program, i, v, witprog);
    }
  }

  lemma MainnetPart()
    ensures Hrp(Mainnet) == "bc"
  {
  }

  lemma CharsetIndex(v: nat)
    requires v < 32
    ensures |Bech32.CHARSET| == 32 && Bech32.CHARSET[v] in Bech32.CHARSET
  {
  }

  lemma TypoNotDecoded(program: seq<nat>, i: nat, v: nat, witprog: seq<nat>)
    requires v < 32
    requires var s := Bech32.Encoded("bc", 0, program); 3 <= i < |s| && s[i] != Bech32.CHARSET[v]
    ensures !Bech32.DecodesTo(Bech32.Encoded("bc", 0, program)[i := Bech32.CHARSET[v]], "bc", 0, witprog)
  {
    var values := Bech32.AddressValues("bc", 0, program);
    var wrong := values[i - 3 := v];
    EncodedMainnet(program);
    ReplacedChar(values, i - 3, v);
    WrongFails(program, i - 3, v);
    hide *;
    var typo := Bech32.Encoded("bc", 0, program)[i := Bech32.CHARSET[v]];
    assert typo == "bc" + "1" + Bech32.Chars(wrong);
    Bech32.SeparatorOfAddress("bc", wrong);
    assert |"bc"| == 2;
    NotCarried(typo, wrong, witprog);
  }

  lemma EncodedMainnet(program: seq<nat>)
    ensures Bech32.Encoded("bc", 0, program) == "bc" + "1" + Bech32.Chars(Bech32.AddressValues("bc", 0, program))
  {
    hide Bech32.AddressValues, Bech32.Chars;
  }

  lemma ReplacedChar(values: seq<nat>, k: nat, v: nat)
    requires PackedRegister.Quintets(values) && k < |values| && v < 32
    ensures PackedRegister.Quintets(values[k := v])
    ensures Bech32.Chars(values[k := v]) == Bech32.Chars(values)[k := Bech32.CHARSET[v]]
    ensures Bech32.Chars(values)[k] == Bech32.CHARSET[values[k]]
  {
    hide Bech32.CHARSET;
  }

  /** The changed values fail the test of version 0. */
  lemma WrongFails(program: seq<nat>, k: nat, v: nat)
    requires v < 32 && k < |Bech32.AddressValues("bc", 0, program)|
    requires Bech32.AddressValues("bc", 0, program)[k] != v
    ensures !Bech32.Verifies("bc", Bech32.AddressValues("bc", 0, program)[k := v], Bech32.Spec(0))
  {
    hide *;
    Bech32.AddressVerifies("bc", 0, program);
    Bech32.OneErrorDetected("bc", Bech32.AddressValues("bc", 0, program), k, v, Bech32.Spec(0));
  }

  lemma NotCarried(s: string, values: seq<nat>, witprog: seq<nat>)
    requires PackedRegister.Quintets(values) && s == "bc" + "1" + Bech32.Chars(values)
    requires Strings.LastIndex(s, '1') == 2 && s[3..] == Bech32.Chars(values)
    requires !Bech32.Verifies("bc", values, Bech32.Spec(0))
    ensures !Bech32.DecodesTo(s, "bc", 0, witprog)
  {
    hide Bech32.Verifies, Bech32.Chars, Strings.LastIndex, Bech32.Spec;
    forall vs | Bech32.Spells(vs, s[3..])
      ensures vs == values
    {
      assert Bech32.Spells(values, s[3..]);
      Bech32.SpellsUnique(vs, values, s[3..]);
    }
  }
}
