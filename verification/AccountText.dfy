/** The text form of accounts: a prefix, and 300 bits in base 32 that hold the account number and a checksum. */
module AccountText {
  import opened Wrappers
  import opened KeySpace

  const CHECKS: nat := 0x100_0000_0000 // 2^40
  const U512: nat := 0x1_0000000000000000_0000000000000000_0000000000000000_0000000000000000_0000000000000000_0000000000000000_0000000000000000_0000000000000000 // 2^512

  type Checksum = c: nat | c < CHECKS

  type Digit = d: nat | d < 32

  /** The lookup table of the encoder. */
  function EncodeDigit(d: Digit): char {
    match d as int
    case 0 => '1' case 1 => '3' case 2 => '4' case 3 => '5' case 4 => '6' case 5 => '7' case 6 => '8' case 7 => '9'
    case 8 => 'a' case 9 => 'b' case 10 => 'c' case 11 => 'd' case 12 => 'e' case 13 => 'f' case 14 => 'g'
    case 15 => 'h' case 16 => 'i' case 17 => 'j' case 18 => 'k' case 19 => 'm' case 20 => 'n' case 21 => 'o'
    case 22 => 'p' case 23 => 'q' case 24 => 'r' case 25 => 's' case 26 => 't' case 27 => 'u' case 28 => 'w'
    case 29 => 'x' case 30 => 'y' case _ => 'z'
  }

  /** The lookup table of the decoder, whose first entry is for the character 0x30. */
  function Reverse(i: nat): char {
    match i as int
    case 1 => '0' case 3 => '1' case 4 => '2' case 5 => '3' case 6 => '4' case 7 => '5' case 8 => '6' case 9 => '7'
    case 49 => '8' case 50 => '9' case 51 => ':' case 52 => ';' case 53 => '<' case 54 => '=' case 55 => '>'
    case 56 => '?' case 57 => '@' case 58 => 'A' case 59 => 'B' case 61 => 'C' case 62 => 'D' case 63 => 'E'
    case 64 => 'F' case 65 => 'G' case 66 => 'H' case 67 => 'I' case 68 => 'J' case 69 => 'K' case 71 => 'L'
    case 72 => 'M' case 73 => 'N' case 74 => 'O' case _ => '~'
  }

  /** `decode_byte`. */
  function DecodeDigit(c: char): Option<int> {
    if 0x30 <= c as int < 0x80 && Reverse(c as int - 0x30) != '~'
    then Some(Reverse(c as int - 0x30) as int - 0x30)
    else None
  }

  /** The two lookup tables are inverse to each other. */
  lemma TablesInverse(d: Digit)
    ensures DecodeDigit(EncodeDigit(d)) == Some(d)
  {
    match d as int {
      case 0 => case 1 => case 2 => case 3 => case 4 => case 5 => case 6 => case 7 => case 8 => case 9 => case 10 =>
      case 11 => case 12 => case 13 => case 14 => case 15 => case 16 => case 17 => case 18 => case 19 => case 20 =>
      case 21 => case 22 => case 23 => case 24 => case 25 => case 26 => case 27 => case 28 => case 29 => case 30 =>
      case _ =>
    }
  }

  lemma TablesInverseBack(c: char)
    requires DecodeDigit(c).Some?
    ensures 0 <= DecodeDigit(c).value < 32 && EncodeDigit(DecodeDigit(c).value) == c
  {
    match c as int - 0x30 {
      case 1 => case 3 => case 4 => case 5 => case 6 => case 7 => case 8 => case 9 => case 49 => case 50 =>
      case 51 => case 52 => case 53 => case 54 => case 55 => case 56 => case 57 => case 58 => case 59 => case 61 =>
      case 62 => case 63 => case 64 => case 65 => case 66 => case 67 => case 68 => case 69 => case 71 => case 72 =>
      case 73 => case 74 => case _ =>
    }
  }

  // ----- numbers in base 32 --------------------------------------------------------------------------------------------

  /** The `k` low digits of `n`, most significant digit first. */
  function Digits(n: nat, k: nat): (ds: seq<Digit>)
    ensures |ds| == k
  {
    if k == 0 then [] else Digits(n / 32, k - 1) + [n % 32]
  }

  function Value(ds: seq<Digit>): nat {
    if ds == [] then 0 else Value(ds[..|ds| - 1]) * 32 + ds[|ds| - 1]
  }

  function Pow32(k: nat): nat {
    if k == 0 then 1 else 32 * Pow32(k - 1)
  }

  lemma {:induction false} ValueOfDigits(n: nat, k: nat)
    requires n < Pow32(k)
    ensures Value(Digits(n, k)) == n
  {
    if k > 0 {
      ValueOfDigits(n / 32, k - 1);
      assert Digits(n, k)[..k - 1] == Digits(n / 32, k - 1);
    }
  }

  lemma {:induction false} DigitsOfValue(ds: seq<Digit>)
    ensures Digits(Value(ds), |ds|) == ds
    ensures Value(ds) < Pow32(|ds|)
  {
    if ds != [] {
      var k := |ds| - 1;
      DigitsOfValue(ds[..k]);
      assert Value(ds) / 32 == Value(ds[..k]) && Value(ds) % 32 == ds[k];
      assert ds == ds[..k] + [ds[k]];
    }
  }

  /** A number of `k` digits that starts with 0 or 1 lies in the lowest sixteenth of the range, and conversely. */
  lemma {:induction false} SmallFirstDigit(ds: seq<Digit>)
    requires ds != [] && ds[0] <= 1
    ensures Value(ds) < 2 * Pow32(|ds| - 1)
  {
    if |ds| > 1 {
      SmallFirstDigit(ds[..|ds| - 1]);
    } else {
      assert ds[..0] == [];
    }
  }

  lemma {:induction false} SmallNumber(n: nat, k: nat)
    requires k > 0 && n < 2 * Pow32(k - 1)
    ensures Digits(n, k)[0] <= 1
  {
    if k > 1 {
      SmallNumber(n / 32, k - 1);
    }
  }

  /** The 300 bits of 60 digits hold the 256 bits of an account and the 40 bits of its checksum, with four bits to spare. */
  lemma PowValues()
    ensures 2 * Pow32(59) == KEYS * CHECKS && Pow32(60) * 32 <= U512
  {
    assert Pow32(10) == 0x4_0000_0000_0000;
    Pow32Add10(10);
    Pow32Add10(20);
    Pow32Add10(30);
    Pow32Add10(40);
    Pow32Add10(50);
  }

  lemma Pow32Add10(k: nat)
    ensures Pow32(k + 10) == 0x4_0000_0000_0000 * Pow32(k)
  {
    assert Pow32(k + 5) == 0x200_0000 * Pow32(k) by {
      assert Pow32(k + 2) == 0x400 * Pow32(k);
      assert Pow32(k + 4) == 0x400 * Pow32(k + 2);
    }
    assert Pow32(k + 10) == 0x200_0000 * Pow32(k + 5) by {
      assert Pow32(k + 7) == 0x400 * Pow32(k + 5);
      assert Pow32(k + 9) == 0x400 * Pow32(k + 7);
    }
  }

  // ----- encoding ------------------------------------------------------------------------------------------------------

  function Text(ds: seq<Digit>): (text: string)
    ensures |text| == |ds|
  {
    seq(|ds|, i requires 0 <= i < |ds| => EncodeDigit(ds[i]))
  }

  /** The account number, followed by the 40 bits of its checksum. */
  function Number(account: Key, checksum: Key -> Checksum): nat {
    account * CHECKS + checksum(account)
  }

  function Tail(account: Key, checksum: Key -> Checksum): string {
    Text(Digits(Number(account, checksum), 60))
  }

  function Encoded(account: Key, checksum: Key -> Checksum): string {
    "ban_" + Tail(account, checksum)
  }

  function Reversed(text: string): (r: string)
    ensures |r| == |text|
  {
    if text == "" then "" else [text[|text| - 1]] + Reversed(text[..|text| - 1])
  }

  lemma LastChar(text: string, more: string)
    requires more != ""
    ensures var whole, k := text + more, |more| - 1;
            whole[|whole| - 1] == more[k] && whole[..|whole| - 1] == text + more[..k]
  {
    assert (text + more)[..|text| + |more| - 1] == text + more[..|more| - 1];
  }

  lemma {:induction false} ReversedPush(text: string, more: string)
    ensures Reversed(text + more) == Reversed(more) + Reversed(text)
  {
    if more == "" {
      assert text + more == text;
    } else {
      var k := |more| - 1;
      ReversedPush(text, more[..k]);
      LastChar(text, more);
      Regroup([more[k]], Reversed(more[..k]), Reversed(text));
    }
  }

  method EncodeAccount(account: Key, checksum: Key -> Checksum) returns (text: string)
    ensures text == Encoded(account, checksum)
  {
    hide EncodeDigit, Text;
    var number: nat := account * CHECKS + checksum(account);
    var result := "";
    var i := 0;
    while i < 60
      invariant i <= 60
      invariant Tail(account, checksum) == Text(Digits(number, 60 - i)) + Reversed(result)
    {
      var r: Digit := number % 32;
      TextPush(Digits(number / 32, 60 - i - 1), r);
      ReversedPush(result, [EncodeDigit(r)]);
      assert Reversed([EncodeDigit(r)]) == [EncodeDigit(r)];
      Regroup(Text(Digits(number / 32, 60 - i - 1)), [EncodeDigit(r)], Reversed(result));
      number := number / 32;
      result := result + [EncodeDigit(r)];
      i := i + 1;
    }
    ReversedPush(result, "_nab");
    assert Reversed("_nab") == "ban_" by {
      assert "_nab"[..3] == "_na" && "_na"[..2] == "_n" && "_n"[..1] == "_" && "_"[..0] == "";
    }
    text := Reversed(result + "_nab");
  }

  // ----- decoding ------------------------------------------------------------------------------------------------------

  datatype DecodeError = InvalidAccountString | InvalidDigits | InvalidChecksum

  predicate StartsWith(text: string, prefix: string) {
    prefix <= text
  }

  predicate HasXrbPrefix(text: string) { StartsWith(text, "xrb_") || StartsWith(text, "xrb-") }
  predicate HasNanoPrefix(text: string) { StartsWith(text, "nano_") || StartsWith(text, "nano-") }
  predicate HasBanPrefix(text: string) { StartsWith(text, "ban_") || StartsWith(text, "ban-") }
  predicate HasNodeIdPrefix(text: string) { StartsWith(text, "node_") }

  /** The length of the text in bytes. */
  function ByteLength(text: string): nat {
    if text == "" then 0
    else
      var c := text[|text| - 1] as int;
      ByteLength(text[..|text| - 1]) + (if c < 0x80 then 1 else if c < 0x800 then 2 else if c < 0x10000 then 3 else 4)
  }

  predicate IsLengthValid(text: string) {
    && (HasXrbPrefix(text) ==> |text| == 64)
    && (HasNanoPrefix(text) ==> |text| == 65)
    && (HasBanPrefix(text) ==> |text| == 64)
  }

  function PrefixLength(text: string): nat {
    if HasXrbPrefix(text) || HasBanPrefix(text) then 4 else 5
  }

  predicate IsFirstDigitValid(text: string) {
    PrefixLength(text) < |text| && text[PrefixLength(text)] in {'1', '3'}
  }

  predicate IsValid(text: string) {
    && ByteLength(text) > 4
    && (HasXrbPrefix(text) || HasNanoPrefix(text) || HasBanPrefix(text) || HasNodeIdPrefix(text))
    && IsLengthValid(text)
    && IsFirstDigitValid(text)
  }

  function AfterPrefix(text: string): string
    requires IsValid(text)
  {
    text[PrefixLength(text)..]
  }

  /** Reads digits into a 512-bit number, which drops what is shifted out at the top. */
  function ReadDigits(chars: string): Option<nat> {
    if chars == "" then Some(0)
    else
      var k := |chars| - 1;
      match ReadDigits(chars[..k])
      case None => None
      case Some(n) =>
        match DecodeDigit(chars[k])
        case None => None
        case Some(d) => if d < 0 then None else Some(n * 32 % U512 + d)
  }

  function ToAccount(number: nat, checksum: Key -> Checksum): Result<Key, DecodeError> {
    var account := number / CHECKS % KEYS;
    if checksum(account) == number % CHECKS then Ok(account) else Err(InvalidChecksum)
  }

  function Decoded(text: string, checksum: Key -> Checksum): Result<Key, DecodeError> {
    if !IsValid(text) then Err(InvalidAccountString)
    else
      match ReadDigits(AfterPrefix(text))
      case None => Err(InvalidDigits)
      case Some(number) => ToAccount(number, checksum)
  }

  method DecodeAccount(text: string, checksum: Key -> Checksum) returns (r: Result<Key, DecodeError>)
    ensures r == Decoded(text, checksum)
  {
    hide IsFirstDigitValid, IsLengthValid, HasXrbPrefix, HasNanoPrefix, HasBanPrefix, HasNodeIdPrefix, DecodeDigit, ToAccount;
    if !IsValid(text) {
      return Err(InvalidAccountString);
    }
    var chars := AfterPrefix(text);
    var number := 0;
    var i := 0;
    while i < |chars|
      invariant i <= |chars| && ReadDigits(chars[..i]) == Some(number)
    {
      assert chars[..i + 1][..i] == chars[..i];
      var digit := DecodeDigit(chars[i]);
      if digit.None? {
        ReadDigitsFails(chars, i + 1);
        return Err(InvalidDigits);
      }
      TablesInverseBack(chars[i]);
      number := number * 32 % U512 + digit.value;
      i := i + 1;
    }
    assert chars[..|chars|] == chars;
    r := ToAccount(number, checksum);
  }

  lemma {:induction false} ReadDigitsFails(chars: string, n: nat)
    requires n <= |chars| && ReadDigits(chars[..n]).None?
    ensures ReadDigits(chars).None?
    decreases |chars|
  {
    if n == |chars| {
      assert chars[..n] == chars;
    } else {
      assert chars[..|chars| - 1][..n] == chars[..n];
      ReadDigitsFails(chars[..|chars| - 1], n);
    }
  }

  // ----- the text form is a bijection ------------------------------------------------------------------------------------

  lemma ValuePush(ds: seq<Digit>, d: Digit)
    ensures Value(ds + [d]) == Value(ds) * 32 + d
  {
    assert (ds + [d])[..|ds|] == ds;
  }

  lemma TextPush(ds: seq<Digit>, d: Digit)
    ensures Text(ds + [d]) == Text(ds) + [EncodeDigit(d)]
  {
  }

  lemma NoDigits()
    ensures Value([]) == 0 && Text([]) == ""
  {
  }

  /** The digits that 60 or fewer accepted characters stand for: encoding them gives the same characters back. */
  lemma {:induction false} ReadsBack(chars: string) returns (ds: seq<Digit>)
    requires |chars| <= 60 && ReadDigits(chars).Some?
    ensures Text(ds) == chars && ReadDigits(chars).value == Value(ds)
  {
    hide DecodeDigit, EncodeDigit, Value, Text;
    if chars == "" {
      ds := [];
      NoDigits();
    } else {
      var k := |chars| - 1;
      var high := ReadsBack(chars[..k]);
      TablesInverseBack(chars[k]);
      var d: Digit := DecodeDigit(chars[k]).value;
      NoWrap(high);
      ValuePush(high, d);
      TextPush(high, d);
      assert chars[..k] + [chars[k]] == chars;
      ds := high + [d];
    }
  }

  /** Sixty digits do not fill 512 bits. */
  lemma NoWrap(ds: seq<Digit>)
    requires |ds| < 60
    ensures Value(ds) * 32 % U512 == Value(ds) * 32
  {
    DigitsOfValue(ds);
    PowMonotone(|ds|, 60);
    PowValues();
  }

  lemma {:induction false} PowMonotone(k: nat, n: nat)
    requires k <= n
    ensures Pow32(k) <= Pow32(n)
  {
    if k < n {
      PowMonotone(k, n - 1);
    }
  }

  lemma {:induction false} ReadsText(ds: seq<Digit>)
    requires |ds| <= 60
    ensures ReadDigits(Text(ds)) == Some(Value(ds))
  {
    if ds != [] {
      var k := |ds| - 1;
      ReadsText(ds[..k]);
      assert Text(ds)[..k] == Text(ds[..k]);
      TablesInverse(ds[k]);
      NoWrap(ds[..k]);
    }
  }

  lemma {:induction false} ByteLengthAtLeast(text: string)
    ensures ByteLength(text) >= |text|
  {
    if text != "" {
      ByteLengthAtLeast(text[..|text| - 1]);
    }
  }

  lemma NumberFits(account: Key, checksum: Key -> Checksum)
    ensures Number(account, checksum) < 2 * Pow32(59) <= Pow32(60)
    ensures ToAccount(Number(account, checksum), checksum) == Ok(account)
  {
    PowValues();
  }

  lemma NumberOfAccepted(number: nat, checksum: Key -> Checksum)
    requires number < KEYS * CHECKS && ToAccount(number, checksum).Ok?
    ensures Number(ToAccount(number, checksum).value, checksum) == number
  {
  }

  /** The tail of an account reads back as its number and starts with a valid digit. */
  lemma TailReads(account: Key, checksum: Key -> Checksum)
    ensures ReadDigits(Tail(account, checksum)) == Some(Number(account, checksum))
    ensures |Tail(account, checksum)| == 60 && Tail(account, checksum)[0] in {'1', '3'}
  {
    hide Pow32, Value, ReadDigits, Number, Digits;
    var n := Number(account, checksum);
    NumberFits(account, checksum);
    ReadsText(Digits(n, 60));
    ValueOfDigits(n, 60);
    SmallNumber(n, 60);
  }

  /** Decoding undoes encoding, for every account and every checksum function. */
  lemma DecodeEncoded(account: Key, checksum: Key -> Checksum)
    ensures Decoded(Encoded(account, checksum), checksum) == Ok(account)
  {
    hide Tail, ReadDigits, Number, ToAccount, IsValid, PrefixLength;
    TailReads(account, checksum);
    NumberFits(account, checksum);
    AccountPrefix(Tail(account, checksum));
  }

  lemma AccountPrefix(tail: string)
    requires |tail| == 60 && tail[0] in {'1', '3'}
    ensures IsValid("ban_" + tail) && AfterPrefix("ban_" + tail) == tail
  {
    var text := "ban_" + tail;
    ByteLengthAtLeast(text);
    assert text[0] == 'b' && text[..4] == "ban_" && text[4..] == tail;
    assert !HasXrbPrefix(text) && !HasNanoPrefix(text) && !HasNodeIdPrefix(text);
  }

  /** An accepted text has the tail that encoding its account produces if and only if that tail has 60 characters, as it
      always has behind the prefixes of accounts. */
  lemma AcceptedTail(text: string, checksum: Key -> Checksum)
    requires Decoded(text, checksum).Ok?
    ensures IsValid(text)
    ensures AfterPrefix(text) == Tail(Decoded(text, checksum).value, checksum) <==> |AfterPrefix(text)| == 60
    ensures HasXrbPrefix(text) || HasNanoPrefix(text) || HasBanPrefix(text) ==> |AfterPrefix(text)| == 60
  {
    hide ReadDigits, Value, Pow32, Digits, Number, ToAccount, ByteLength;
    var tail := AfterPrefix(text);
    if |tail| == 60 {
      var ds := ReadsBack(tail);
      assert tail[0] in {'1', '3'} && tail[0] == EncodeDigit(ds[0]);
      TablesInverse(ds[0]);
      SmallFirstDigit(ds);
      PowValues();
      DigitsOfValue(ds);
      NumberOfAccepted(Value(ds), checksum);
    }
    if HasXrbPrefix(text) || HasBanPrefix(text) {
      assert text[0] in {'x', 'b'};
    }
  }

  /** The prefix of node ids comes without a length check: leading zero digits are accepted and ignored. */
  lemma NodeIdTailAmbiguous(account: Key, checksum: Key -> Checksum)
    ensures Decoded("node_1" + Tail(account, checksum), checksum) == Ok(account)
  {
    hide Tail, Number, ToAccount, ReadDigits, IsValid, PrefixLength;
    var tail := Tail(account, checksum);
    TailReads(account, checksum);
    NumberFits(account, checksum);
    NodeIdPrefix(tail);
    LeadingZero(tail);
  }

  lemma NodeIdPrefix(tail: string)
    ensures IsValid("node_1" + tail) && AfterPrefix("node_1" + tail) == "1" + tail
  {
    var text := "node_1" + tail;
    ByteLengthAtLeast(text);
    assert text[0] == 'n' && text[1] == 'o' && text[5] == '1' && text[..5] == "node_" && text[5..] == "1" + tail;
  }

  lemma ZeroDigit()
    ensures DecodeDigit('1') == Some(0)
  {
  }

  lemma {:induction false} LeadingZero(chars: string)
    ensures ReadDigits("1" + chars) == ReadDigits(chars)
  {
    hide DecodeDigit;
    ZeroDigit();
    if chars == "" {
      assert "1"[..0] == "" && "1" + chars == "1";
    } else {
      var k := |chars| - 1;
      LeadingZero(chars[..k]);
      LastChar("1", chars);
    }
  }
}
