/** `GRDBKeySpecSource.fetchString()`: the SQLCipher passphrase is the raw
    48-byte key material (a 256-bit key followed by a 128-bit salt) written as
    an SQL blob literal `x'<96 hex digits>'`. The keychain read is an input. */
module KeySpec {
  import opened Wrappers
  import opened SdsTypes

  /** 256-bit key + 128-bit salt. */
  const KeySpecLength: nat := 48

  /** What the keychain read (`fetchData()`) threw. */
  datatype KeychainError = KeychainError(description: string)

  predicate IsHexDigit(c: char) {
    '0' <= c <= '9' || 'a' <= c <= 'f'
  }

  /** The digit for a nibble. */
  function HexDigit(nibble: int): (c: char)
    requires 0 <= nibble < 16
    ensures IsHexDigit(c)
  {
    if nibble < 10 then ('0' as int + nibble) as char else ('a' as int + nibble - 10) as char
  }

  function HexDigitValue(c: char): (v: Option<int>)
    ensures v.Some? <==> IsHexDigit(c)
    ensures v.Some? ==> 0 <= v.value < 16 && HexDigit(v.value) == c
    ensures forall n :: 0 <= n < 16 && HexDigit(n) == c ==> v == Some(n)
  {
    if '0' <= c <= '9' then Some(c as int - '0' as int)
    else if 'a' <= c <= 'f' then Some(c as int - 'a' as int + 10)
    else None
  }

  /** Two hex digits per byte, high nibble first. (The case of the digits is
      chosen here; the `hexadecimalString` helper is not part of this model.) */
  function Hex(data: Bytes): string
  {
    if data == [] then ""
    else [HexDigit(data[0] as int / 16), HexDigit(data[0] as int % 16)] + Hex(data[1..])
  }

  /** The inverse of `Hex`: reads pairs of hex digits back into bytes. */
  function HexDecode(s: string): Option<Bytes>
    decreases |s|
  {
    if s == [] then Some([])
    else if |s| < 2 then None
    else match (HexDigitValue(s[0]), HexDigitValue(s[1]), HexDecode(s[2..]))
      case (Some(hi), Some(lo), Some(rest)) => Some([(hi * 16 + lo) as Byte] + rest)
      case _ => None
  }

  /** Reads a raw key spec `x'...'` back into its bytes. */
  function ParseRawKeySpec(s: string): Option<Bytes>
  {
    if |s| >= 3 && s[..2] == "x'" && s[|s| - 1] == '\'' then HexDecode(s[2..|s| - 1]) else None
  }

  lemma {:induction false} HexShape(data: Bytes)
    ensures |Hex(data)| == 2 * |data|
    ensures forall i :: 0 <= i < |Hex(data)| ==> IsHexDigit(Hex(data)[i])
  {
    if data != [] {
      HexShape(data[1..]);
    }
  }

  lemma {:induction false} HexRoundTrip(data: Bytes)
    ensures HexDecode(Hex(data)) == Some(data)
  {
    if data != [] {
      var b := data[0] as int;
      var s := Hex(data);
      HexRoundTrip(data[1..]);
      assert s[2..] == Hex(data[1..]);
      assert HexDigitValue(s[0]) == Some(b / 16);
      assert HexDigitValue(s[1]) == Some(b % 16);
      assert (b / 16 * 16 + b % 16) as Byte == data[0];
      assert [data[0]] + data[1..] == data;
    }
  }

  /** The passphrase block. A keychain error is rethrown; key material of
      any length but 48 is fatal; 48 bytes give `x'` + 96 hex digits + `'`,
      which reads back to exactly those bytes. */
  function FetchString(fetched: Result<Bytes, KeychainError>): (r: Fatalable<Result<string, KeychainError>>)
    ensures fetched.Failure? ==> r == Completed(Failure(fetched.error))
    ensures r.Crashed? <==> fetched.Success? && |fetched.value| != KeySpecLength
    ensures r.Crashed? ==> r.reason == UnexpectedKeySpecLength
    ensures r.Completed? && r.value.Success? <==> fetched.Success? && |fetched.value| == KeySpecLength
    ensures r.Completed? && r.value.Success? ==>
              var passphrase := r.value.value;
              && |passphrase| == 99
              && passphrase[..2] == "x'" && passphrase[98] == '\''
              && (forall i :: 2 <= i < 98 ==> IsHexDigit(passphrase[i]))
              && ParseRawKeySpec(passphrase) == Some(fetched.value)
  {
    match fetched
    case Failure(e) => Completed(Failure(e))
    case Success(data) =>
      if |data| != KeySpecLength then Crashed(UnexpectedKeySpecLength)
      else
        var passphrase := "x'" + Hex(data) + "'";
        HexShape(data);
        HexRoundTrip(data);
        assert passphrase[2..|passphrase| - 1] == Hex(data);
        Completed(Success(passphrase))
  }
}
