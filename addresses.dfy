/**
 * Account addresses as the client handles them: hex strings that ethers'
 * `getAddress` normalises (or rejects) and that the admin page compares
 * ignoring letter case.
 */
module Addresses {
  import opened Wrappers

  /** `ethers.ZeroAddress`. */
  const ZeroAddress: string := "0x0000000000000000000000000000000000000000"

  predicate IsHexDigit(c: char) {
    '0' <= c <= '9' || 'a' <= c <= 'f' || 'A' <= c <= 'F'
  }

  /** ASCII upper-case letters mapped to lower case, everything else kept. */
  function LowerChar(c: char): char {
    if 'A' <= c <= 'Z' then (c as int + 32) as char else c
  }

  /** `String.prototype.toLowerCase`, restricted to ASCII. */
  function Lower(s: string): (r: string)
    ensures |r| == |s|
    ensures forall i :: 0 <= i < |s| ==> r[i] == LowerChar(s[i])
  {
    seq(|s|, i requires 0 <= i < |s| => LowerChar(s[i]))
  }

  /** Forty hex digits: the body of an address. */
  predicate IsHexBody(s: string) {
    |s| == 40 && forall i :: 0 <= i < |s| ==> IsHexDigit(s[i])
  }

  /** The forty digits of a string of the shape `(0x)?[0-9a-fA-F]{40}`, if it has that shape. */
  function HexDigitsOf(s: string): Option<string> {
    if |s| == 42 && s[..2] == "0x" && IsHexBody(s[2..]) then Some(s[2..])
    else if IsHexBody(s) then Some(s)
    else None
  }

  /**
   * `ethers.getAddress`: `None` where it throws, otherwise the canonical form
   * of the address. The canonical form is written here in lower case; ethers
   * writes the EIP-55 checksum casing, which is a function of the lower-case
   * form, so equality between canonical forms is the same either way.
   */
  function Normalize(s: string): Option<string> {
    match HexDigitsOf(s)
    case None => None
    case Some(d) => Some("0x" + Lower(d))
  }

  /**
   * `getAddress` accepts exactly the forty-digit strings, with or without
   * the prefix, and yields a prefixed, lower-case string of forty digits.
   */
  lemma NormalizeShape(s: string)
    ensures Normalize(s).Some? <==> IsHexBody(s) || (|s| == 42 && s[..2] == "0x" && IsHexBody(s[2..]))
    ensures var r := Normalize(s);
      r.Some? ==> |r.value| == 42 && r.value[..2] == "0x" && IsHexBody(r.value[2..]) && Lower(r.value) == r.value
  {
    if HexDigitsOf(s).Some? {
      var d := HexDigitsOf(s).value;
      var n := "0x" + Lower(d);
      assert n[2..] == Lower(d);
      assert Lower(n) == n;
    }
  }

  /** `ethers.isAddress`: `getAddress` does not throw. */
  predicate IsAddress(s: string) {
    Normalize(s).Some?
  }

  /** The admin page's owner test: `a.toLowerCase() === b.toLowerCase()`. */
  predicate SameIgnoringCase(a: string, b: string) {
    Lower(a) == Lower(b)
  }

  /** Normalising twice is normalising once: a canonical address is its own canonical form. */
  lemma NormalizeIdempotent(s: string)
    requires IsAddress(s)
    ensures Normalize(Normalize(s).value) == Normalize(s)
  {
    NormalizeShape(s);
    var n := Normalize(s).value;
    assert HexDigitsOf(n) == Some(n[2..]);
    assert "0x" + Lower(n[2..]) == n;
  }

  /** An empty string is never an address, so the admin page's `!addr ||` test adds nothing to `isAddress`. */
  lemma EmptyIsNotAddress()
    ensures !IsAddress("")
  {
  }

  lemma LowerOfPrefixed(d: string)
    ensures Lower("0x" + d) == "0x" + Lower(d)
  {
  }

  /**
   * For addresses written with the `0x` prefix, the discovery scan's test
   * (`getAddress(a) === getAddress(b)`) and the admin page's test
   * (`a.toLowerCase() === b.toLowerCase()`) agree.
   */
  lemma NormalizeAgreesWithCaseInsensitive(a: string, b: string)
    requires IsAddress(a) && IsAddress(b)
    requires |a| == 42 && a[..2] == "0x" && |b| == 42 && b[..2] == "0x"
    ensures Normalize(a) == Normalize(b) <==> SameIgnoringCase(a, b)
  {
    assert a == "0x" + a[2..];
    assert b == "0x" + b[2..];
    LowerOfPrefixed(a[2..]);
    LowerOfPrefixed(b[2..]);
    assert HexDigitsOf(a) == Some(a[2..]);
    assert HexDigitsOf(b) == Some(b[2..]);
  }
}
