/**
 * Decoding of the inbound OSC address. A message is acted on only when its
 * address is `/kiloview/setInput/` followed by exactly one ASCII decimal
 * digit; the digit's value is the requested tally index.
 */
module Osc {
  import opened Device

  const SetInputPrefix: string := "/kiloview/setInput/"

  predicate IsDigit(c: char) {
    '0' <= c <= '9'
  }

  /** The digit character for `d`, as `\d` matches it. */
  function DigitChar(d: nat): (c: char)
    requires d < 10
    ensures IsDigit(c)
  {
    ('0' as int + d) as char
  }

  /** The address that requests tally index `d`. */
  function SetInputAddress(d: nat): (a: string)
    requires d < 10
    ensures |a| == |SetInputPrefix| + 1
  {
    SetInputPrefix + [DigitChar(d)]
  }

  /**
   * The index an address requests, or None when the address does not match
   * `^/kiloview/setInput/(\d)$`. A match yields exactly the address of that
   * digit, and the address of every digit is matched.
   */
  function ParseSetInput(address: string): (r: Option<nat>)
    ensures r.Some? ==> r.value < 10 && address == SetInputAddress(r.value)
    ensures forall d :: 0 <= d < 10 && address == SetInputAddress(d) ==> r == Some(d)
  {
    var n := |SetInputPrefix|;
    if |address| == n + 1 && address[..n] == SetInputPrefix && IsDigit(address[n]) then
      var d := address[n] as int - '0' as int;
      assert address == SetInputPrefix + [DigitChar(d)];
      Some(d)
    else
      None
  }

  /** An address with more than one character after the prefix is never matched. */
  lemma LongAddressIgnored(address: string)
    requires |address| > |SetInputPrefix| + 1
    ensures ParseSetInput(address) == None
  {
  }

  /** `/kiloview/setInput/10` is not a request for index 10 (nor 1). */
  lemma MultiDigitIgnored()
    ensures ParseSetInput(SetInputPrefix + "10") == None
  {
    LongAddressIgnored(SetInputPrefix + "10");
  }

  /** The only indices the decoder can ever pass on are 0..9. */
  lemma {:induction false} DecodedIndexIsDigit(address: string, i: nat)
    requires ParseSetInput(address) == Some(i)
    ensures i <= 9
    ensures address[|SetInputPrefix|] == DigitChar(i)
  {
    assert address == SetInputAddress(i);
  }
}
