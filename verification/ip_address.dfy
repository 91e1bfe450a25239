/**
 * Textual IP address validation as Python's `ipaddress.IPv4Address` and
 * `ipaddress.IPv6Address` perform it (Python 3.9.5 and later: leading zeros in
 * IPv4 octets are rejected, IPv6 scope ids after `%` are accepted). Django's
 * `GenericIPAddressField` delegates to these parsers.
 */
module IpAddress {
  import opened Text

  /** `_parse_octet`: one to three ASCII digits, no leading zero, at most 255. */
  predicate IsOctet(o: string)
  {
    1 <= |o| <= 3 && AllDigits(o) && (o == "0" || o[0] != '0') && DecimalValue(o) <= 255
  }

  /** `IPv4Address(s)` succeeds: exactly four dot-separated octets. */
  predicate IsIPv4(s: string)
  {
    var parts := Split(s, '.');
    s != "" && |parts| == 4 && forall i :: 0 <= i < 4 ==> IsOctet(parts[i])
  }

  /** `_parse_hextet`: one to four hexadecimal digits, either case. */
  predicate IsHextet(h: string)
  {
    1 <= |h| <= 4 && forall i :: 0 <= i < |h| ==> IsHexDigit(h[i])
  }

  predicate AllHextets(parts: seq<string>)
  {
    forall i :: 0 <= i < |parts| ==> IsHextet(parts[i])
  }

  /** The interior positions (not the first, not the last) holding an empty part: where `::` stands. */
  function Gaps(parts: seq<string>, i: nat): seq<nat>
    decreases |parts| - i
  {
    if i + 1 >= |parts| then [] else (if parts[i] == "" then [i] else []) + Gaps(parts, i + 1)
  }

  lemma {:induction false} GapsInRange(parts: seq<string>, i: nat)
    ensures forall j :: 0 <= j < |Gaps(parts, i)| ==> i <= Gaps(parts, i)[j] < |parts| - 1
    decreases |parts| - i
  {
    if i + 1 < |parts| {
      GapsInRange(parts, i + 1);
    }
  }

  /**
   * The layout rules of `_ip_int_from_string` once an IPv4 tail has been
   * replaced by two hextets: at most nine parts, at most one `::`, a leading or
   * trailing empty part only as half of `::`, `::` standing for at least one
   * hextet, and eight hextets when there is no `::`.
   */
  predicate IsIPv6Parts(parts: seq<string>)
  {
    var gaps := Gaps(parts, 1);
    GapsInRange(parts, 1);
    |parts| <= 9 && |gaps| <= 1 &&
    if |gaps| == 1 then
      var k := gaps[0];
      var n := |parts|;
      var hi := if parts[0] == "" then k - 1 else k;
      var lo := if parts[n - 1] == "" then n - k - 2 else n - k - 1;
      (parts[0] == "" ==> hi == 0) && (parts[n - 1] == "" ==> lo == 0) && hi + lo <= 7
      && AllHextets(parts[..hi]) && AllHextets(parts[n - lo..])
    else
      |parts| == 8 && AllHextets(parts)
  }

  /** The address part before an optional `%scope`; the scope must be non-empty and hold no further `%`. */
  predicate ScopeOk(s: string)
  {
    var parts := Split(s, '%');
    |parts| == 1 || (|parts| == 2 && parts[1] != "")
  }

  function AddressPart(s: string): string
  {
    Split(s, '%')[0]
  }

  /** `IPv6Address(s)` succeeds. */
  predicate IsIPv6(s: string)
  {
    '/' !in s && ScopeOk(s) &&
    var addr := AddressPart(s);
    var parts := Split(addr, ':');
    var last := parts[|parts| - 1];
    addr != "" && |parts| >= 3 &&
    ('.' in last ==> IsIPv4(last)) &&
    IsIPv6Parts(if '.' in last then parts[..|parts| - 1] + ["0", "0"] else parts)
  }

  lemma {:induction false} JoinWithoutChar(xs: seq<string>, sep: char, c: char)
    requires c != sep
    requires forall i :: 0 <= i < |xs| ==> c !in xs[i]
    ensures c !in Join(xs, sep)
  {
    if |xs| > 1 {
      JoinWithoutChar(xs[1..], sep, c);
    }
  }

  /** An IPv4 address never holds a colon, so Django's `':' in value` dispatch never sends one to the IPv6 parser. */
  lemma IPv4HasNoColon(s: string)
    requires IsIPv4(s)
    ensures ':' !in s
  {
    var parts := Split(s, '.');
    forall i | 0 <= i < |parts| ensures ':' !in parts[i] {
      assert IsOctet(parts[i]);
    }
    JoinWithoutChar(parts, '.', ':');
    JoinSplit(s, '.');
  }

  /** An IPv6 address always holds a colon (at least three colon-separated parts). */
  lemma IPv6HasColon(s: string)
    requires IsIPv6(s)
    ensures ':' in s
  {
    var addr := AddressPart(s);
    var parts := Split(addr, ':');
    assert Count(addr, ':') >= 2;
    CountedCharIsPresent(addr, ':');
    FirstPartWithin(s, '%', ':');
  }

  lemma {:induction false} CountedCharIsPresent(s: string, c: char)
    requires Count(s, c) > 0
    ensures c in s
  {
    if s[0] != c {
      CountedCharIsPresent(s[1..], c);
    }
  }

  lemma {:induction false} FirstPartWithin(s: string, sep: char, c: char)
    requires c in Split(s, sep)[0]
    ensures c in s
  {
    if s != [] && s[0] != sep && c != s[0] {
      assert c in Split(s[1..], sep)[0];
      FirstPartWithin(s[1..], sep, c);
    }
  }

  lemma MockOctets()
    ensures Split("192.0.2.1", '.') == ["192", "0", "2", "1"]
  {
    var octets := ["192", "0", "2", "1"];
    assert Join(octets, '.') == "192.0.2.1" by {
      assert Join(octets[3..], '.') == "1";
      assert Join(octets[2..], '.') == "2.1";
      assert Join(octets[1..], '.') == "0.2.1";
    }
    forall i | 0 <= i < 4 ensures '.' !in octets[i] {
    }
    SplitJoin(octets, '.');
  }

  /** The documentation address the browser collector sends in place of a real lookup is a valid IPv4 address. */
  lemma MockAddressIsIPv4()
    ensures IsIPv4("192.0.2.1")
  {
    MockOctets();
    MockOctetsValid();
    FourOctets("192.0.2.1", ["192", "0", "2", "1"]);
  }

  lemma FourOctets(s: string, octets: seq<string>)
    requires s != "" && Split(s, '.') == octets
    requires |octets| == 4 && forall i :: 0 <= i < 4 ==> IsOctet(octets[i])
    ensures IsIPv4(s)
  {
  }

  lemma MockOctetsValid()
    ensures IsOctet("192") && IsOctet("0") && IsOctet("2") && IsOctet("1")
  {
    assert DecimalValue("1") == 1;
    assert DecimalValue("19") == 19;
    assert DecimalValue("192") == 192;
  }

  /** A leading zero makes an octet invalid, so `01.2.3.4` is refused. */
  lemma LeadingZeroRejected()
    ensures !IsOctet("01")
  {
  }
}
