/** What a request must pass before ping-server/server.js starts a stream:
    the API key check of `authenticateApiKey` (lines 45-58) and the input
    rules of `pingSchema` and `tracertSchema` (lines 61-94): a host that is a
    dotted quad or a domain name, and a packet count or hop limit in range. */
module Admission {
  import opened Base
  import opened Text

  // ---------------------------------------------------------------------------
  // API key

  const MissingKey := "Missing or invalid API key"
  const WrongKey := "Invalid API key"

  /** `process.env.API_KEY || 'dev-key'`: an unset or empty variable gives the
      development key. */
  function ConfiguredApiKey(variable: Option<string>): (key: string)
    ensures key != ""
    ensures variable.Some? && variable.value != "" ==> key == variable.value
  {
    if variable.None? || variable.value == "" then "dev-key" else variable.value
  }

  /** `authenticateApiKey`: `None` lets the request through, `Some(message)`
      answers 401 with that message. */
  function AuthenticateApiKey(header: Option<string>, apiKey: string): (r: Option<string>)
    ensures r.None? <==> header == Some("Bearer " + apiKey)
    ensures r == Some(MissingKey) <==> header.None? || !OccursAt(header.value, "Bearer ", 0)
    ensures r.Some? ==> r.value == MissingKey || r.value == WrongKey
  {
    if header.None? || header.value == "" || !OccursAt(header.value, "Bearer ", 0) then Some(MissingKey)
    else
      assert header.value == header.value[..7] + header.value[7..];
      if header.value[7..] != apiKey then Some(WrongKey) else None
  }

  // ---------------------------------------------------------------------------
  // Host

  /** `25[0-5]`, `2[0-4][0-9]` and `[01]?[0-9][0-9]?`, the three alternatives
      of one octet of the address rule. */
  predicate OctetHigh(o: string) {
    |o| == 3 && o[0] == '2' && o[1] == '5' && '0' <= o[2] <= '5'
  }

  predicate OctetMiddle(o: string) {
    |o| == 3 && o[0] == '2' && '0' <= o[1] <= '4' && IsDigit(o[2])
  }

  /** With the optional `[01]` absent this is one or two digits; with it
      present, a `0` or `1` and one or two more digits. */
  predicate OctetLow(o: string) {
    || (1 <= |o| <= 2 && AllDigits(o))
    || (2 <= |o| <= 3 && (o[0] == '0' || o[0] == '1') && AllDigits(o[1..]))
  }

  predicate IsOctet(o: string) {
    OctetHigh(o) || OctetMiddle(o) || OctetLow(o)
  }

  /** The address rule: exactly four octets separated by dots. Octets hold no
      dots, so the pieces between the dots are the octets. */
  predicate IsIPv4(s: string) {
    var parts := Split(s, '.');
    |parts| == 4 && forall k :: 0 <= k < 4 ==> IsOctet(parts[k])
  }

  /** `[a-zA-Z0-9]([a-zA-Z0-9-]{0,61}[a-zA-Z0-9])?`: one to 63 letters, digits
      and hyphens, beginning and ending with a letter or digit. */
  predicate IsLabel(l: string) {
    && 1 <= |l| <= 63
    && IsAlnum(l[0]) && IsAlnum(l[|l| - 1])
    && forall i :: 0 <= i < |l| ==> IsAlnum(l[i]) || l[i] == '-'
  }

  /** The domain rule: labels separated by single dots. */
  predicate IsDomain(s: string) {
    forall l :: l in Split(s, '.') ==> IsLabel(l)
  }

  /** The host rule of both schemas: 1 to 253 characters, an address or a
      domain name. */
  predicate HostValid(host: string) {
    1 <= |host| <= 253 && (IsIPv4(host) || IsDomain(host))
  }

  /** The octet rule accepts exactly the numbers 0 to 255 written with one to
      three digits, leading zeros allowed. */
  lemma {:induction false} OctetIsByte(o: string)
    ensures IsOctet(o) <==> 1 <= |o| <= 3 && AllDigits(o) && DigitsValue(o) <= 255
  {
    if 1 <= |o| <= 3 && AllDigits(o) {
      var d0 := o[0] as int - '0' as int;
      if |o| == 3 {
        var d1, d2 := o[1] as int - '0' as int, o[2] as int - '0' as int;
        assert o[..2][..1] == o[..1];
        assert DigitsValue(o[..1]) == d0;
        assert DigitsValue(o[..2]) == 10 * d0 + d1;
        assert DigitsValue(o) == 100 * d0 + 10 * d1 + d2;
        assert AllDigits(o[1..]) by {
          assert forall i :: 0 <= i < |o[1..]| ==> o[1..][i] == o[i + 1];
        }
      } else if |o| == 2 {
        assert DigitsValue(o[..1]) == d0;
      }
    }
    if IsOctet(o) {
      if OctetLow(o) && !(1 <= |o| <= 2 && AllDigits(o)) {
        assert forall i :: 1 <= i < |o| ==> o[1..][i - 1] == o[i];
      }
    }
  }

  /** Every address also satisfies the domain rule: its octets are labels. */
  lemma {:induction false} IPv4IsDomain(s: string)
    requires IsIPv4(s)
    ensures IsDomain(s)
  {
    var parts := Split(s, '.');
    forall l | l in parts ensures IsLabel(l) {
      var k :| 0 <= k < 4 && parts[k] == l;
      OctetIsByte(l);
    }
  }

  /** So the host rule is the length bound and the domain rule: the address
      test decides nothing, and a dotted quad with an octet above 255 is still
      accepted as a domain name. */
  lemma {:induction false} HostRuleIsDomainRule(host: string)
    ensures HostValid(host) <==> 1 <= |host| <= 253 && IsDomain(host)
  {
    if IsIPv4(host) {
      IPv4IsDomain(host);
    }
  }

  /** `300.1.1.1` is not an address, yet the host rule accepts it. */
  lemma {:induction false} OutOfRangeQuadAccepted()
    ensures !IsIPv4("300.1.1.1") && HostValid("300.1.1.1")
  {
    SplitOfOutOfRangeQuad();
    assert !IsOctet(Split("300.1.1.1", '.')[0]);
    assert IsDomain("300.1.1.1") by {
      assert IsLabel("300") && IsLabel("1");
    }
  }

  lemma {:induction false} SplitOfOutOfRangeQuad()
    ensures Split("300.1.1.1", '.') == ["300", "1", "1", "1"]
  {
    var parts := ["300", "1", "1", "1"];
    assert Join(parts, '.') == "300.1.1.1";
    SplitJoin(parts, '.');
  }

  // ---------------------------------------------------------------------------
  // Numeric parameters

  /** `Joi.number().integer().min(lo).max(hi).default(d)` for an integer that
      is present or absent; the failure names the field. */
  function Bounded(field: string, value: Option<int>, lo: int, hi: int, default: int): (r: Result<int, string>)
    requires lo <= default <= hi
    ensures r.Success? <==> value.None? || lo <= value.value <= hi
    ensures r.Success? ==> lo <= r.value <= hi && r.value == (if value.None? then default else value.value)
    ensures r.Failure? ==> r.error == field
  {
    if value.None? then Success(default)
    else if lo <= value.value <= hi then Success(value.value)
    else Failure(field)
  }

  /** The ping packet count: 1 to 10, 4 when absent. */
  function CountParam(count: Option<int>): Result<int, string> {
    Bounded("count", count, 1, 10, 4)
  }

  /** The traceroute hop limit: 1 to 30, 30 when absent. */
  function MaxHopsParam(maxHops: Option<int>): Result<int, string> {
    Bounded("maxHops", maxHops, 1, 30, 30)
  }

  /** A validated request: the host and the number that goes with it. */
  datatype Request = Request(host: string, n: int)

  /** `schema.validate(body)` for a body with a host string and an optional
      number: the host is checked before the number, and the first failing
      field is reported. */
  function Validate(host: Option<string>, number: Result<int, string>): (r: Result<Request, string>)
    ensures r.Success? <==> host.Some? && HostValid(host.value) && number.Success?
    ensures r.Success? ==> r.value == Request(host.value, number.value)
    ensures r.Failure? && !(host.Some? && HostValid(host.value)) ==> r.error == "host"
  {
    if host.None? || !HostValid(host.value) then Failure("host")
    else if number.Failure? then Failure(number.error)
    else Success(Request(host.value, number.value))
  }

  /** What a validated ping request carries. */
  lemma {:induction false} PingRequestBounds(host: Option<string>, count: Option<int>)
    requires Validate(host, CountParam(count)).Success?
    ensures var r := Validate(host, CountParam(count)).value;
      && 1 <= |r.host| <= 253 && IsDomain(r.host)
      && 1 <= r.n <= 10 && (count.None? ==> r.n == 4)
  {
    HostRuleIsDomainRule(host.value);
  }

  /** What a validated traceroute request carries. */
  lemma {:induction false} TracertRequestBounds(host: Option<string>, maxHops: Option<int>)
    requires Validate(host, MaxHopsParam(maxHops)).Success?
    ensures var r := Validate(host, MaxHopsParam(maxHops)).value;
      && 1 <= |r.host| <= 253 && IsDomain(r.host)
      && 1 <= r.n <= 30 && (maxHops.None? ==> r.n == 30)
  {
    HostRuleIsDomainRule(host.value);
  }
}
