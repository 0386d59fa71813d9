/** The request guard: a syntactic filter against request forgery towards
    private networks (`assertUrl`), and the header-value check
    (`assertMetadata`). Both are deterministic checks over strings; the guard
    performs no name resolution. */
module Guard {
  import opened Wrappers
  import opened Strings
  import opened Platform
  import opened Addresses

  // `PrivateIpOptions`: the leading octets of the blocked IPv4 ranges.
  const ClassAFirst := 10
  const ClassBFirst := 172
  const ClassBSecondMin := 16
  const ClassBSecondMax := 31
  const ClassCFirst := 192
  const ClassCSecond := 168
  const LoopbackFirst := 127
  const LinkLocalFirst := 169
  const LinkLocalSecond := 254
  const ZeroAddressFirst := 0

  // ---------------------------------------------------------------------------
  // assertMetadata
  // ---------------------------------------------------------------------------

  /** A UTF-16 code unit a header value may hold: 32..126 or 128..255. A
      character outside the Basic Multilingual Plane is two surrogate code
      units, both above 255, so testing the character itself gives the same
      verdict as testing its code units. */
  predicate SafeUnit(c: char) {
    !(c as int > 255 || c as int < 32 || c as int == 127)
  }

  predicate SafeValue(value: string) {
    forall i :: 0 <= i < |value| ==> SafeUnit(value[i])
  }

  /** Every value of the header map is safe; keys are never inspected. */
  predicate SafeMetadata(values: map<string, string>) {
    forall key :: key in values ==> SafeValue(values[key])
  }

  /** `assertMetadata`: scans every value, code unit by code unit, and throws
      `InvalidMetadataError` at the first unit outside the safe ranges. */
  method AssertMetadata(values: map<string, string>) returns (r: Result<(), Thrown>)
    ensures r.Ok? <==> SafeMetadata(values)
    ensures r.Err? ==> r.error == Library(InvalidMetadata)
  {
    var pending := values.Keys;
    while pending != {}
      invariant pending <= values.Keys
      invariant forall key :: key in values && key !in pending ==> SafeValue(values[key])
      decreases pending
    {
      var key :| key in pending;
      var value := values[key];
      var i := 0;
      while i < |value|
        invariant 0 <= i <= |value|
        invariant forall j :: 0 <= j < i ==> SafeUnit(value[j])
      {
        var code := value[i] as int;
        if code > 255 || code < 32 || code == 127 {
          return Err(Library(InvalidMetadata));
        }
        i := i + 1;
      }
      pending := pending - {key};
    }
    return Ok(());
  }

  // ---------------------------------------------------------------------------
  // assertUrl
  // ---------------------------------------------------------------------------

  /** A character the pattern `[^/:?#]` accepts. */
  predicate HostChar(c: char) {
    c != '/' && c != ':' && c != '?' && c != '#'
  }

  /** The longest prefix of `s` made of host characters. */
  function HostRun(s: string): (r: string)
    ensures |r| <= |s| && r == s[..|r|]
    ensures forall i :: 0 <= i < |r| ==> HostChar(r[i])
    ensures |r| < |s| ==> !HostChar(s[|r|])
    decreases |s|
  {
    if s == [] || !HostChar(s[0]) then [] else [s[0]] + HostRun(s[1..])
  }

  /** The raw host the pattern `^https?:\/\/([^/:?#]+)` captures, if it matches. */
  function RawHost(value: string): (r: Option<string>)
    ensures r.Some? ==> r.value != []
  {
    var rest :=
      if StartsWith(value, "http://") then Some(value[7..])
      else if StartsWith(value, "https://") then Some(value[8..])
      else None;
    if rest.None? then None
    else
      var host := HostRun(rest.value);
      if host == [] then None else Some(host)
  }

  /** The pattern `^(\d{1,3}\.){3}\d{1,3}$`: four dot-separated runs of one
      to three ASCII digits. */
  predicate IsDottedQuad(s: string) {
    var parts := Split(s, '.');
    |parts| == 4 && forall k :: 0 <= k < 4 ==> 1 <= |parts[k]| <= 3 && AllDigits(parts[k])
  }

  predicate LeadingZero(octet: string) {
    |octet| > 1 && octet[0] == '0'
  }

  /** A dotted quad that is ambiguous (an octet with a leading zero, which some
      parsers read as octal) or out of range (an octet above 255). */
  predicate MalformedQuad(raw: string) {
    IsDottedQuad(raw) &&
    var parts := Split(raw, '.');
    (exists k :: 0 <= k < 4 && LeadingZero(parts[k])) ||
    (exists k :: 0 <= k < 4 && ParseDecimal(parts[k]) > 255)
  }

  /** The first raw check of `assertUrl`, made on the text before any parsing. */
  predicate MalformedRawHost(value: string) {
    RawHost(value).Some? && MalformedQuad(RawHost(value).value)
  }

  predicate WebProtocol(protocol: string) {
    protocol == "http:" || protocol == "https:"
  }

  /** The IPv6 literals the guard blocks by their textual prefix only. */
  predicate LinkOrUniqueLocal(hostname: string) {
    StartsWith(hostname, "[fe80:") || StartsWith(hostname, "[fe80::") ||
    StartsWith(hostname, "[fc00:") || StartsWith(hostname, "[fc00::") ||
    StartsWith(hostname, "[fd00:") || StartsWith(hostname, "[fd00::")
  }

  /** The four octets of a dotted quad, as `Number` reads them. */
  function Octets(hostname: string): (octets: seq<nat>)
    requires IsDottedQuad(hostname)
    ensures |octets| == 4
  {
    var parts := Split(hostname, '.');
    [ParseDecimal(parts[0]), ParseDecimal(parts[1]), ParseDecimal(parts[2]), ParseDecimal(parts[3])]
  }

  /** The range checks of `assertUrl` on a dotted-quad hostname, in source order. */
  function QuadVerdict(first: int, second: int, localhost: bool): Result<(), Thrown> {
    if first == ClassAFirst then Err(Library(UnsafeUrl))
    else if first == ClassBFirst && ClassBSecondMin <= second <= ClassBSecondMax then Err(Library(UnsafeUrl))
    else if first == ClassCFirst && second == ClassCSecond then Err(Library(UnsafeUrl))
    else if first == LoopbackFirst && !localhost then Err(Library(UnsafeUrl))
    else if first == LinkLocalFirst && second == LinkLocalSecond then Err(Library(UnsafeUrl))
    else if first == ZeroAddressFirst then Err(Library(UnsafeUrl))
    else Ok(())
  }

  /** The host checks of `assertUrl`, on the lower-cased parsed hostname. */
  function HostVerdict(hostname: string, localhost: bool): Result<(), Thrown> {
    if hostname == "localhost" && !localhost then Err(Library(UnsafeUrl))
    else if Contains(hostname, ":") then
      if hostname == "[::1]" || hostname == "[::]" then
        if !localhost then Err(Library(UnsafeUrl)) else Ok(())
      else if LinkOrUniqueLocal(hostname) then Err(Library(UnsafeUrl))
      else Ok(())
    else if !IsDottedQuad(hostname) then Ok(())
    else
      var octets := Octets(hostname);
      QuadVerdict(octets[0], octets[1], localhost)
  }

  /** `assertUrl(value, unsafe, localhost)`. `parsed` is what `new URL(value)`
      yields; a URL it cannot parse makes `assertUrl` throw its `TypeError`. */
  function AssertUrl(value: string, parsed: UrlParse, unsafe: bool, localhost: bool): (r: Result<(), Thrown>)
    // An ambiguous or out-of-range dotted quad is rejected before, and
    // regardless of, every flag.
    ensures MalformedRawHost(value) ==> r == Err(Library(UnsafeUrl))
    // A scheme other than http: or https: is rejected even when unsafe.
    ensures parsed.Resolved? && !WebProtocol(parsed.url.protocol) ==> r == Err(Library(UnsafeUrl))
    // With unsafe set, only the raw-host and scheme checks apply.
    ensures unsafe && parsed.Resolved? && !MalformedRawHost(value) ==>
              (r.Ok? <==> WebProtocol(parsed.url.protocol))
    // Without unsafe, a parsable http(s) URL is judged by its hostname alone.
    ensures !unsafe && parsed.Resolved? && WebProtocol(parsed.url.protocol) && !MalformedRawHost(value) ==>
              r == HostVerdict(Lower(parsed.url.hostname), localhost)
    // A URL the parser refuses throws the parser's TypeError.
    ensures parsed.Rejected? && !MalformedRawHost(value) ==> r == Err(Error("TypeError", parsed.message))
    // Every rejection is an UnsafeUrlError except the parser's own TypeError.
    ensures r.Err? ==> r.error == Library(UnsafeUrl) || (parsed.Rejected? && r.error == Error("TypeError", parsed.message))
  {
    if MalformedRawHost(value) then Err(Library(UnsafeUrl))
    else match parsed
      case Rejected(message) => Err(Error("TypeError", message))
      case Resolved(url) =>
        if !WebProtocol(url.protocol) then Err(Library(UnsafeUrl))
        else if unsafe then Ok(())
        else HostVerdict(Lower(url.hostname), localhost)
  }

  /** For a parsable http(s) URL whose lower-cased hostname is a name (no
      `:`, not a dotted quad), `assertUrl` without `unsafe` rejects exactly
      `localhost`, in any case, and only when the localhost flag is unset. */
  lemma NamedHostVerdict(value: string, url: Url, localhost: bool)
    requires WebProtocol(url.protocol) && !MalformedRawHost(value)
    requires !Contains(Lower(url.hostname), ":") && !IsDottedQuad(Lower(url.hostname))
    ensures AssertUrl(value, Resolved(url), false, localhost).Err? <==>
            Lower(url.hostname) == "localhost" && !localhost
  {
  }

  /** The octet comparisons of `assertUrl` reject exactly the reserved CIDR
      blocks: in particular the 172 check on the second octet (16..31) is the
      /12 block, so 172.15.x.x and 172.32.x.x pass. */
  lemma QuadVerdictMatchesBlocks(a: nat, b: nat, c: nat, d: nat, localhost: bool)
    requires a <= 255 && b <= 255 && c <= 255 && d <= 255
    ensures QuadVerdict(a, b, localhost).Err? <==> ReservedAddress(Address(a, b, c, d), localhost)
  {
    ReservedByOctets(a, b, c, d, localhost);
  }

  /** For a parsable http(s) URL whose lower-cased hostname is a dotted quad of
      octets 0..255, `assertUrl` without `unsafe` rejects exactly the reserved
      addresses. */
  lemma DottedQuadVerdict(value: string, url: Url, localhost: bool)
    requires WebProtocol(url.protocol) && !MalformedRawHost(value)
    requires IsDottedQuad(Lower(url.hostname))
    requires forall k :: 0 <= k < 4 ==> Octets(Lower(url.hostname))[k] <= 255
    ensures var octets := Octets(Lower(url.hostname));
      AssertUrl(value, Resolved(url), false, localhost).Err? <==>
      ReservedAddress(Address(octets[0], octets[1], octets[2], octets[3]), localhost)
  {
    var hostname := Lower(url.hostname);
    var octets := Octets(hostname);
    NoColonInQuad(hostname);
    assert octets[0] <= 255 && octets[1] <= 255 && octets[2] <= 255 && octets[3] <= 255;
    QuadVerdictMatchesBlocks(octets[0], octets[1], octets[2], octets[3], localhost);
  }

  /** A dotted quad holds digits and dots only, so never a colon. */
  lemma NoColonInQuad(s: string)
    requires IsDottedQuad(s)
    ensures !Contains(s, ":")
  {
    if Contains(s, ":") {
      var i := ContainsWitness(s, ":");
      SplitCovers(s, '.', i);
    }
  }

  /** A character of `s` other than the separator lies in one of its parts. */
  lemma {:induction false} SplitCovers(s: string, separator: char, i: nat)
    requires i < |s| && s[i] != separator
    ensures exists k, j :: 0 <= k < |Split(s, separator)| && 0 <= j < |Split(s, separator)[k]| &&
                           Split(s, separator)[k][j] == s[i]
    decreases |s|
  {
    var parts := Split(s, separator);
    var n := FindChar(s, separator);
    if n == -1 {
      assert parts[0][i] == s[i];
    } else if i < n {
      assert parts[0][i] == s[i];
    } else {
      assert s[n + 1..][i - n - 1] == s[i];
      SplitCovers(s[n + 1..], separator, i - n - 1);
      var k, j :| 0 <= k < |Split(s[n + 1..], separator)| && 0 <= j < |Split(s[n + 1..], separator)[k]| &&
                  Split(s[n + 1..], separator)[k][j] == s[i];
      assert parts[k + 1] == Split(s[n + 1..], separator)[k];
    }
  }

  /** Bracketed IPv6 literals, matched on the lower-cased hostname: the
      loopback `[::1]` and unspecified `[::]` addresses are rejected unless
      `localhost` (RFC 4291, sections 2.5.2 and 2.5.3); the literal prefixes
      `[fe80:`, `[fc00:` and `[fd00:` are always rejected; any other literal
      passes. */
  lemma Ipv6Verdict(value: string, url: Url, localhost: bool)
    requires WebProtocol(url.protocol) && !MalformedRawHost(value)
    requires Contains(Lower(url.hostname), ":")
    ensures var hostname := Lower(url.hostname);
      AssertUrl(value, Resolved(url), false, localhost).Err? <==>
        ((hostname == "[::1]" || hostname == "[::]") && !localhost) ||
        ((hostname != "[::1]" && hostname != "[::]") &&
         (StartsWith(hostname, "[fe80:") || StartsWith(hostname, "[fc00:") || StartsWith(hostname, "[fd00:")))
  {
    var hostname := Lower(url.hostname);
    if StartsWith(hostname, "[fe80::") { assert hostname[..6] == hostname[..7][..6]; }
    if StartsWith(hostname, "[fc00::") { assert hostname[..6] == hostname[..7][..6]; }
    if StartsWith(hostname, "[fd00::") { assert hostname[..6] == hostname[..7][..6]; }
    assert hostname != "localhost" by {
      var i := ContainsWitness(hostname, ":");
      assert hostname[i] == ':';
    }
  }
}
