/** Socket specifications: the grammar of a port, of host:port and of
    [address]:port, its normal form, and taking the normal form apart. */
module SocketSpecs {
  import opened Wrappers
  import opened Text

  datatype SocketSpec = SocketSpec(inner: string)

  const MAX_PORT: nat := 65535
  const MAX_OCTET: nat := 255

  // ---------------------------------------------------------------- parsers

  predicate IsOtherHostNameChar(c: char) {
    c == '.' || c == '-'
  }

  function HostName(s: string): (r: IResult<string>) {
    var letters := Span(s, Letters);
    var n := letters + Span(s[letters..], HostNameChars);
    if letters == 0 || IsOtherHostNameChar(s[n - 1]) then Error else Parsed(s[n..], s[..n])
  }

  /** The length of a segment: up to four hex digits, possibly none. */
  function Segment(s: string): (n: nat)
    ensures n <= |s|
  {
    var n := Span(s, HexDigits);
    if n <= 4 then n else 4
  }

  /** The length of the longest colon-separated list of segments. */
  function Segments(s: string): (n: nat)
    ensures n <= |s|
  {
    var n := Segment(s);
    if n < |s| && s[n] == ':' then n + 1 + Segments(s[n + 1..]) else n
  }

  function IPv6(s: string): (r: IResult<string>) {
    match Char(s, '[')
    case Parsed(inside, _) => (
      var n := Segments(inside);
      match Char(inside[n..], ']')
      case Parsed(rest, _) => Parsed(rest, inside[..n])
      case _ => Error)
    case _ => Error
  }

  /** An octet and the dot after it. */
  function OctetDot(s: string): (r: IResult<()>) {
    match Unsigned(s, MAX_OCTET)
    case Parsed(rest, _) => Char(rest, '.')
    case _ => Error
  }

  /** What follows four octets separated by dots. */
  function AfterIPv4(s: string): (r: IResult<nat>) {
    match OctetDot(s)
    case Parsed(s1, _) => (
      match OctetDot(s1)
      case Parsed(s2, _) => (
        match OctetDot(s2)
        case Parsed(s3, _) => Unsigned(s3, MAX_OCTET)
        case _ => Error)
      case _ => Error)
    case _ => Error
  }

  /** The text recognised by the four octets. */
  function IPv4(s: string): (r: IResult<string>) {
    match AfterIPv4(s)
    case Parsed(rest, _) => if |rest| <= |s| then Parsed(rest, s[..|s| - |rest|]) else Error
    case _ => Error
  }

  /** A port on the local loop. */
  function SocketSpec1(s: string): (r: IResult<SocketSpec>) {
    match Unsigned(s, MAX_PORT)
    case Parsed(rest, port) => Parsed(rest, Normal("127.0.0.1", port))
    case _ => Error
  }

  function ColonPort(s: string): (r: IResult<nat>) {
    match Char(s, ':')
    case Parsed(rest, _) => Unsigned(rest, MAX_PORT)
    case _ => Error
  }

  /** A host name or IPv4 address, and a port. */
  function SocketSpec2(s: string): (r: IResult<SocketSpec>) {
    match if HostName(s).Parsed? then HostName(s) else IPv4(s)
    case Parsed(afterHost, host) => (
      match ColonPort(afterHost)
      case Parsed(rest, port) => Parsed(rest, Normal(host, port))
      case _ => Error)
    case _ => Error
  }

  /** A bracketed address and a port. */
  function SocketSpec3(s: string): (r: IResult<SocketSpec>) {
    match IPv6(s)
    case Parsed(afterHost, host) => (
      match ColonPort(afterHost)
      case Parsed(rest, port) => Parsed(rest, Normal(Bracket(host), port))
      case _ => Error)
    case _ => Error
  }

  function ParseSocketSpec(s: string): (r: IResult<SocketSpec>) {
    if SocketSpec3(s).Parsed? then SocketSpec3(s)
    else if SocketSpec2(s).Parsed? then SocketSpec2(s)
    else SocketSpec1(s)
  }

  function Normal(host: string, port: nat): (spec: SocketSpec) {
    SocketSpec(host + ([':'] + Decimal(port)))
  }

  function Bracket(address: string): (host: string) {
    ['['] + (address + [']'])
  }

  /** Splits a specification; None stands for the panic of a failed unwrap. */
  function AsTuple(spec: SocketSpec): (r: Option<(string, nat)>) {
    match RightSplitOnce(spec.inner, ':')
    case None => None
    case Some((host, port)) =>
      var bare := if |host| > 1 && host[0] == '[' && host[|host| - 1] == ']' then host[1..|host| - 1] else host;
      match ParseUnsigned(port, MAX_PORT)
      case None => None
      case Some(n) => Some((bare, n))
  }

  // ------------------------------------------------- the grammar, declaratively

  predicate IsHostName(h: string) {
    h != "" && IsAlpha(h[0]) && All(h, HostNameChars) && (IsAlpha(h[|h| - 1]) || IsDigit(h[|h| - 1]))
  }

  function Dotted(a: string, b: string, c: string, d: string): (t: string) {
    a + (['.'] + (b + (['.'] + (c + (['.'] + d)))))
  }

  predicate IsOctet(s: string) {
    IsNumber(s, MAX_OCTET)
  }

  ghost predicate IsIPv4(h: string) {
    exists a, b, c, d :: IsOctet(a) && IsOctet(b) && IsOctet(c) && IsOctet(d) && h == Dotted(a, b, c, d)
  }

  /** One or more groups of at most four hex digits. */
  predicate AreGroups(groups: seq<string>) {
    groups != [] && forall i | 0 <= i < |groups| :: |groups[i]| <= 4 && All(groups[i], HexDigits)
  }

  function JoinColon(groups: seq<string>): (t: string)
    requires groups != []
  {
    if |groups| == 1 then groups[0] else groups[0] + ([':'] + JoinColon(groups[1..]))
  }

  ghost predicate IsIPv6(address: string) {
    exists groups :: AreGroups(groups) && address == JoinColon(groups)
  }

  /** A host and the name by which it is contacted, which has no brackets. */
  ghost predicate IsHost(host: string, bare: string) {
    || (host == bare && (IsHostName(host) || IsIPv4(host)))
    || (host == Bracket(bare) && IsIPv6(bare))
  }

  /** `text` is a way of writing the specification of `host` and `port`. */
  ghost predicate Writes(text: string, host: string, bare: string, port: nat) {
    || (host == bare == "127.0.0.1" && IsNumber(text, MAX_PORT) && Value(text) == port)
    || (IsHost(host, bare) && exists digits ::
          IsNumber(digits, MAX_PORT) && Value(digits) == port && text == host + ([':'] + digits))
  }

  // --------------------------------------- each parser against its declaration

  lemma LettersAreHostNameChars(s: string)
    requires All(s, Letters)
    ensures All(s, HostNameChars)
  {
  }

  lemma HostNameSound(s: string)
    requires HostName(s).Parsed?
    ensures s == HostName(s).value + HostName(s).rest && IsHostName(HostName(s).value)
  {
    hide Span;
    var letters := Span(s, Letters);
    var more := Span(s[letters..], HostNameChars);
    SpanAll(s, Letters);
    LettersAreHostNameChars(s[..letters]);
    SpanAll(s[letters..], HostNameChars);
    SplitTwo(s, letters, more);
    AllAppend(s[..letters], s[letters..][..more], HostNameChars);
  }

  lemma HostNameExact(h: string, follow: string)
    requires IsHostName(h) && Ends(HostNameChars, follow)
    ensures HostName(h + follow) == Parsed(follow, h)
  {
    var s := h + follow;
    SpanWithin(h, follow, Letters);
    var letters := Span(s, Letters);
    assert s[letters..] == h[letters..] + follow;
    SpanFollow(h[letters..], follow, HostNameChars);
    assert s[0] == h[0];
    SplitAppend(h, follow);
  }

  lemma NoHostName(s: string)
    requires s != "" && IsDigit(s[0])
    ensures !HostName(s).Parsed? && !IPv6(s).Parsed?
  {
  }

  lemma SegmentSound(s: string)
    ensures Segment(s) <= 4 && All(s[..Segment(s)], HexDigits)
  {
    SpanAll(s, HexDigits);
    var run := s[..Span(s, HexDigits)];
    assert forall i | 0 <= i < Segment(s) :: s[i] == run[i];
  }

  lemma GroupsOne(g: string)
    requires |g| <= 4 && All(g, HexDigits)
    ensures AreGroups([g]) && JoinColon([g]) == g
  {
  }

  lemma GroupsCons(g: string, tail: seq<string>)
    requires |g| <= 4 && All(g, HexDigits) && AreGroups(tail)
    ensures AreGroups([g] + tail) && JoinColon([g] + tail) == g + ([':'] + JoinColon(tail))
  {
    assert ([g] + tail)[1..] == tail;
  }

  lemma {:induction false} SegmentsSound(s: string) returns (groups: seq<string>)
    ensures AreGroups(groups) && s[..Segments(s)] == JoinColon(groups)
  {
    hide JoinColon, AreGroups, All, Segment;
    var n := Segment(s);
    SegmentSound(s);
    if n < |s| && s[n] == ':' {
      var tail := SegmentsSound(s[n + 1..]);
      GroupsCons(s[..n], tail);
      groups := [s[..n]] + tail;
      SplitThree(s, n, Segments(s[n + 1..]));
    } else {
      groups := [s[..n]];
      GroupsOne(s[..n]);
    }
  }

  lemma SegmentExact(g: string, follow: string)
    requires |g| <= 4 && All(g, HexDigits) && Ends(HexDigits, follow)
    ensures Segment(g + follow) == |g|
  {
    SpanFollow(g, follow, HexDigits);
  }

  lemma SegmentsCons(g: string, more: string)
    requires |g| <= 4 && All(g, HexDigits)
    ensures Segments(g + ([':'] + more)) == |g| + 1 + Segments(more)
  {
    SegmentExact(g, [':'] + more);
    assert (g + ([':'] + more))[|g| + 1..] == more;
  }

  lemma {:induction false} SegmentsExact(groups: seq<string>, follow: string)
    requires AreGroups(groups) && follow != "" && follow[0] == ']'
    ensures Segments(JoinColon(groups) + follow) == |JoinColon(groups)|
  {
    var g := groups[0];
    if |groups| == 1 {
      SegmentExact(g, follow);
    } else {
      var more := JoinColon(groups[1..]);
      Assoc(g, [':'] + more, follow);
      Assoc([':'], more, follow);
      SegmentsCons(g, more + follow);
      SegmentsExact(groups[1..], follow);
    }
  }

  lemma IPv6Sound(s: string)
    requires IPv6(s).Parsed?
    ensures s == Bracket(IPv6(s).value) + IPv6(s).rest && IsIPv6(IPv6(s).value)
  {
    hide Segments, JoinColon, AreGroups;
    var inside := Char(s, '[').rest;
    var n := Segments(inside);
    var address, rest := inside[..n], IPv6(s).rest;
    var groups := SegmentsSound(inside);
    CharSound(s, '[');
    CharSound(inside[n..], ']');
    assert inside == address + ([']'] + rest);
    Assoc(address, [']'], rest);
    Assoc(['['], address + [']'], rest);
  }

  lemma IPv6Exact(address: string, follow: string)
    requires IsIPv6(address)
    ensures IPv6(Bracket(address) + follow) == Parsed(follow, address)
  {
    var groups :| AreGroups(groups) && address == JoinColon(groups);
    Assoc(['['], address + [']'], follow);
    Assoc(address, [']'], follow);
    SegmentsExact(groups, [']'] + follow);
    CharExact('[', address + ([']'] + follow));
    SplitAppend(address, [']'] + follow);
    CharExact(']', follow);
  }

  lemma OctetDotSound(s: string) returns (a: string)
    requires OctetDot(s).Parsed?
    ensures IsOctet(a) && s == a + (['.'] + OctetDot(s).rest)
  {
    a := UnsignedSound(s, MAX_OCTET);
    CharSound(Unsigned(s, MAX_OCTET).rest, '.');
  }

  lemma OctetDotExact(a: string, follow: string)
    requires IsOctet(a)
    ensures OctetDot(a + (['.'] + follow)) == Parsed(follow, ())
  {
    UnsignedExact(a, ['.'] + follow, MAX_OCTET);
    CharExact('.', follow);
  }

  lemma DottedAppend(a: string, b: string, c: string, d: string, follow: string)
    ensures Dotted(a, b, c, d) + follow == a + (['.'] + (b + (['.'] + (c + (['.'] + (d + follow))))))
  {
    var dot := ['.'];
    Assoc(a, dot + (b + (dot + (c + (dot + d)))), follow);
    Assoc(dot, b + (dot + (c + (dot + d))), follow);
    Assoc(b, dot + (c + (dot + d)), follow);
    Assoc(dot, c + (dot + d), follow);
    Assoc(c, dot + d, follow);
    Assoc(dot, d, follow);
  }

  lemma AfterIPv4Sound(s: string) returns (h: string)
    requires AfterIPv4(s).Parsed?
    ensures IsIPv4(h) && s == h + AfterIPv4(s).rest
  {
    var a := OctetDotSound(s);
    var s1 := OctetDot(s).rest;
    var b := OctetDotSound(s1);
    var s2 := OctetDot(s1).rest;
    var c := OctetDotSound(s2);
    var s3 := OctetDot(s2).rest;
    var d := UnsignedSound(s3, MAX_OCTET);
    h := Dotted(a, b, c, d);
    DottedAppend(a, b, c, d, AfterIPv4(s).rest);
  }

  lemma IPv4Sound(s: string)
    requires IPv4(s).Parsed?
    ensures s == IPv4(s).value + IPv4(s).rest && IsIPv4(IPv4(s).value)
  {
    var h := AfterIPv4Sound(s);
    SplitAppend(h, AfterIPv4(s).rest);
  }

  lemma AfterIPv4Exact(a: string, b: string, c: string, d: string, follow: string)
    requires IsOctet(a) && IsOctet(b) && IsOctet(c) && IsOctet(d) && Ends(Digits, follow)
    ensures AfterIPv4(Dotted(a, b, c, d) + follow) == Parsed(follow, Value(d))
  {
    var s3 := d + follow;
    var s2 := c + (['.'] + s3);
    var s1 := b + (['.'] + s2);
    DottedAppend(a, b, c, d, follow);
    OctetDotExact(a, s1);
    OctetDotExact(b, s2);
    OctetDotExact(c, s3);
    UnsignedExact(d, follow, MAX_OCTET);
  }

  lemma DottedExact(a: string, b: string, c: string, d: string, follow: string)
    requires IsOctet(a) && IsOctet(b) && IsOctet(c) && IsOctet(d) && Ends(Digits, follow)
    ensures IPv4(Dotted(a, b, c, d) + follow) == Parsed(follow, Dotted(a, b, c, d))
    ensures Dotted(a, b, c, d) != "" && IsDigit(Dotted(a, b, c, d)[0])
  {
    AfterIPv4Exact(a, b, c, d, follow);
    hide AfterIPv4;
    var more := ['.'] + (b + (['.'] + (c + (['.'] + d))));
    var h := a + more;
    assert h == Dotted(a, b, c, d);
    hide Dotted;
    SplitAppend(h, follow);
    SplitAppend(a, more);
    assert h[0] == a[0];
  }

  lemma IPv4Exact(h: string, follow: string)
    requires IsIPv4(h) && Ends(Digits, follow)
    ensures IPv4(h + follow) == Parsed(follow, h) && h != "" && IsDigit(h[0])
  {
    var a, b, c, d :| IsOctet(a) && IsOctet(b) && IsOctet(c) && IsOctet(d) && h == Dotted(a, b, c, d);
    hide IPv4, Dotted, IsIPv4;
    DottedExact(a, b, c, d, follow);
  }

  // ------------------------------------------------ the whole specification

  /** A text that does not continue a specification that stands before it. */
  predicate SpecEnds(follow: string) {
    Ends(Digits, follow) && (follow != "" ==> follow[0] != '.')
  }

  lemma ColonPortExact(digits: string, follow: string)
    requires IsNumber(digits, MAX_PORT) && Ends(Digits, follow)
    ensures ColonPort([':'] + (digits + follow)) == Parsed(follow, Value(digits))
  {
    CharExact(':', digits + follow);
    UnsignedExact(digits, follow, MAX_PORT);
  }

  lemma ColonPortSound(s: string) returns (digits: string)
    requires ColonPort(s).Parsed?
    ensures IsNumber(digits, MAX_PORT) && Value(digits) == ColonPort(s).value
    ensures s == [':'] + (digits + ColonPort(s).rest) && Ends(Digits, ColonPort(s).rest)
  {
    CharSound(s, ':');
    digits := UnsignedSound(Char(s, ':').rest, MAX_PORT);
  }

  lemma HostExact(host: string, bare: string, follow: string)
    requires IsHost(host, bare) && follow != "" && follow[0] == ':'
    ensures if IPv6(host + follow).Parsed? then IPv6(host + follow) == Parsed(follow, bare) && host == Bracket(bare)
            else (if HostName(host + follow).Parsed? then HostName(host + follow) else IPv4(host + follow))
                 == Parsed(follow, host)
  {
    if host == Bracket(bare) && IsIPv6(bare) {
      IPv6Exact(bare, follow);
    } else if IsHostName(host) {
      HostNameExact(host, follow);
      assert (host + follow)[0] == host[0];
    } else {
      IPv4Exact(host, follow);
      assert (host + follow)[0] == host[0];
      NoHostName(host + follow);
    }
  }

  lemma HostPortExact(host: string, bare: string, digits: string, follow: string)
    requires IsHost(host, bare) && IsNumber(digits, MAX_PORT) && Ends(Digits, follow)
    ensures ParseSocketSpec(host + ([':'] + digits) + follow) == Parsed(follow, Normal(host, Value(digits)))
  {
    Assoc(host, [':'] + digits, follow);
    Assoc([':'], digits, follow);
    hide HostName, IPv6, IPv4, ColonPort;
    HostExact(host, bare, [':'] + (digits + follow));
    ColonPortExact(digits, follow);
  }

  lemma PortExact(digits: string, follow: string)
    requires IsNumber(digits, MAX_PORT) && SpecEnds(follow)
    ensures ParseSocketSpec(digits + follow) == Parsed(follow, Normal("127.0.0.1", Value(digits)))
  {
    assert (digits + follow)[0] == digits[0];
    NoHostName(digits + follow);
    hide HostName, IPv6, Unsigned;
    UnsignedExact(digits, follow, MAX_OCTET);
    UnsignedExact(digits, follow, MAX_PORT);
    assert !OctetDot(digits + follow).Parsed?;
  }

  /** Completeness: whatever writes a specification is parsed as its normal form,
      and exactly that text is consumed. */
  lemma ParseExact(text: string, host: string, bare: string, port: nat, follow: string)
    requires Writes(text, host, bare, port) && SpecEnds(follow)
    ensures ParseSocketSpec(text + follow) == Parsed(follow, Normal(host, port))
  {
    if host == "127.0.0.1" && IsNumber(text, MAX_PORT) && Value(text) == port {
      PortExact(text, follow);
    } else {
      var digits :| IsNumber(digits, MAX_PORT) && Value(digits) == port && text == host + ([':'] + digits);
      HostPortExact(host, bare, digits, follow);
    }
  }

  lemma LoopbackIsHost()
    ensures IsHost("127.0.0.1", "127.0.0.1")
  {
    assert "127"[..2] == "12" && "12"[..1] == "1" && "1"[..0] == "" && "0"[..0] == "";
    assert Value("") == 0 && Value("1") == 1 && Value("12") == 12 && Value("127") == 127 && Value("0") == 0;
    assert IsOctet("127") && IsOctet("0") && IsOctet("1");
    assert "127.0.0.1" == Dotted("127", "0", "0", "1");
  }

  /** The host of an accepted text that is not just a port. */
  lemma HostSound(s: string) returns (host: string, bare: string, after: string)
    requires SocketSpec3(s).Parsed? || SocketSpec2(s).Parsed?
    ensures IsHost(host, bare) && s == host + after && ColonPort(after).Parsed?
    ensures ParseSocketSpec(s) == Parsed(ColonPort(after).rest, Normal(host, ColonPort(after).value))
  {
    if SocketSpec3(s).Parsed? {
      IPv6Sound(s);
      bare, after := IPv6(s).value, IPv6(s).rest;
      host := Bracket(bare);
    } else if HostName(s).Parsed? {
      HostNameSound(s);
      host, after := HostName(s).value, HostName(s).rest;
      bare := host;
    } else {
      IPv4Sound(s);
      host, after := IPv4(s).value, IPv4(s).rest;
      bare := host;
    }
  }

  /** Soundness: what is consumed writes the specification that is returned. */
  lemma ParseSound(s: string) returns (text: string, host: string, bare: string, port: nat)
    requires ParseSocketSpec(s).Parsed?
    ensures s == text + ParseSocketSpec(s).rest && Ends(Digits, ParseSocketSpec(s).rest)
    ensures Writes(text, host, bare, port) && port <= MAX_PORT && IsHost(host, bare)
    ensures ParseSocketSpec(s).value == Normal(host, port)
  {
    if !SocketSpec3(s).Parsed? && !SocketSpec2(s).Parsed? {
      text := UnsignedSound(s, MAX_PORT);
      host, bare, port := "127.0.0.1", "127.0.0.1", Value(text);
      LoopbackIsHost();
    } else {
      var after;
      host, bare, after := HostSound(s);
      var digits := ColonPortSound(after);
      text, port := host + ([':'] + digits), Value(digits);
      Assoc([':'], digits, ColonPort(after).rest);
      Assoc(host, [':'] + digits, ColonPort(after).rest);
    }
  }

  // -------------------------------------------------------- the normal form

  /** The normal form of some host and port. */
  ghost predicate IsNormal(spec: SocketSpec) {
    exists host, bare, port: nat :: IsHost(host, bare) && port <= MAX_PORT && spec == Normal(host, port)
  }

  /** Parsing always leaves less than it was given. */
  lemma ParseShrinks(s: string)
    ensures ParseSocketSpec(s).Parsed? ==> |ParseSocketSpec(s).rest| < |s|
    ensures !ParseSocketSpec(s).Failure?
  {
    if ParseSocketSpec(s).Parsed? {
      var text, host, bare, port := ParseSound(s);
    }
  }

  lemma NormalFixed(host: string, bare: string, port: nat, follow: string)
    requires IsHost(host, bare) && port <= MAX_PORT && Ends(Digits, follow)
    ensures ParseSocketSpec(Normal(host, port).inner + follow) == Parsed(follow, Normal(host, port))
  {
    ValueDecimal(port);
    HostPortExact(host, bare, Decimal(port), follow);
  }

  /** A normal form is parsed as itself, whatever stands behind it. */
  lemma NormalParses(spec: SocketSpec, follow: string)
    requires IsNormal(spec) && Ends(Digits, follow)
    ensures ParseSocketSpec(spec.inner + follow) == Parsed(follow, spec)
  {
    var host, bare, port: nat :| IsHost(host, bare) && port <= MAX_PORT && spec == Normal(host, port);
    NormalFixed(host, bare, port, follow);
  }

  lemma ParsedIsNormal(s: string)
    requires ParseSocketSpec(s).Parsed?
    ensures IsNormal(ParseSocketSpec(s).value)
  {
    var text, host, bare, port := ParseSound(s);
  }

  /** The specifications the parser can produce are exactly the normal forms. */
  lemma ProducedIffNormal(spec: SocketSpec)
    ensures IsNormal(spec) <==> exists s :: ParseSocketSpec(s).Parsed? && ParseSocketSpec(s).value == spec
  {
    if IsNormal(spec) {
      NormalParses(spec, "");
      assert ParseSocketSpec(spec.inner + "").Parsed?;
    }
    if s :| ParseSocketSpec(s).Parsed? && ParseSocketSpec(s).value == spec {
      ParsedIsNormal(s);
    }
  }

  /** Printing a parsed specification and parsing it again changes nothing. */
  lemma FixedPoint(s: string, follow: string)
    requires ParseSocketSpec(s).Parsed? && Ends(Digits, follow)
    ensures ParseSocketSpec(ParseSocketSpec(s).value.inner + follow) == Parsed(follow, ParseSocketSpec(s).value)
  {
    var text, host, bare, port := ParseSound(s);
    NormalFixed(host, bare, port, follow);
  }

  lemma BareHost(host: string, bare: string)
    requires IsHost(host, bare)
    ensures host != ""
    ensures bare == if |host| > 1 && host[0] == '[' && host[|host| - 1] == ']' then host[1..|host| - 1] else host
  {
    if IsIPv4(host) {
      IPv4Exact(host, "");
    }
  }

  lemma PrintedPort(port: nat)
    requires port <= MAX_PORT
    ensures ParseUnsigned(Decimal(port), MAX_PORT) == Some(port)
  {
    ValueDecimal(port);
    assert IsDigit(Decimal(port)[0]);
  }

  lemma SplitNormal(host: string, port: nat)
    ensures RightSplitOnce(Normal(host, port).inner, ':') == Some((host, Decimal(port)))
  {
    var digits := Decimal(port);
    assert ':' !in digits by {
      assert forall i | 0 <= i < |digits| :: IsDigit(digits[i]);
    }
    hide Decimal, RightSplitOnce;
    Assoc(host, [':'], digits);
    RightSplitOnceExact(host, digits, ':');
  }

  lemma TupleOfNormal(host: string, bare: string, port: nat)
    requires IsHost(host, bare) && port <= MAX_PORT
    ensures AsTuple(Normal(host, port)) == Some((bare, port))
  {
    hide RightSplitOnce, ParseUnsigned, Decimal, IsHost, Normal;
    SplitNormal(host, port);
    PrintedPort(port);
    BareHost(host, bare);
  }

  /** Taking a parsed specification apart never panics and yields the host, free
      of brackets, and the port that the accepted text wrote. */
  lemma TupleOfParsed(s: string) returns (text: string, host: string, bare: string, port: nat)
    requires ParseSocketSpec(s).Parsed?
    ensures s == text + ParseSocketSpec(s).rest && Writes(text, host, bare, port)
    ensures AsTuple(ParseSocketSpec(s).value) == Some((bare, port)) && port <= MAX_PORT
  {
    text, host, bare, port := ParseSound(s);
    TupleOfNormal(host, bare, port);
  }

  // -------------------------------------------------- reading a whole string

  /** The characters with the White_Space property of Unicode. */
  predicate IsWhitespace(c: char) {
    || '\U{9}' <= c <= '\U{D}' || c == ' ' || c == '\U{85}' || c == '\U{A0}' || c == '\U{1680}'
    || '\U{2000}' <= c <= '\U{200A}' || c == '\U{2028}' || c == '\U{2029}' || c == '\U{202F}'
    || c == '\U{205F}' || c == '\U{3000}'
  }

  /** The white space, spelled out. */
  lemma WhitespaceListed(c: char)
    ensures IsWhitespace(c) <==> c as int in [
                                   0x9, 0xA, 0xB, 0xC, 0xD, 0x20, 0x85, 0xA0, 0x1680,
                                   0x2000, 0x2001, 0x2002, 0x2003, 0x2004, 0x2005, 0x2006, 0x2007, 0x2008, 0x2009, 0x200A,
                                   0x2028, 0x2029, 0x202F, 0x205F, 0x3000]
  {
  }

  predicate IsBlank(s: string) {
    forall i | 0 <= i < |s| :: IsWhitespace(s[i])
  }

  /** A specification may be followed by white space only. */
  function FromStr(s: string): (r: Option<SocketSpec>) {
    match ParseSocketSpec(s)
    case Parsed(rest, spec) => if IsBlank(rest) then Some(spec) else None
    case _ => None
  }

  /** Exactly the written specifications, with blanks behind them, are accepted,
      each as its normal form. */
  lemma FromStrIff(s: string, spec: SocketSpec)
    ensures FromStr(s) == Some(spec) <==>
            exists text, blanks, host, bare, port: nat ::
              s == text + blanks && IsBlank(blanks) && Writes(text, host, bare, port) && spec == Normal(host, port)
  {
    if FromStr(s) == Some(spec) {
      var text, host, bare, port := ParseSound(s);
      assert IsBlank(ParseSocketSpec(s).rest);
    }
    if text, blanks, host, bare, port: nat :|
      s == text + blanks && IsBlank(blanks) && Writes(text, host, bare, port) && spec == Normal(host, port) {
      ParseExact(text, host, bare, port, blanks);
    }
  }

  /** A number alone is a port exactly if it has 16 bits, and an octet if it has 8. */
  lemma NumberRanges(n: nat)
    ensures FromStr(Decimal(n)) == if n < 0x1_0000 then Some(Normal("127.0.0.1", n)) else None
    ensures IsOctet(Decimal(n)) <==> n < 0x100
  {
    ValueDecimal(n);
    var digits := Decimal(n);
    hide Decimal, HostName, IPv6;
    UnsignedExact(digits, "", MAX_PORT);
    UnsignedExact(digits, "", MAX_OCTET);
    assert digits + "" == digits;
    if n < 0x1_0000 {
      PortExact(digits, "");
    } else {
      NoHostName(digits);
    }
  }
}
