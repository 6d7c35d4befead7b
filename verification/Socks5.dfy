/**
  The native agent's SOCKS5 front end: the request parser, the request format of section 4 of RFC 1928
  and the negotiation of sections 3 and 4 on a byte stream.
*/
module Socks5 {

  type byte = n: nat | n < 256

  function Value(b: byte): nat { b }

  datatype Error = NotConnect | BadHostname | BadAddressType | BadPort
                 | BadGreeting | NoAuthUnavailable | UnsupportedAddress | EndOfStream

  datatype Result<+T> = Ok(value: T) | Err(error: Error)

  datatype Target =
    | Hostname(host: seq<byte>, port: nat)
    | Ipv4(octets: seq<byte>, port: nat)
    | Ipv6(octets: seq<byte>, port: nat)

  const DOT: byte := 46
  const HYPHEN: byte := 45

  // ---- Hostnames ----

  predicate Alphanumeric(b: byte) { 48 <= b <= 57 || 65 <= b <= 90 || 97 <= b <= 122 }

  function LowerByte(b: byte): byte { if 65 <= b <= 90 then b + 32 else b }

  function Lower(s: seq<byte>): (r: seq<byte>)
    ensures |r| == |s| && forall i :: 0 <= i < |s| ==> r[i] == LowerByte(s[i])
  {
    if s == [] then [] else [LowerByte(s[0])] + Lower(s[1..])
  }

  /** `host.split('.')`. */
  function Split(host: seq<byte>): (r: seq<seq<byte>>)
    ensures |r| >= 1
  {
    if host == [] then [[]]
    else
      var rest := Split(host[1..]);
      if host[0] == DOT then [[]] + rest else [[host[0]] + rest[0]] + rest[1..]
  }

  predicate ValidLabel(part: seq<byte>) {
    && 1 <= |part| <= 63 && part[0] != HYPHEN && part[|part| - 1] != HYPHEN
    && forall i :: 0 <= i < |part| ==> Alphanumeric(part[i]) || part[i] == HYPHEN
  }

  /** `validate_hostname`; a byte outside ASCII is refused here or already as bad UTF-8. */
  predicate ValidHostname(host: seq<byte>) {
    && host != [] && |host| <= 253 && host[0] != DOT && host[|host| - 1] != DOT
    && forall part :: part in Split(host) ==> ValidLabel(part)
  }

  /** A label is a letter or digit, or two of them around at most 61 letters, digits and hyphens. */
  lemma LabelIs(a: byte, middle: seq<byte>, b: byte)
    ensures !ValidLabel([])
    ensures ValidLabel([a]) <==> LetterOrDigit(a as char)
    ensures ValidLabel([a] + middle + [b]) <==>
              && |middle| <= 61 && LetterOrDigit(a as char) && LetterOrDigit(b as char)
              && forall i :: 0 <= i < |middle| ==> LetterOrDigit(middle[i] as char) || middle[i] as char == '-'
  {
    var part := [a] + middle + [b];
    assert forall i :: 0 <= i < |middle| ==> part[i + 1] == middle[i];
    assert part[0] == a && part[|part| - 1] == b;
    if ValidLabel(part) {
      forall i | 0 <= i < |middle| ensures LetterOrDigit(middle[i] as char) || middle[i] as char == '-' {
        assert Alphanumeric(part[i + 1]) || part[i + 1] == HYPHEN;
      }
      assert Alphanumeric(part[0]) && Alphanumeric(part[|part| - 1]);
    }
  }

  predicate LetterOrDigit(c: char) { '0' <= c <= '9' || 'A' <= c <= 'Z' || 'a' <= c <= 'z' }

  /** Lowering turns capital letters into small ones and leaves every other byte. */
  lemma LowerIs(s: seq<byte>, i: nat)
    requires i < |s|
    ensures |Lower(s)| == |s|
    ensures Lower(s)[i] as char == if 'A' <= s[i] as char <= 'Z' then (s[i] as int + 32) as char else s[i] as char
  {
  }

  // ---- Requests ----

  function Port(bytes: seq<byte>, at: nat): nat
    requires at + 2 <= |bytes|
  {
    Value(bytes[at]) * 256 + Value(bytes[at + 1])
  }

  predicate Permitted(port: nat) { port == 80 || port == 443 }

  function ParseRequest(bytes: seq<byte>): Result<Target> {
    if |bytes| < 7 || bytes[..3] != [5, 1, 0] then Err(NotConnect)
    else if bytes[3] == 1 && |bytes| >= 10 then
      if Permitted(Port(bytes, 8)) then Ok(Ipv4(bytes[4..8], Port(bytes, 8))) else Err(BadPort)
    else if bytes[3] == 3 then ParseHostname(bytes)
    else if bytes[3] == 4 && |bytes| >= 22 then
      if Permitted(Port(bytes, 20)) then Ok(Ipv6(bytes[4..20], Port(bytes, 20))) else Err(BadPort)
    else Err(BadAddressType)
  }

  function ParseHostname(bytes: seq<byte>): Result<Target>
    requires |bytes| >= 7
  {
    var len := Value(bytes[4]);
    if !(1 <= len <= 253) || |bytes| < 5 + len + 2 then Err(BadHostname)
    else if !ValidHostname(bytes[5..5 + len]) then Err(BadHostname)
    else if Permitted(Port(bytes, 5 + len)) then Ok(Hostname(Lower(bytes[5..5 + len]), Port(bytes, 5 + len)))
    else Err(BadPort)
  }

  /** The targets the agent may be asked for. */
  predicate ValidTarget(t: Target) {
    && Permitted(t.port)
    && match t
       case Hostname(host, _) => ValidHostname(host)
       case Ipv4(octets, _) => |octets| == 4
       case Ipv6(octets, _) => |octets| == 16
  }

  function EncodePort(port: nat): seq<byte>
    requires Permitted(port)
  {
    [port / 256, port % 256]
  }

  /** The CONNECT request of section 4 of RFC 1928. */
  function EncodeRequest(t: Target): seq<byte>
    requires ValidTarget(t)
  {
    match t
    case Hostname(host, port) => [5, 1, 0, 3, |host|] + host + EncodePort(port)
    case Ipv4(octets, port) => [5, 1, 0, 1] + octets + EncodePort(port)
    case Ipv6(octets, port) => [5, 1, 0, 4] + octets + EncodePort(port)
  }

  function Lowered(t: Target): Target { if t.Hostname? then t.(host := Lower(t.host)) else t }

  /** Only the web's ports are permitted; a request for another port is refused for that reason. */
  lemma OtherPortsRefused(host: seq<byte>, v4: seq<byte>, v6: seq<byte>, hi: byte, lo: byte, rest: seq<byte>)
    requires ValidHostname(host) && |v4| == 4 && |v6| == 16 && hi as int * 256 + lo as int !in {80, 443}
    ensures ParseRequest([5, 1, 0, 1] + v4 + [hi, lo] + rest) == Err(BadPort)
    ensures ParseRequest([5, 1, 0, 4] + v6 + [hi, lo] + rest) == Err(BadPort)
    ensures ParseRequest([5, 1, 0, 3, |host|] + host + [hi, lo] + rest) == Err(BadPort)
  {
    PortRefused([5, 1, 0, 1] + v4 + [hi, lo] + rest, 8, hi, lo);
    PortRefused([5, 1, 0, 4] + v6 + [hi, lo] + rest, 20, hi, lo);
    var named := [5, 1, 0, 3, |host|] + host + [hi, lo] + rest;
    assert named[5..5 + |host|] == host;
    PortRefused(named, 5 + |host|, hi, lo);
  }

  lemma PortRefused(bytes: seq<byte>, at: nat, hi: byte, lo: byte)
    requires |bytes| >= at + 2 && at >= 6 && bytes[0] == 5 && bytes[1] == 1 && bytes[2] == 0
    requires bytes[at] == hi && bytes[at + 1] == lo && hi as int * 256 + lo as int !in {80, 443}
    requires (bytes[3] == 1 && at == 8) || (bytes[3] == 4 && at == 20)
             || (bytes[3] == 3 && 1 <= bytes[4] <= 253 && at == 5 + Value(bytes[4]) && ValidHostname(bytes[5..at]))
    ensures ParseRequest(bytes) == Err(BadPort)
  {
    assert bytes[..3] == [5, 1, 0];
  }

  // ---- Parsing is the inverse of encoding ----

  lemma RoundTripIp(t: Target, rest: seq<byte>)
    requires ValidTarget(t) && !t.Hostname?
    ensures ParseRequest(EncodeRequest(t) + rest) == Ok(t)
  {
    var bytes := EncodeRequest(t) + rest;
    assert bytes[..3] == [5, 1, 0];
    assert bytes[4..4 + |t.octets|] == t.octets;
    assert Port(bytes, 4 + |t.octets|) == t.port;
  }

  lemma RoundTripHostname(t: Target, rest: seq<byte>)
    requires ValidTarget(t) && t.Hostname?
    ensures ParseRequest(EncodeRequest(t) + rest) == Ok(Lowered(t))
  {
    var bytes := EncodeRequest(t) + rest;
    assert bytes[..3] == [5, 1, 0];
    assert bytes[5..5 + |t.host|] == t.host;
    assert Port(bytes, 5 + |t.host|) == t.port;
  }

  /** Parsing the encoding of any valid target returns it, whatever follows in the buffer. */
  lemma RoundTrip(t: Target, rest: seq<byte>)
    requires ValidTarget(t)
    ensures ParseRequest(EncodeRequest(t) + rest) == Ok(Lowered(t))
  {
    if t.Hostname? { RoundTripHostname(t, rest); } else { RoundTripIp(t, rest); }
  }

  lemma PortSplits(bytes: seq<byte>, at: nat)
    requires at + 2 <= |bytes| && Permitted(Port(bytes, at))
    ensures bytes[at..at + 2] == EncodePort(Port(bytes, at))
  {
  }

  lemma Reassemble(bytes: seq<byte>, head: seq<byte>, middle: seq<byte>, tail: seq<byte>, at: nat)
    requires |head| <= at <= |bytes| - 2
    requires bytes[..|head|] == head && bytes[|head|..at] == middle && bytes[at..at + 2] == tail
    ensures bytes == head + middle + tail + bytes[at + 2..]
  {
  }

  /** Only encodings of valid targets are accepted. */
  lemma AcceptsOnlyEncodings(bytes: seq<byte>) returns (t: Target, rest: seq<byte>)
    requires ParseRequest(bytes).Ok?
    ensures ValidTarget(t) && bytes == EncodeRequest(t) + rest && ParseRequest(bytes).value == Lowered(t)
  {
    var at := if bytes[3] == 1 then 8 else if bytes[3] == 4 then 20 else 5 + Value(bytes[4]);
    var port := Port(bytes, at);
    PortSplits(bytes, at);
    rest := bytes[at + 2..];
    if bytes[3] == 3 {
      t := Hostname(bytes[5..at], port);
      assert bytes[..5] == bytes[..3] + [bytes[3], bytes[4]];
      Reassemble(bytes, [5, 1, 0, 3, bytes[4]], bytes[5..at], EncodePort(port), at);
    } else {
      t := if bytes[3] == 1 then Ipv4(bytes[4..8], port) else Ipv6(bytes[4..20], port);
      assert bytes[..4] == bytes[..3] + [bytes[3]];
      Reassemble(bytes, [5, 1, 0, bytes[3]], bytes[4..at], EncodePort(port), at);
    }
  }

  // ---- What a valid hostname is ----

  /** Labels joined by dots. */
  function Join(labels: seq<seq<byte>>): seq<byte>
    requires |labels| >= 1
  {
    if |labels| == 1 then labels[0] else labels[0] + [DOT] + Join(labels[1..])
  }

  lemma {:induction false} JoinSplit(host: seq<byte>)
    ensures Join(Split(host)) == host
  {
    if host == [] {
      assert Split(host) == [[]];
    } else {
      var rest := Split(host[1..]);
      JoinSplit(host[1..]);
      if host[0] == DOT {
        assert ([[]] + rest)[1..] == rest;
      } else {
        var first := [host[0]] + rest[0];
        assert ([first] + rest[1..])[1..] == rest[1..];
        if |rest| > 1 {
          assert first + [DOT] + Join(rest[1..]) == [host[0]] + (rest[0] + [DOT] + Join(rest[1..]));
        }
      }
    }
  }

  lemma {:induction false} SplitNothing(part: seq<byte>)
    requires DOT !in part
    ensures Split(part) == [part]
  {
    if part == [] {
      assert Split(part) == [[]];
    } else {
      SplitNothing(part[1..]);
      assert [part[0]] + part[1..] == part;
    }
  }

  lemma {:induction false} SplitFirst(part: seq<byte>, more: seq<byte>)
    requires DOT !in part
    ensures Split(part + [DOT] + more) == [part] + Split(more)
  {
    var all := part + [DOT] + more;
    if part == [] {
      assert all[1..] == more;
    } else {
      SplitFirst(part[1..], more);
      assert all[1..] == part[1..] + [DOT] + more && all[0] == part[0];
      assert [part[0]] + part[1..] == part && ([part[1..]] + Split(more))[1..] == Split(more);
    }
  }

  lemma {:induction false} SplitJoin(labels: seq<seq<byte>>)
    requires |labels| >= 1 && forall i :: 0 <= i < |labels| ==> DOT !in labels[i]
    ensures Split(Join(labels)) == labels
    decreases |labels|
  {
    if |labels| == 1 {
      SplitNothing(labels[0]);
    } else {
      SplitJoin(labels[1..]);
      SplitFirst(labels[0], Join(labels[1..]));
    }
  }

  lemma {:induction false} JoinEnds(labels: seq<seq<byte>>)
    requires |labels| >= 1 && forall i :: 0 <= i < |labels| ==> ValidLabel(labels[i])
    ensures var host := Join(labels); host != [] && host[0] != DOT && host[|host| - 1] != DOT
    decreases |labels|
  {
    if |labels| > 1 { JoinEnds(labels[1..]); }
  }

  /** Valid hostnames are exactly the dot-joined sequences of valid labels of at most 253 bytes. */
  lemma HostnamesAreJoinedLabels(labels: seq<seq<byte>>)
    requires |labels| >= 1 && forall i :: 0 <= i < |labels| ==> ValidLabel(labels[i])
    ensures ValidHostname(Join(labels)) <==> |Join(labels)| <= 253
  {
    SplitJoin(labels);
    JoinEnds(labels);
  }

  lemma EveryHostnameIsJoined(host: seq<byte>)
    requires ValidHostname(host)
    ensures host == Join(Split(host)) && forall i :: 0 <= i < |Split(host)| ==> ValidLabel(Split(host)[i])
  {
    JoinSplit(host);
  }

  lemma SplitStep(host: seq<byte>)
    requires host != []
    ensures var rest := Split(host[1..]);
            && |Split(host)| == |rest| + (if host[0] == DOT then 1 else 0)
            && (host[0] == DOT ==> Split(host)[0] == []
                                   && forall i :: 1 <= i <= |rest| ==> Split(host)[i] == rest[i - 1])
            && (host[0] != DOT ==> Split(host)[0] == [host[0]] + rest[0]
                                   && forall i :: 1 <= i < |rest| ==> Split(host)[i] == rest[i])
  {
  }

  lemma LowerCons(b: byte, s: seq<byte>)
    ensures Lower([b] + s) == [LowerByte(b)] + Lower(s)
  {
    assert ([b] + s)[1..] == s;
  }

  lemma {:induction false} SplitLower(host: seq<byte>)
    ensures |Split(Lower(host))| == |Split(host)|
    ensures forall i :: 0 <= i < |Split(host)| ==> Split(Lower(host))[i] == Lower(Split(host)[i])
  {
    if host == [] {
      assert Split(host) == [[]] && Lower(host) == [];
    } else {
      SplitLower(host[1..]);
      assert Lower(host)[1..] == Lower(host[1..]) && Lower(host)[0] == LowerByte(host[0]);
      SplitStep(host);
      SplitStep(Lower(host));
      LowerCons(host[0], Split(host[1..])[0]);
    }
  }

  lemma LowerKeepsLabel(part: seq<byte>)
    requires ValidLabel(part)
    ensures ValidLabel(Lower(part))
  {
  }

  lemma LowerKeepsLabels(host: seq<byte>, part: seq<byte>)
    requires (forall p :: p in Split(host) ==> ValidLabel(p)) && part in Split(Lower(host))
    ensures ValidLabel(part)
  {
    SplitLower(host);
    var i :| 0 <= i < |Split(host)| && Split(Lower(host))[i] == part;
    assert Split(host)[i] in Split(host);
    LowerKeepsLabel(Split(host)[i]);
  }

  lemma LowerKeepsValid(host: seq<byte>)
    requires ValidHostname(host)
    ensures ValidHostname(Lower(host)) && Lower(Lower(host)) == Lower(host)
  {
    forall part | part in Split(Lower(host)) ensures ValidLabel(part) {
      LowerKeepsLabels(host, part);
    }
  }

  /** What the parser returns is a normal form: encoded and parsed again it is unchanged. */
  lemma ParsedIsNormal(bytes: seq<byte>)
    requires ParseRequest(bytes).Ok?
    ensures var t := ParseRequest(bytes).value; ValidTarget(t) && ParseRequest(EncodeRequest(t)) == Ok(t)
  {
    var t, rest := AcceptsOnlyEncodings(bytes);
    if t.Hostname? { LowerKeepsValid(t.host); }
    var u := Lowered(t);
    RoundTrip(u, []);
    assert EncodeRequest(u) + [] == EncodeRequest(u);
  }

  // ---- Negotiation ----

  /** Both directions of a connection: what the client will still send, and what it has been sent. */
  class Stream {
    var input: seq<byte>
    var output: seq<byte>

    constructor (sent: seq<byte>)
      ensures input == sent && output == []
    {
      input, output := sent, [];
    }

    /** `read_exact`: all of the bytes, or the end of the stream. */
    method ReadExact(n: nat) returns (r: Result<seq<byte>>)
      modifies this`input
      ensures |old(input)| >= n ==> r == Ok(old(input)[..n]) && input == old(input)[n..]
      ensures |old(input)| < n ==> r == Err(EndOfStream) && input == []
    {
      if |input| < n {
        input := [];
        return Err(EndOfStream);
      }
      r := Ok(input[..n]);
      input := input[n..];
    }

    method WriteAll(bytes: seq<byte>)
      modifies this`output
      ensures output == old(output) + bytes
    {
      output := output + bytes;
    }
  }

  /** How a negotiation ends: its result, what is left unread and what was written. */
  datatype Outcome = Outcome(result: Result<Target>, rest: seq<byte>, written: seq<byte>)

  /** How many bytes the request that starts `s` has; `s` holds at least its first five. */
  function RequestLength(s: seq<byte>): nat
    requires |s| >= 5
  {
    if s[3] == 1 then 10 else if s[3] == 4 then 22 else 5 + Value(s[4]) + 2
  }

  const REFUSAL: seq<byte> := [5, 8, 0, 1, 0, 0, 0, 0, 0, 0]

  /** The request part of a negotiation, as a function of the bytes to come. */
  function RequestOutcome(s: seq<byte>): Outcome {
    if |s| < 4 then Outcome(Err(EndOfStream), [], [])
    else if s[3] != 1 && s[3] != 3 && s[3] != 4 then Outcome(Err(UnsupportedAddress), s[4..], REFUSAL)
    else if |s| < 5 || |s| < RequestLength(s) then Outcome(Err(EndOfStream), [], [])
    else Outcome(ParseRequest(s[..RequestLength(s)]), s[RequestLength(s)..], [])
  }

  function NegotiationOutcome(s: seq<byte>): Outcome {
    if |s| < 2 then Outcome(Err(EndOfStream), [], [])
    else if s[0] != 5 || s[1] == 0 then Outcome(Err(BadGreeting), s[2..], [])
    else if |s| < 2 + Value(s[1]) then Outcome(Err(EndOfStream), [], [])
    else if 0 !in s[2..2 + Value(s[1])] then Outcome(Err(NoAuthUnavailable), s[2 + Value(s[1])..], [5, 255])
    else
      var o := RequestOutcome(s[2 + Value(s[1])..]);
      o.(written := [5, 0] + o.written)
  }

  /** The request loop of `negotiate`: head, the length byte of a hostname, then the tail. */
  method ReadRequest(stream: Stream) returns (r: Result<Target>)
    modifies stream
    ensures var o := RequestOutcome(old(stream.input));
            r == o.result && stream.input == o.rest && stream.output == old(stream.output) + o.written
  {
    ghost var s := stream.input;
    var head := stream.ReadExact(4);
    if head.Err? { return Err(head.error); }
    var request := head.value;
    var tailLength: nat;
    if request[3] == 1 {
      tailLength := 6;
    } else if request[3] == 4 {
      tailLength := 18;
    } else if request[3] == 3 {
      var length := stream.ReadExact(1);
      if length.Err? { return Err(length.error); }
      tailLength := Value(length.value[0]) + 2;
      request := request + [tailLength - 2];
    } else {
      stream.WriteAll(REFUSAL);
      return Err(UnsupportedAddress);
    }
    assert |s| >= |request| && request == s[..|request|] && stream.input == s[|request|..];
    var tail := stream.ReadExact(tailLength);
    if tail.Err? { return Err(tail.error); }
    request := request + tail.value;
    assert request == s[..|request|] && stream.input == s[|request|..];
    return ParseRequest(request);
  }

  method Negotiate(stream: Stream) returns (r: Result<Target>)
    modifies stream
    ensures var o := NegotiationOutcome(old(stream.input));
            r == o.result && stream.input == o.rest && stream.output == old(stream.output) + o.written
  {
    ghost var s := stream.input;
    var greeting := stream.ReadExact(2);
    if greeting.Err? { return Err(greeting.error); }
    if greeting.value[0] != 5 || greeting.value[1] == 0 {
      return Err(BadGreeting);
    }
    var methods := stream.ReadExact(greeting.value[1]);
    if methods.Err? { return Err(methods.error); }
    assert methods.value == s[2..2 + Value(s[1])] && stream.input == s[2 + Value(s[1])..];
    if 0 !in methods.value {
      stream.WriteAll([5, 255]);
      return Err(NoAuthUnavailable);
    }
    stream.WriteAll([5, 0]);
    r := ReadRequest(stream);
  }

  // ---- What a negotiation consumes ----

  /** The greeting of section 3 of RFC 1928, offering "no authentication" among its methods. */
  predicate ValidGreeting(g: seq<byte>) { |g| >= 2 && g[0] == 5 && |g| == 2 + Value(g[1]) && 0 in g[2..] }

  lemma GreetingIsRead(g: seq<byte>, body: seq<byte>)
    requires ValidGreeting(g)
    ensures NegotiationOutcome(g + body) == RequestOutcome(body).(written := [5, 0] + RequestOutcome(body).written)
  {
    var s := g + body;
    assert s[2..2 + Value(s[1])] == g[2..] && s[2 + Value(s[1])..] == body;
  }

  /** A greeting of another version, or one that offers no method at all, is dropped without an answer. */
  lemma GreetingDropped(version: byte, count: byte, rest: seq<byte>)
    requires version != 5 || count == 0
    ensures NegotiationOutcome([version, count] + rest) == Outcome(Err(BadGreeting), rest, [])
  {
    assert ([version, count] + rest)[2..] == rest;
  }

  /** A greeting without "no authentication" among its methods is answered with 255, and nothing more is read. */
  lemma NoCommonMethod(methods: seq<byte>, rest: seq<byte>)
    requires 1 <= |methods| <= 255 && 0 !in methods
    ensures NegotiationOutcome([5, |methods|] + methods + rest) == Outcome(Err(NoAuthUnavailable), rest, [5, 255])
  {
    var s := [5, |methods|] + methods + rest;
    assert s[2..2 + |methods|] == methods && s[2 + |methods|..] == rest;
  }

  /** A stream that ends within the greeting or its methods gets no answer. */
  lemma GreetingCutOff(version: byte, methods: seq<byte>, count: byte)
    requires |methods| < Value(count)
    ensures NegotiationOutcome([]) == Outcome(Err(EndOfStream), [], [])
    ensures NegotiationOutcome([version]) == Outcome(Err(EndOfStream), [], [])
    ensures NegotiationOutcome([5, count] + methods) == Outcome(Err(EndOfStream), [], [])
  {
  }

  /** After a valid greeting, a request of another address type is answered with code 8 and refused. */
  lemma OtherAddressesRefused(g: seq<byte>, a: byte, b: byte, c: byte, kind: byte, rest: seq<byte>)
    requires ValidGreeting(g) && kind !in {1, 3, 4}
    ensures NegotiationOutcome(g + ([a, b, c, kind] + rest))
            == Outcome(Err(UnsupportedAddress), rest, [5, 0, 5, 8, 0, 1, 0, 0, 0, 0, 0, 0])
  {
    var s := [a, b, c, kind] + rest;
    GreetingIsRead(g, s);
    assert s[4..] == rest;
  }

  lemma EncodedLength(t: Target, rest: seq<byte>)
    requires ValidTarget(t)
    ensures var s := EncodeRequest(t) + rest;
            |s| >= 5 && (s[3] == 1 || s[3] == 3 || s[3] == 4) && RequestLength(s) == |EncodeRequest(t)|
  {
  }

  /**
    From any stream that starts with a valid greeting and the request for a valid target, a negotiation
    takes exactly those bytes, answers "no authentication" and returns the target.
  */
  lemma ConsumesExactly(g: seq<byte>, t: Target, rest: seq<byte>)
    requires ValidGreeting(g) && ValidTarget(t)
    ensures NegotiationOutcome(g + EncodeRequest(t) + rest) == Outcome(Ok(Lowered(t)), rest, [5, 0])
  {
    var request := EncodeRequest(t);
    var s := request + rest;
    assert g + request + rest == g + s;
    GreetingIsRead(g, s);
    EncodedLength(t, rest);
    assert s[..|request|] == request && s[|request|..] == rest && request + [] == request;
    RoundTrip(t, []);
  }

  /** Bytes behind a complete request make no difference to the parser. */
  lemma TrailingBytesDoNotMatter(request: seq<byte>, rest: seq<byte>)
    requires |request| >= 7 && (request[3] == 1 || request[3] == 3 || request[3] == 4)
    requires |request| == RequestLength(request)
    ensures ParseRequest(request + rest) == ParseRequest(request)
  {
    var s := request + rest;
    var n := |request|;
    assert s[..3] == request[..3] && s[4..n - 2] == request[4..n - 2] && s[5..n - 2] == request[5..n - 2];
    assert Port(s, n - 2) == Port(request, n - 2);
  }

  /** Wherever a stream holds a complete request, the negotiation agrees with the parser on all that is left of it. */
  lemma AgreesWithParser(g: seq<byte>, body: seq<byte>)
    requires ValidGreeting(g) && |body| >= 5 && (body[3] == 1 || body[3] == 3 || body[3] == 4)
    requires |body| >= RequestLength(body)
    ensures var o := NegotiationOutcome(g + body);
            o.result == ParseRequest(body) && o.rest == body[RequestLength(body)..] && o.written == [5, 0]
  {
    var n := RequestLength(body);
    GreetingIsRead(g, body);
    assert body == body[..n] + body[n..];
    TrailingBytesDoNotMatter(body[..n], body[n..]);
  }
}
