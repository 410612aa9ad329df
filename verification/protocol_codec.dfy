/** The JSON codec of TransportProtocol: a two-valued enumeration whose zero
    value, TCP, is also what every rejected input decodes to. */
module ProtocolCodec {
  import opened JsonValues
  import opened Text

  /** TCP is the Go zero value. */
  datatype TransportProtocol = TransportProtocolTCP | TransportProtocolUDP

  const WireTCP: string := "\"tcp\""
  const WireUDP: string := "\"udp\""

  /** `TransportProtocol.UnmarshalJSON`. Only the exact bytes `"tcp"` and
      `"udp"` are protocol names; `null` in any case is TCP without error;
      everything else is TCP with an error that quotes the input. */
  function UnmarshalTransportProtocol(b: string): (r: Call<TransportProtocol>)
    ensures r.Returned?
    ensures r.receiver == TransportProtocolUDP <==> b == WireUDP
    ensures r.err.None? <==> IsNullLiteral(b) || b == WireTCP || b == WireUDP
    ensures r.err.Some? ==>
      && r.err.value.Message?
      && |b| <= |r.err.value.text|
      && r.err.value.text[|r.err.value.text| - |b|..] == b
  {
    if IsNullLiteral(b) then Returned(TransportProtocolTCP, None)
    else if b == WireTCP then Returned(TransportProtocolTCP, None)
    else if b == WireUDP then Returned(TransportProtocolUDP, None)
    else Returned(TransportProtocolTCP, Some(Message("TransportProtocol must be \"tcp\" or \"udp\"; Got " + b)))
  }

  /** `TransportProtocol.MarshalJSON`, given its `String()`; `None` is the nil
      receiver, which encodes to `null` (unlike the status types). */
  function MarshalTransportProtocol(name: TransportProtocol -> string, p: Option<TransportProtocol>): (r: string)
    ensures p.None? ==> r == "null" && IsNullLiteral(r)
    ensures p.Some? ==> |r| >= 2 && r[0] == '"' && r[|r| - 1] == '"' && r[1..|r| - 1] == name(p.value)
  {
    match p
    case None => "null"
    case Some(v) => Quote(name(v))
  }

  /** With the names `tcp` and `udp`, every protocol and the nil receiver
      survive encode-then-decode; nil comes back as the default, TCP. */
  lemma ProtocolRoundTrip(name: TransportProtocol -> string, p: Option<TransportProtocol>)
    requires name(TransportProtocolTCP) == "tcp" && name(TransportProtocolUDP) == "udp"
    ensures UnmarshalTransportProtocol(MarshalTransportProtocol(name, p)) ==
      Returned(if p.Some? then p.value else TransportProtocolTCP, None)
  {
    match p
    case None =>
      assert MarshalTransportProtocol(name, p) == "null";
      NullLiteralSpellings("null");
    case Some(TransportProtocolTCP) =>
      assert MarshalTransportProtocol(name, p) == WireTCP;
      QuotedIsNotNull("tcp");
    case Some(TransportProtocolUDP) =>
      assert MarshalTransportProtocol(name, p) == WireUDP;
      QuotedIsNotNull("udp");
  }

  /** The names are case-sensitive although `null` is not: `"UDP"` is TCP with
      an error, while `NULL` is TCP without one. */
  lemma ProtocolNameIsCaseSensitive()
    ensures UnmarshalTransportProtocol("\"UDP\"").receiver == TransportProtocolTCP
    ensures UnmarshalTransportProtocol("\"UDP\"").err.Some?
    ensures UnmarshalTransportProtocol("NULL") == Returned(TransportProtocolTCP, None)
  {
  }
}
