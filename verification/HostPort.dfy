/**
 Go's net.SplitHostPort, following its scan for the last colon and the first closing
 bracket, and the grammar it accepts: `host:port`, or `[host]:port` with an IP literal
 in brackets as in section 3.2.2 of RFC 3986.
 */
module HostPort {
  import opened Results
  import opened GoStrings

  datatype AddrError =
    | MissingPort
    | TooManyColons
    | MissingBracket
    | UnexpectedOpenBracket
    | UnexpectedCloseBracket

  function SplitHostPort(hostport: string): Result<(string, string), AddrError> {
    var i := LastIndexByte(hostport, ':');
    if i < 0 then Err(MissingPort)
    else if hostport[0] == '[' then
      var end := IndexByte(hostport, ']');
      if end < 0 then Err(MissingBracket)
      else if end + 1 == |hostport| then Err(MissingPort)
      else if end + 1 != i then
        if hostport[end + 1] == ':' then Err(TooManyColons) else Err(MissingPort)
      else if '[' in hostport[1..] then Err(UnexpectedOpenBracket)
      else if ']' in hostport[end + 1..] then Err(UnexpectedCloseBracket)
      else Ok((hostport[1..end], hostport[i + 1..]))
    else if ':' in hostport[..i] then Err(TooManyColons)
    else if '[' in hostport then Err(UnexpectedOpenBracket)
    else if ']' in hostport then Err(UnexpectedCloseBracket)
    else Ok((hostport[..i], hostport[i + 1..]))
  }

  /** No colon and no bracket. */
  predicate Bare(s: string) { ':' !in s && '[' !in s && ']' !in s }

  /** No bracket; colons are fine, as in an IPv6 address. */
  predicate Unbracketed(s: string) { '[' !in s && ']' !in s }

  predicate PlainForm(s: string, host: string, port: string) {
    Bare(host) && Bare(port) && s == host + [':'] + port
  }

  predicate BracketForm(s: string, host: string, port: string) {
    Unbracketed(host) && Bare(port) && s == ['['] + host + [']', ':'] + port
  }

  predicate Splittable(s: string) { SplitHostPort(s).Ok? }

  lemma PlainSplits(s: string, host: string, port: string)
    requires PlainForm(s, host, port)
    ensures SplitHostPort(s) == Ok((host, port))
  {
    var i := |host|;
    assert s[..i] == host && s[i] == ':' && s[i + 1..] == port;
    assert forall j | i < j < |s| :: s[j] == port[j - i - 1];
    assert LastIndexByte(s, ':') == i;
    assert Unbracketed(s);
  }

  lemma BracketScan(s: string, host: string, port: string)
    requires BracketForm(s, host, port)
    ensures |s| == |host| + 3 + |port| && s[0] == '['
    ensures IndexByte(s, ']') == |host| + 1 && LastIndexByte(s, ':') == |host| + 2
    ensures s[1..|host| + 1] == host && s[|host| + 3..] == port
    ensures forall j | 1 <= j < |s| :: s[j] != '['
    ensures forall j | |host| + 2 <= j < |s| :: s[j] != ']'
  {
    BracketPlaces(s, host, port);
    assert forall j | 1 <= j <= |host| :: s[j] in host;
    assert forall j | |host| + 3 <= j < |s| :: s[j] in port;
    assert IndexByte(s, ']') == |host| + 1;
    assert LastIndexByte(s, ':') == |host| + 2;
  }

  /** Where each character of the bracketed form stands. */
  lemma BracketPlaces(s: string, host: string, port: string)
    requires s == ['['] + host + [']', ':'] + port
    ensures |s| == |host| + 3 + |port| && s[0] == '[' && s[|host| + 1] == ']' && s[|host| + 2] == ':'
    ensures forall j | 1 <= j <= |host| :: s[j] == host[j - 1]
    ensures forall j | |host| + 3 <= j < |s| :: s[j] == port[j - |host| - 3]
  {
    var open := ['['] + host + [']', ':'];
    assert s == open + port && |open| == |host| + 3;
    assert forall j | 0 <= j < |host| + 3 :: s[j] == open[j];
  }

  lemma BracketSplits(s: string, host: string, port: string)
    requires BracketForm(s, host, port)
    ensures SplitHostPort(s) == Ok((host, port))
  {
    BracketScan(s, host, port);
    assert '[' !in s[1..] && ']' !in s[|host| + 2..];
  }

  lemma SplitsUnbracketed(s: string, host: string, port: string)
    requires SplitHostPort(s) == Ok((host, port)) && s[0] != '['
    ensures PlainForm(s, host, port)
  {
    var i := LastIndexByte(s, ':');
    assert s == s[..i] + [':'] + s[i + 1..];
    assert forall c <- host :: c in s;
    assert forall c <- port :: c in s;
  }

  lemma SplitsBracketed(s: string, host: string, port: string)
    requires SplitHostPort(s) == Ok((host, port)) && s[0] == '['
    ensures BracketForm(s, host, port)
  {
    var i, end := LastIndexByte(s, ':'), IndexByte(s, ']');
    assert s == [s[0]] + s[1..end] + [s[end], s[i]] + s[i + 1..];
    assert forall c <- host :: c in s[1..] && c in s[..end];
    assert forall c <- port :: c in s[end + 1..] && c in s[1..];
  }

  /** The scan accepts exactly the two written forms, and returns their parts. */
  lemma SplitHostPortGrammar(s: string, host: string, port: string)
    ensures SplitHostPort(s) == Ok((host, port)) <==> PlainForm(s, host, port) || BracketForm(s, host, port)
  {
    if PlainForm(s, host, port) { PlainSplits(s, host, port); }
    if BracketForm(s, host, port) { BracketSplits(s, host, port); }
    if SplitHostPort(s) == Ok((host, port)) {
      if s[0] == '[' {
        SplitsBracketed(s, host, port);
      } else {
        SplitsUnbracketed(s, host, port);
      }
    }
  }
}
