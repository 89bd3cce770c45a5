/**
 * The network tab: DNS resolve, TCP connect and HTTP GET. Each button first
 * checks its input fields, then (for TCP and HTTP) consults the policy gate,
 * and only then hands the target to a background worker. The worker's
 * network call is foreign: its result is a parameter here, and the worker is
 * modelled by the outcome it logs.
 */
module Network {
  import opened Wrappers
  import opened Text

  const LoopbackPrefix := "127."
  const LocalhostName := "localhost"
  /** The hosts the HTTP gate lets through when external traffic is not allowed. */
  const HttpLocalHosts := {"localhost", "127.0.0.1"}
  /** At most this many bytes of an HTTP body are read. */
  const HttpReadLimit := 512

  // ---------------------------------------------------------------- policy gate

  /** The TCP gate: open when external traffic is allowed, otherwise only for `localhost` and `127.` targets. */
  predicate TcpAllowed(ip: string, allowExternal: bool)
  {
    allowExternal || StartsWith(ip, LoopbackPrefix) || ip == LocalhostName
  }

  /**
   * The HTTP gate, on the URL's parsed host name: it closes only when
   * external traffic is not allowed and there is a non-empty host name
   * other than `localhost` and `127.0.0.1`.
   */
  predicate HttpBlocked(host: Option<string>, allowExternal: bool)
  {
    !allowExternal && host.Some? && host.value != "" && host.value !in HttpLocalHosts
  }

  // ---------------------------------------------------------------- DNS resolve

  datatype ResolveOutcome =
    | HostRequired             // "Input required" dialog, nothing logged
    | Resolving(host: string)  // a worker looks the host up

  /** The Resolve DNS button: any non-blank host is looked up; there is no gate. */
  function Resolve(hostField: string): (r: ResolveOutcome)
    ensures r.HostRequired? <==> forall k | 0 <= k < |hostField| :: IsSpace(hostField[k])
    ensures r.Resolving? ==> r.host == Strip(hostField) && r.host != []
  {
    var host := Strip(hostField);
    if host == "" then HostRequired else Resolving(host)
  }

  /** The resolve worker's log line, given what `socket.gethostbyname` returned or the error it raised. */
  function ResolveMessage(host: string, lookup: Result<string, string>): (line: string)
    ensures StartsWith(line, "DNS resolve")
    ensures StartsWith(line, "DNS resolved ") <==> lookup.Ok?
    ensures lookup.Err? ==> StartsWith(line, "DNS resolve error for " + host + ": ")
  {
    match lookup
    case Ok(ip) => "DNS resolved " + host + " -> " + ip
    case Err(e) =>
      var line := "DNS resolve error for " + host + ": " + e;
      assert line[11] == ' ' != "DNS resolved "[11];
      line
  }

  // ---------------------------------------------------------------- TCP connect

  datatype TcpOutcome =
    | TcpInputRequired               // "Input required" dialog
    | TcpInvalidPort                 // "Invalid port" dialog
    | TcpBlocked                     // "Blocked" warning
    | TcpAttempt(ip: string, port: int)  // a worker connects

  /**
   * The TCP Connect button with the flag's value. The checks run in order:
   * both fields present, the port an integer, then the gate. The port is
   * not range-checked here; an out-of-range port fails in the worker.
   */
  function TcpConnect(ipField: string, portField: string, allowExternal: bool): (r: TcpOutcome)
    ensures r.TcpInputRequired? <==> Strip(ipField) == [] || Strip(portField) == []
    ensures r.TcpInvalidPort? <==> Strip(ipField) != [] && Strip(portField) != [] && ParseInt(Strip(portField)).None?
    ensures r.TcpBlocked? ==> !allowExternal
    ensures r.TcpBlocked? || r.TcpAttempt? ==> ParseInt(Strip(portField)).Some?
    ensures r.TcpAttempt? ==> r.ip == Strip(ipField) && ParseInt(Strip(portField)) == Some(r.port)
    ensures r.TcpBlocked? || r.TcpAttempt? ==> (r.TcpAttempt? <==> TcpAllowed(Strip(ipField), allowExternal))
  {
    var ip := Strip(ipField);
    var portText := Strip(portField);
    if ip == "" || portText == "" then TcpInputRequired
    else
      match ParseInt(portText)
      case None => TcpInvalidPort
      case Some(port) =>
        if !allowExternal && !StartsWith(ip, LoopbackPrefix) && ip != LocalhostName then TcpBlocked
        else TcpAttempt(ip, port)
  }

  /** The TCP worker's log line, given `None` for a connection made or the error raised. */
  function TcpMessage(ip: string, port: int, failure: Option<string>): (line: string)
    ensures StartsWith(line, "TCP connect success to ") <==> failure.None?
    ensures failure.Some? ==> StartsWith(line, "TCP connect failed to " + ip + ":" + IntToString(port) + " - ")
  {
    match failure
    case None => "TCP connect success to " + ip + ":" + IntToString(port)
    case Some(e) =>
      var line := "TCP connect failed to " + ip + ":" + IntToString(port) + " - " + e;
      assert line[12] == 'f' != "TCP connect success to "[12];
      line
  }

  /** With external traffic not allowed, well-formed input is attempted exactly for `127.` and `localhost` targets, and blocked otherwise. */
  lemma TcpLocalOnly(ipField: string, portField: string)
    requires Strip(ipField) != [] && ParseInt(Strip(portField)).Some?
    ensures var r := TcpConnect(ipField, portField, false);
      && (r.TcpAttempt? <==> StartsWith(Strip(ipField), "127.") || Strip(ipField) == "localhost")
      && (r.TcpBlocked? <==> !r.TcpAttempt?)
  {
  }

  /**
   * For a target with no surrounding spaces and a port written in decimal
   * (which `str()` does up to `MaxStrDigits` digits), the outcome is the
   * gate's verdict alone.
   */
  lemma TcpWellFormed(ip: string, port: int, allowExternal: bool)
    requires ip != [] && !IsSpace(ip[0]) && !IsSpace(ip[|ip| - 1])
    requires |NatDigits(if port < 0 then -port else port)| <= MaxStrDigits
    ensures TcpAllowed(ip, allowExternal) ==> TcpConnect(ip, IntToString(port), allowExternal) == TcpAttempt(ip, port)
    ensures !TcpAllowed(ip, allowExternal) ==> TcpConnect(ip, IntToString(port), allowExternal) == TcpBlocked
  {
    StripUnpadded(ip);
    var text := IntToString(port);
    assert !IsSpace(text[0]) && !IsSpace(text[|text| - 1]);
    StripUnpadded(text);
    IntToStringRoundTrip(port);
  }

  /** With external traffic allowed, the TCP gate never blocks, whatever the target. */
  lemma TcpOpenWhenAllowed(ipField: string, portField: string)
    ensures !TcpConnect(ipField, portField, true).TcpBlocked?
  {
  }

  /** A non-integer port is refused before the gate: even an external target with the gate closed gets the port error. */
  lemma TcpPortCheckedBeforeGate(ipField: string, portField: string, allowExternal: bool)
    requires Strip(ipField) != [] && Strip(portField) != []
    requires ParseInt(Strip(portField)).None?
    ensures TcpConnect(ipField, portField, allowExternal) == TcpInvalidPort
  {
  }

  /**
   * A port field of 5000 digits is more than `int()` reads: the button shows
   * the invalid-port dialog, even for a loopback target.
   */
  lemma TcpPortTooLong()
    ensures TcpConnect("127.0.0.1", seq(5000, _ => '1'), false) == TcpInvalidPort
  {
    var port := seq(5000, _ => '1');
    StripUnpadded(port);
    StripUnpadded("127.0.0.1");
    DigitCountAll(port);
    TooManyDigits(port);
  }

  /** The gate is lexical: a host name that merely begins with `127.` passes it. */
  lemma TcpGateAdmits127Names()
    ensures TcpConnect("127.example.com", "80", false) == TcpAttempt("127.example.com", 80)
  {
    assert IntToString(80) == "80";
    assert TcpAllowed("127.example.com", false) by {
      assert "127.example.com"[..4] == "127.";
    }
    TcpWellFormed("127.example.com", 80, false);
  }

  // ---------------------------------------------------------------- HTTP GET

  /** What `urllib.request.urlparse(url).hostname` gives: a host name or `None`, or a `ValueError`. */
  datatype UrlHost = Parsed(host: Option<string>) | Unparsable

  datatype HttpOutcome =
    | UrlRequired           // "Input required" dialog
    | HttpRefused           // "Blocked" warning
    | HttpAborted           // `urlparse` raised; the callback ends with the exception, nothing logged
    | HttpAttempt(url: string)  // a worker fetches the URL

  /**
   * The HTTP GET button with the flag's value. The URL is parsed only when
   * external traffic is not allowed; `urlHost` is what parsing the stripped
   * URL gives.
   */
  function HttpGet(urlField: string, allowExternal: bool, urlHost: UrlHost): (r: HttpOutcome)
    ensures r.UrlRequired? <==> Strip(urlField) == []
    ensures allowExternal && Strip(urlField) != [] ==> r == HttpAttempt(Strip(urlField))
    ensures r.HttpAttempt? ==> r.url == Strip(urlField)
    ensures !allowExternal && Strip(urlField) != [] && urlHost.Parsed? ==>
      (r.HttpRefused? <==> HttpBlocked(urlHost.host, false)) && (r.HttpRefused? || r.HttpAttempt?)
    ensures !allowExternal && Strip(urlField) != [] && urlHost.Unparsable? ==> r == HttpAborted
  {
    var url := Strip(urlField);
    if url == "" then UrlRequired
    else if !allowExternal then
      match urlHost
      case Unparsable => HttpAborted
      case Parsed(host) =>
        if host.Some? && host.value != "" && host.value !in HttpLocalHosts then HttpRefused
        else HttpAttempt(url)
    else HttpAttempt(url)
  }

  /** For a URL with no surrounding spaces that parses, the outcome is the gate's verdict alone. */
  lemma HttpWellFormed(url: string, allowExternal: bool, host: Option<string>)
    requires url != [] && !IsSpace(url[0]) && !IsSpace(url[|url| - 1])
    ensures HttpBlocked(host, allowExternal) ==> HttpGet(url, allowExternal, Parsed(host)) == HttpRefused
    ensures !HttpBlocked(host, allowExternal) ==> HttpGet(url, allowExternal, Parsed(host)) == HttpAttempt(url)
  {
    StripUnpadded(url);
  }

  /** A URL without a host name (none, or empty) is never blocked by the HTTP gate. */
  lemma HttpHostlessNeverBlocked(urlField: string, allowExternal: bool, host: Option<string>)
    requires host.None? || host == Some("")
    ensures !HttpGet(urlField, allowExternal, Parsed(host)).HttpRefused?
  {
  }

  lemma TcpAdmits127002()
    ensures TcpConnect("127.0.0.2", "80", false) == TcpAttempt("127.0.0.2", 80)
  {
    assert IntToString(80) == "80";
    assert TcpAllowed("127.0.0.2", false) by {
      assert "127.0.0.2"[..4] == "127.";
    }
    TcpWellFormed("127.0.0.2", 80, false);
  }

  lemma HttpRefuses127002()
    ensures HttpGet("http://127.0.0.2/", false, Parsed(Some("127.0.0.2"))) == HttpRefused
  {
    assert HttpBlocked(Some("127.0.0.2"), false) by {
      assert "127.0.0.2"[8] != "127.0.0.1"[8];
      assert "127.0.0.2"[0] != "localhost"[0];
    }
    HttpWellFormed("http://127.0.0.2/", false, Some("127.0.0.2"));
  }

  /** The two gates differ: `127.0.0.2` passes the TCP gate but is blocked for HTTP. */
  lemma GatesDisagreeOn127002()
    ensures TcpConnect("127.0.0.2", "80", false) == TcpAttempt("127.0.0.2", 80)
    ensures HttpGet("http://127.0.0.2/", false, Parsed(Some("127.0.0.2"))) == HttpRefused
  {
    TcpAdmits127002();
    HttpRefuses127002();
  }

  /**
   * A response, as `urlopen` returns it: a status and the body still to be
   * read. The status is `None` for the responses of `file:` and `data:` URLs,
   * which carry no HTTP status.
   */
  datatype Response = Response(status: Option<int>, body: seq<bv8>)

  datatype HttpResult =
    | Fetched(url: string, status: Option<int>, length: nat)
    | Failed(url: string, reason: string)

  /**
   * The HTTP worker: `r.read(512)` takes at most 512 bytes of the body, and
   * the reported length is the number of bytes read.
   */
  function HttpWorker(url: string, response: Result<Response, string>): (r: HttpResult)
    ensures r.url == url
    ensures response.Ok? ==> r.Fetched? && r.status == response.value.status
    ensures r.Fetched? ==> r.length <= HttpReadLimit
    ensures response.Ok? ==> r.length == if |response.value.body| < HttpReadLimit then |response.value.body| else HttpReadLimit
    ensures response.Err? ==> r == Failed(url, response.error)
  {
    match response
    case Ok(resp) =>
      var read := if |resp.body| <= HttpReadLimit then resp.body else resp.body[..HttpReadLimit];
      Fetched(url, resp.status, |read|)
    case Err(e) => Failed(url, e)
  }

  /** `str()` of a response's status: the number in decimal, or `None`. */
  function StatusText(status: Option<int>): (t: string)
    ensures t == "None" <==> status.None?
  {
    match status
    case None => "None"
    case Some(code) =>
      var t := IntToString(code);
      assert t[0] != 'N';
      t
  }

  /** The HTTP worker's log line. */
  function HttpMessage(r: HttpResult): (line: string)
    ensures StartsWith(line, "HTTP GET ")
    ensures r.Failed? ==> StartsWith(line, "HTTP GET failed " + r.url + " - ")
    ensures r.Fetched? ==> EndsWith(line, " len=" + IntToString(r.length))
  {
    match r
    case Fetched(url, status, length) =>
      "HTTP GET " + url + " status=" + StatusText(status) + " len=" + IntToString(length)
    case Failed(url, reason) => "HTTP GET failed " + url + " - " + reason
  }

  // ---------------------------------------------------------------- the flag as written

  /**
   * The application's `allow_external` is a Tk `BooleanVar` object; its
   * value is what `.get()` returns.
   */
  datatype BooleanVar = BooleanVar(value: bool)

  /**
   * Python's truth value of a `BooleanVar` object: its class defines neither
   * `__bool__` nor `__len__`, so every instance is true, whatever it holds.
   */
  function Truth(v: BooleanVar): bool
  {
    true
  }

  /** The TCP button as written: `not self.app.allow_external` tests the object, not its value. */
  function TcpConnectAsWritten(ipField: string, portField: string, flag: BooleanVar): (r: TcpOutcome)
    ensures !r.TcpBlocked?
  {
    TcpConnect(ipField, portField, Truth(flag))
  }

  /** The HTTP button as written, with the same test of the object. */
  function HttpGetAsWritten(urlField: string, flag: BooleanVar, urlHost: UrlHost): (r: HttpOutcome)
    ensures !r.HttpRefused?
  {
    HttpGet(urlField, Truth(flag), urlHost)
  }

  lemma TcpAsWrittenAdmits8888()
    ensures TcpConnectAsWritten("8.8.8.8", "53", BooleanVar(false)) == TcpAttempt("8.8.8.8", 53)
  {
    assert IntToString(53) == "53";
    TcpWellFormed("8.8.8.8", 53, true);
  }

  lemma TcpBlocks8888()
    ensures TcpConnect("8.8.8.8", "53", false) == TcpBlocked
  {
    assert IntToString(53) == "53";
    assert !TcpAllowed("8.8.8.8", false) by {
      assert "8.8.8.8"[0] != "127."[0];
      assert "8.8.8.8"[0] != "localhost"[0];
    }
    TcpWellFormed("8.8.8.8", 53, false);
  }

  lemma HttpAsWrittenAdmitsExample()
    ensures HttpGetAsWritten("http://example.com/", BooleanVar(false), Parsed(Some("example.com")))
         == HttpAttempt("http://example.com/")
  {
    HttpWellFormed("http://example.com/", true, Some("example.com"));
  }

  lemma HttpRefusesExample()
    ensures HttpGet("http://example.com/", false, Parsed(Some("example.com"))) == HttpRefused
  {
    assert HttpBlocked(Some("example.com"), false) by {
      assert "example.com"[0] != "127.0.0.1"[0];
      assert "example.com"[0] != "localhost"[0];
    }
    HttpWellFormed("http://example.com/", false, Some("example.com"));
  }

  /**
   * With the option unticked, the buttons as written still connect to an
   * external address, where the gate applied to the flag's value blocks.
   */
  lemma AsWrittenGatesAdmitExternal()
    ensures TcpConnectAsWritten("8.8.8.8", "53", BooleanVar(false)) == TcpAttempt("8.8.8.8", 53)
    ensures TcpConnect("8.8.8.8", "53", BooleanVar(false).value) == TcpBlocked
    ensures HttpGetAsWritten("http://example.com/", BooleanVar(false), Parsed(Some("example.com")))
         == HttpAttempt("http://example.com/")
    ensures HttpGet("http://example.com/", BooleanVar(false).value, Parsed(Some("example.com"))) == HttpRefused
  {
    TcpAsWrittenAdmits8888();
    TcpBlocks8888();
    HttpAsWrittenAdmitsExample();
    HttpRefusesExample();
  }
}
