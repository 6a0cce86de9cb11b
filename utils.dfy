/**
 * `getWebSocketURL` (src/utils.ts): the address of the sync relay is the
 * page's host with the port number one higher, the development port 1421
 * swapped for 9528, and the `ws:` protocol. The `URL` object is modelled by
 * the parts the function touches, with the port and protocol setters of the
 * WHATWG URL standard.
 */
module WebSocketUrl {

  import opened Wrappers
  import opened Strings
  import CoreSlice

  const MaxPort: nat := 65535

  /** `window.location.host`: the host name, and the port when the page's address names one. */
  datatype Host = Host(hostname: string, port: Option<nat>)

  /** A `URL` object: protocol, host name and port (None when the port is the protocol's default or absent). */
  datatype Url = Url(protocol: string, hostname: string, port: Option<nat>)

  function DefaultPort(protocol: string): Option<nat> {
    if protocol == "http:" || protocol == "ws:" then Some(80)
    else if protocol == "https:" || protocol == "wss:" then Some(443)
    else None
  }

  /** The `port` getter: the decimal port, or "" when there is none. */
  function PortText(u: Url): (t: string)
    ensures t == "" || AllDigits(t)
  {
    if u.port.None? then "" else Decimal(u.port.value)
  }

  /** `new URL("http://" + host)`: a port equal to http's default is dropped. */
  function NewHttpUrl(host: Host): Url {
    Url("http:", host.hostname, if host.port == Some(80) then None else host.port)
  }

  /** The leading digits of a text. */
  function LeadingDigits(s: string): (d: string)
    ensures AllDigits(d) && StartsWith(s, d)
    ensures |s| > 0 && IsDigit(s[0]) ==> |d| > 0
  {
    if |s| == 0 || !IsDigit(s[0]) then ""
    else
      var rest := LeadingDigits(s[1..]);
      assert ([s[0]] + rest)[1..] == rest;
      [s[0]] + rest
  }

  /**
   * The `port` setter. The empty text clears the port; a text that does not
   * start with a digit (such as "NaN") is ignored; otherwise its leading
   * digits are the port, ignored when above 65535 and cleared when equal to
   * the protocol's default.
   */
  function SetPort(u: Url, text: string): Url {
    if text == "" then u.(port := None)
    else if !IsDigit(text[0]) then u
    else
      var n := DigitsValue(LeadingDigits(text));
      if n > MaxPort then u
      else if Some(n) == DefaultPort(u.protocol) then u.(port := None)
      else u.(port := Some(n))
  }

  /** The `protocol` setter between special schemes: a port that is the new default is dropped. */
  function SetProtocol(u: Url, protocol: string): Url {
    u.(protocol := protocol, port := if u.port.Some? && u.port == DefaultPort(protocol) then None else u.port)
  }

  /** `toString()`: protocol, `//`, host name, `:port` when there is one, and the root path. */
  function Href(u: Url): string {
    u.protocol + "//" + u.hostname + (if u.port.None? then "" else ":" + Decimal(u.port.value)) + "/"
  }

  /** JavaScript `parseInt` of a port text: NaN (None) for "", the number otherwise. */
  function ParseIntPort(text: string): Option<nat>
    requires text == "" || AllDigits(text)
  {
    if text == "" then None else Some(DigitsValue(text))
  }

  /**
   * The relay's port for a page whose host carries `pagePort`: one more than
   * the page's port, 9528 when that would be 1421, unchanged when one more
   * would leave the port range, and none (the default 80) when there is no
   * explicit port or when one more is 80.
   */
  function SocketPort(pagePort: Option<nat>): Option<nat> {
    match pagePort
    case None => None
    case Some(p) =>
      if p == 80 then None
      else if p + 1 > MaxPort then Some(p)
      else if p + 1 == 80 then None
      else if p + 1 == 1421 then Some(9528)
      else Some(p + 1)
  }

  /** Reading the port text back gives the port. */
  lemma ParsePortText(u: Url)
    ensures ParseIntPort(PortText(u)) == u.port
  {
    if u.port.Some? { DecimalRoundTrip(u.port.value); }
  }

  /** Setting the port to a number's decimal text stores that number, unless it is out of range or the default. */
  lemma SetPortDecimal(u: Url, n: nat)
    ensures SetPort(u, Decimal(n)) ==
      if n > MaxPort then u
      else if Some(n) == DefaultPort(u.protocol) then u.(port := None)
      else u.(port := Some(n))
  {
    var d := Decimal(n);
    assert LeadingDigits(d) == d by { LeadingDigitsOfDigits(d); }
    DecimalRoundTrip(n);
  }

  lemma {:induction false} LeadingDigitsOfDigits(s: string)
    requires AllDigits(s)
    ensures LeadingDigits(s) == s
  {
    if |s| > 0 {
      LeadingDigitsOfDigits(s[1..]);
      assert [s[0]] + s[1..] == s;
    }
  }

  /** The port getter reads "1421" exactly when the port is 1421. */
  lemma PortTextIs1421(u: Url)
    ensures PortText(u) == "1421" <==> u.port == Some(1421)
  {
    assert Decimal(1421) == "1421";
    if u.port.Some? && PortText(u) == "1421" { DecimalInjective(u.port.value, 1421); }
  }

  /** The text `getWebSocketURL` writes into the port: one more than the current port, or "NaN". */
  function NextPortText(u: Url): string {
    var current := ParseIntPort(PortText(u));
    if current.None? then "NaN" else Decimal(current.value + 1)
  }

  /** Bumping the port of `new URL("http://" + host)`: NaN leaves it, else one more, kept in range, 80 dropped. */
  lemma BumpStep(host: Host)
    requires host.port.Some? ==> host.port.value <= MaxPort
    ensures SetPort(NewHttpUrl(host), NextPortText(NewHttpUrl(host))) ==
      Url("http:", host.hostname,
          if host.port.None? || host.port == Some(80) then None
          else if host.port.value + 1 > MaxPort then host.port
          else if host.port.value + 1 == 80 then None
          else Some(host.port.value + 1))
  {
    var u := NewHttpUrl(host);
    ParsePortText(u);
    if u.port.Some? {
      SetPortDecimal(u, u.port.value + 1);
    }
  }

  /** Swapping 1421 for 9528 on an http URL. */
  lemma SwapStep(u: Url)
    requires u.protocol == "http:"
    ensures (if PortText(u) == "1421" then SetPort(u, "9528") else u) ==
      u.(port := if u.port == Some(1421) then Some(9528) else u.port)
  {
    PortTextIs1421(u);
    SetPortDecimal(u, 9528);
    assert Decimal(9528) == "9528";
  }

  /** The port of the relay address once the port has been bumped and 1421 swapped for 9528. */
  lemma BumpedPort(host: Host)
    requires host.port.Some? ==> host.port.value <= MaxPort
    ensures var bumped := SetPort(NewHttpUrl(host), NextPortText(NewHttpUrl(host)));
            var swapped := if PortText(bumped) == "1421" then SetPort(bumped, "9528") else bumped;
            swapped == Url("http:", host.hostname, SocketPort(host.port))
  {
    BumpStep(host);
    SwapStep(SetPort(NewHttpUrl(host), NextPortText(NewHttpUrl(host))));
  }

  /** The relay port is never http's default port. */
  lemma SocketPortIsNotDefault(pagePort: Option<nat>)
    ensures SocketPort(pagePort) != Some(80)
  {
  }

  /** Switching an http URL whose port is not 80 to `ws:` keeps the host and port. */
  lemma ProtocolStep(hostname: string, port: Option<nat>)
    requires port != Some(80)
    ensures SetProtocol(Url("http:", hostname, port), "ws:") == Url("ws:", hostname, port)
  {
  }

  /** The text of a `ws:` URL. */
  lemma HrefOfWs(hostname: string, port: Option<nat>)
    ensures Href(Url("ws:", hostname, port)) == "ws://" + hostname + (if port.None? then "" else ":" + Decimal(port.value)) + "/"
  {
    assert "ws:" + "//" == "ws://";
  }

  /**
   * `getWebSocketURL()`: the relay address for a page on `host`. The URL is
   * built from "http://", so its protocol is never "https:" and the result
   * always uses `ws:`; the host name is carried over unchanged.
   */
  method GetWebSocketUrl(host: Host) returns (url: string)
    requires host.port.Some? ==> host.port.value <= MaxPort
    ensures url == "ws://" + host.hostname + (if SocketPort(host.port).None? then "" else ":" + Decimal(SocketPort(host.port).value)) + "/"
    ensures StartsWith(url, "ws://")
  {
    BumpedPort(host);
    SocketPortIsNotDefault(host.port);
    ProtocolStep(host.hostname, SocketPort(host.port));
    HrefOfWs(host.hostname, SocketPort(host.port));
    var wsAddress := NewHttpUrl(host);
    wsAddress := SetPort(wsAddress, NextPortText(wsAddress));
    if PortText(wsAddress) == "1421" {
      wsAddress := SetPort(wsAddress, "9528");
    }
    assert wsAddress == Url("http:", host.hostname, SocketPort(host.port));
    wsAddress := SetProtocol(wsAddress, if wsAddress.protocol == "https:" then "wss:" else "ws:");
    url := Href(wsAddress);
  }

  /** The hosting address's port for a page port: 9527 for the development port 1420, else the same. */
  function HostingPort(p: nat): nat {
    if p == 1420 then 9527 else p
  }

  /** Text ending in a colon then digits ends in `:1420` exactly when the digits are "1420". */
  lemma ColonDigitsEndWithDevPort(t: string, d: string)
    requires |t| > 0 && t[|t| - 1] == ':' && AllDigits(d)
    ensures EndsWith(t + d, CoreSlice.DevPort) <==> d == "1420"
  {
    var s := t + d;
    var n := |s|;
    if EndsWith(s, CoreSlice.DevPort) {
      assert forall k :: 0 <= k < 5 ==> s[n - 5 + k] == ":1420"[k];
      assert forall k :: |t| <= k < n ==> s[k] == d[k - |t|];
      // the window's colon is not one of the digits, and the window's digits are not the colon
      assert !IsDigit(s[n - 5]);
      assert n - 5 < |t|;
      assert forall k :: n - 4 <= k < n ==> s[k] != ':';
      assert s[|t| - 1] == t[|t| - 1];
      assert |t| - 1 < n - 4;
      assert d == s[n - 4..];
    }
  }

  /** The decimal texts of the development and hosting ports. */
  lemma PortDecimals()
    ensures Decimal(1420) == "1420" && Decimal(9527) == "9527"
  {
    assert Decimal(14) == "14";
    assert Decimal(142) == "142";
    assert Decimal(95) == "95";
    assert Decimal(952) == "952";
  }

  /** An address ends in `:1420` exactly when its final decimal port is 1420. */
  lemma EndsWithDevPortIff(prefix: string, p: nat)
    ensures EndsWith(prefix + ":" + Decimal(p), CoreSlice.DevPort) <==> p == 1420
  {
    ColonDigitsEndWithDevPort(prefix + ":", Decimal(p));
    assert prefix + ":" + Decimal(p) == (prefix + ":") + Decimal(p);
    PortDecimals();
    if Decimal(p) == "1420" { DecimalInjective(p, 1420); }
  }

  /** In `http://host:` + digits, with a colon-free host, no `:1420` starts before the port's colon. */
  lemma NoDevPortBeforePortColon(hostname: string)
    requires ':' !in hostname
    ensures var prefix := "http://" + hostname;
            forall j :: 0 <= j < |prefix| ==> !OccursAt(prefix + CoreSlice.DevPort, CoreSlice.DevPort, j)
  {
    var prefix := "http://" + hostname;
    var s := prefix + CoreSlice.DevPort;
    forall j | 0 <= j < |prefix| ensures !OccursAt(s, CoreSlice.DevPort, j) {
      if j >= 7 {
        assert s[j] == hostname[j - 7];
      }
      assert s[j] != ':' || s[j + 1] != '1';
      assert s[j..j + 5][0] == s[j] && s[j..j + 5][1] == s[j + 1];
    }
  }

  /** A page on the development port 1420 is hosted on 9527. */
  lemma DevPageHostingAddress(hostname: string)
    requires ':' !in hostname
    ensures CoreSlice.InitialHostingAddress("http://" + hostname + ":" + Decimal(1420))
            == "http://" + hostname + ":" + Decimal(9527)
  {
    var prefix := "http://" + hostname;
    PortDecimals();
    assert prefix + ":" + Decimal(1420) == prefix + CoreSlice.DevPort;
    assert prefix + ":" + Decimal(9527) == prefix + CoreSlice.HostPort;
    NoDevPortBeforePortColon(hostname);
    CoreSlice.DevOriginGetsHostPort(prefix);
  }

  /** A page on any other port is hosted at its own origin. */
  lemma OtherPageHostingAddress(hostname: string, p: nat)
    requires p != 1420
    ensures CoreSlice.InitialHostingAddress("http://" + hostname + ":" + Decimal(p))
            == "http://" + hostname + ":" + Decimal(p)
  {
    EndsWithDevPortIff("http://" + hostname, p);
  }

  /**
   * For a page at `http://hostname:p` the initial hosting address is the same
   * host on `HostingPort(p)`, and the relay's port is one more than that
   * (outside the edge ports 79, 80 and 65535).
   */
  lemma SocketPortIsHostingPortPlusOne(hostname: string, p: nat)
    requires ':' !in hostname
    requires p != 79 && p != 80 && p < MaxPort
    ensures CoreSlice.InitialHostingAddress("http://" + hostname + ":" + Decimal(p))
            == "http://" + hostname + ":" + Decimal(HostingPort(p))
    ensures SocketPort(Some(p)) == Some(HostingPort(p) + 1)
  {
    if p == 1420 {
      DevPageHostingAddress(hostname);
    } else {
      OtherPageHostingAddress(hostname, p);
    }
  }
}
