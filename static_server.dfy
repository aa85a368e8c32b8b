/**
  The local static-file server used to preview the site: `main` picks the port
  from the command line, `start_server` decides how the process exits, and the
  request handler marks every response as not cacheable.

  The file system check, the socket and Ctrl+C are inputs; the banners, the
  browser launch and `serve_forever` itself are not modelled.
*/
module StaticServer {
  import opened Wrappers
  import opened Text
  import opened Numerals
  import opened PyInt

  // ---------------------------------------------------------------------------
  // main: the port argument

  const DefaultPort := 8000
  const MinPort := 1
  const MaxPort := 65535

  datatype PortChoice =
    | UsePort(port: int)   // `start_server(port)` is called with this port
    | ExitWith(code: int)  // `sys.exit(code)` before any server is started

  predicate InPortRange(p: int) {
    MinPort <= p <= MaxPort
  }

  /**
    `main`'s decision. `argv[0]` is the script; without a further argument the
    port is 8000. Otherwise `argv[1]` must parse as a Python int within 1..65535;
    a parse failure and an out-of-range value take the same `ValueError` path to
    exit code 1. Further arguments are ignored.
  */
  function ChoosePort(argv: seq<string>): (r: PortChoice)
    ensures |argv| <= 1 ==> r == UsePort(DefaultPort)
    ensures |argv| > 1 && ParseInt(argv[1]).None? ==> r == ExitWith(1)
    ensures |argv| > 1 && ParseInt(argv[1]).Some? ==>
      r == if InPortRange(ParseInt(argv[1]).value) then UsePort(ParseInt(argv[1]).value) else ExitWith(1)
    ensures r.UsePort? ==> InPortRange(r.port)
    ensures r.ExitWith? ==> r.code == 1
  {
    if |argv| > 1 then
      match ParseInt(argv[1])
      case None => ExitWith(1)
      case Some(port) => if port < MinPort || port > MaxPort then ExitWith(1) else UsePort(port)
    else UsePort(DefaultPort)
  }

  /** Every valid port, written in decimal, is accepted and passed on unchanged. */
  lemma {:induction false} AcceptsEveryPort(script: string, p: int)
    requires InPortRange(p)
    ensures ChoosePort([script, Decimal(p)]) == UsePort(p)
  {
    assert Pow10(5) == 100000;
    DecimalLength(p, 5);
    ParseDecimal(p);
  }

  /** 0 and every number above 65535 are refused with exit code 1. */
  lemma {:induction false} RefusesOutOfRange(script: string, n: nat)
    requires n == 0 || n > MaxPort
    ensures ChoosePort([script, Decimal(n)]) == ExitWith(1)
  {
    ParseDecimal(n);
  }

  /** An empty or blank argument is not an int, and is refused with exit code 1. */
  lemma RefusesBlank(script: string, arg: string)
    requires AllSpace(arg)
    ensures ChoosePort([script, arg]) == ExitWith(1)
  {
  }

  // ---------------------------------------------------------------------------
  // start_server: how the process ends

  /** How the `with socketserver.TCPServer(...)` block was left. */
  datatype ServeEnd =
    | OsFailure(errno: Option<int>, text: string)  // an `OSError` (binding, or later); `text` is `str(e)`
    | Interrupted                                  // `KeyboardInterrupt` (Ctrl+C)

  datatype ExitReason =
    | BadPortArgument
    | MissingIndex
    | PortBusy(suggestedPort: int)  // the banner proposes `python server.py <suggestedPort>`
    | StartFailed
    | Stopped

  /** The process exit, and whether a socket server was ever constructed. */
  datatype ServerExit = ServerExit(code: int, reason: ExitReason, bindAttempted: bool)

  const AddressInUseText := "Address already in use"
  const EAddrInUse := 98

  /** `"Address already in use" in str(e) or e.errno == 98`. */
  predicate AddressInUse(end: ServeEnd): (b: bool)
    requires end.OsFailure?
    ensures b <==> (exists i :: OccursAt(end.text, AddressInUseText, i)) || end.errno == Some(EAddrInUse)
  {
    Contains(end.text, AddressInUseText) || end.errno == Some(EAddrInUse)
  }

  /**
    `start_server(port)`: a missing `index.html` exits 1 before any socket exists;
    otherwise the server is constructed, and the process ends with 1 on an OS
    error (suggesting the next port when the address is taken) and with 0 on
    Ctrl+C.
  */
  method StartServer(port: int, indexExists: bool, end: ServeEnd) returns (r: ServerExit)
    ensures !indexExists ==> r == ServerExit(1, MissingIndex, false)
    ensures indexExists ==> r.bindAttempted
    ensures indexExists && end == Interrupted ==> r.code == 0 && r.reason == Stopped
    ensures indexExists && end.OsFailure? ==> r.code == 1
    ensures indexExists && end.OsFailure? && AddressInUse(end) ==> r.reason == PortBusy(port + 1)
    ensures indexExists && end.OsFailure? && !AddressInUse(end) ==> r.reason == StartFailed
    ensures r.code == 0 <==> indexExists && end == Interrupted
  {
    if !indexExists {
      return ServerExit(1, MissingIndex, false);
    }
    match end
    case OsFailure(_, _) =>
      if AddressInUse(end) {
        r := ServerExit(1, PortBusy(port + 1), true);
      } else {
        r := ServerExit(1, StartFailed, true);
      }
    case Interrupted =>
      r := ServerExit(0, Stopped, true);
  }

  /** `main` then `start_server`: a refused argument ends the process before any server is built. */
  method Launch(argv: seq<string>, indexExists: bool, end: ServeEnd) returns (r: ServerExit)
    ensures ChoosePort(argv).ExitWith? ==> r == ServerExit(1, BadPortArgument, false)
    ensures r.bindAttempted <==> ChoosePort(argv).UsePort? && indexExists
    ensures r.reason.PortBusy? ==> r.reason.suggestedPort == ChoosePort(argv).port + 1
    ensures |argv| <= 1 && r.reason.PortBusy? ==> r.reason.suggestedPort == DefaultPort + 1
    ensures r.code == 0 <==> ChoosePort(argv).UsePort? && indexExists && end == Interrupted
    ensures ChoosePort(argv).UsePort? && !indexExists ==> r == ServerExit(1, MissingIndex, false)
    ensures ChoosePort(argv).UsePort? && indexExists && end.OsFailure? ==>
      r == ServerExit(1, if AddressInUse(end) then PortBusy(ChoosePort(argv).port + 1) else StartFailed, true)
    ensures ChoosePort(argv).UsePort? && indexExists && end == Interrupted ==> r == ServerExit(0, Stopped, true)
  {
    match ChoosePort(argv)
    case ExitWith(code) =>
      r := ServerExit(code, BadPortArgument, false);
    case UsePort(port) =>
      r := StartServer(port, indexExists, end);
  }

  // ---------------------------------------------------------------------------
  // CustomHandler.end_headers

  datatype Header = Header(name: string, value: string)

  /**
    The three headers every response gets: `Cache-Control` per section 5.2.2 of
    RFC 9111 (no-cache, no-store, must-revalidate), `Pragma: no-cache` per
    section 5.4, and `Expires: 0`, an invalid date that section 5.3 says a cache
    must read as already expired.
  */
  const NoCacheHeaders := [
    Header("Cache-Control", "no-cache, no-store, must-revalidate"),
    Header("Pragma", "no-cache"),
    Header("Expires", "0")
  ]

  /**
    The values of the header lines called `name` in a block: every listed value
    comes from such a line, and every such line's value is listed.
  */
  function HeaderValues(block: seq<Header>, name: string): (vs: seq<string>)
    ensures |vs| <= |block|
    ensures forall v :: v in vs ==> exists k :: 0 <= k < |block| && block[k] == Header(name, v)
    ensures forall k :: 0 <= k < |block| && block[k].name == name ==> block[k].value in vs
  {
    if block == [] then []
    else
      var rest := HeaderValues(block[1..], name);
      assert forall k :: 1 <= k < |block| ==> block[k] == block[1..][k - 1];
      if block[0].name == name then [block[0].value] + rest else rest
  }

  lemma {:induction false} HeaderValuesAppend(a: seq<Header>, b: seq<Header>, name: string)
    ensures HeaderValues(a + b, name) == HeaderValues(a, name) + HeaderValues(b, name)
  {
    if a == [] {
      assert a + b == b;
    } else {
      assert (a + b)[0] == a[0] && (a + b)[1..] == a[1..] + b;
      HeaderValuesAppend(a[1..], b, name);
    }
  }

  /**
    After `end_headers`, a block whose earlier headers set none of the three
    carries exactly one value for each, the no-cache one.
  */
  lemma NoCacheBlock(earlier: seq<Header>)
    requires HeaderValues(earlier, "Cache-Control") == []
    requires HeaderValues(earlier, "Pragma") == []
    requires HeaderValues(earlier, "Expires") == []
    ensures HeaderValues(earlier + NoCacheHeaders, "Cache-Control") == ["no-cache, no-store, must-revalidate"]
    ensures HeaderValues(earlier + NoCacheHeaders, "Pragma") == ["no-cache"]
    ensures HeaderValues(earlier + NoCacheHeaders, "Expires") == ["0"]
  {
    HeaderValuesAppend(earlier, NoCacheHeaders, "Cache-Control");
    HeaderValuesAppend(earlier, NoCacheHeaders, "Pragma");
    HeaderValuesAppend(earlier, NoCacheHeaders, "Expires");
  }

  /**
    The request handler's header state: the headers buffered for the response
    being written, and the blocks already flushed to the client, one per
    `end_headers` call.
  */
  class CustomHandler {
    var buffer: seq<Header>
    var flushed: seq<seq<Header>>

    constructor ()
      ensures buffer == [] && flushed == []
    {
      buffer := [];
      flushed := [];
    }

    /** `send_header`: buffers one header line. */
    method SendHeader(name: string, value: string)
      modifies this
      ensures buffer == old(buffer) + [Header(name, value)]
      ensures flushed == old(flushed)
    {
      buffer := buffer + [Header(name, value)];
    }

    /** The base class's `end_headers`: ends the block and flushes the buffer. */
    method BaseEndHeaders()
      modifies this
      ensures flushed == old(flushed) + [old(buffer)]
      ensures buffer == []
    {
      flushed := flushed + [buffer];
      buffer := [];
    }

    /** The override: the three no-cache headers go into the buffer before the base method flushes it. */
    method EndHeaders()
      modifies this
      ensures flushed == old(flushed) + [old(buffer) + NoCacheHeaders]
      ensures buffer == []
    {
      SendHeader("Cache-Control", "no-cache, no-store, must-revalidate");
      SendHeader("Pragma", "no-cache");
      SendHeader("Expires", "0");
      assert buffer == old(buffer) + NoCacheHeaders;
      BaseEndHeaders();
    }
  }
}
