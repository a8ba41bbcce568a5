/**
 * The command-line client's message printer: each message goes either to
 * standard output as a line of text or, in JSON mode, into a tree of
 * key/value pairs written out at the end. Standard output is modelled as the
 * sequence of lines printed, the JSON tree as a map from dotted paths to the
 * text stored there.
 */
module MsgPrinting {
  import opened Wrappers
  import opened Text

  /** What one printer call produces: a line of text, or values put into the JSON tree. */
  datatype Emission = Emission(line: Option<string>, puts: seq<(string, string)>)

  const Silent := Emission(None, [])

  /** The delegation printers, one constructor per method. */
  datatype DelegationEvent =
    | RequestDuration(h: int, m: int)
    | RequestRetry
    | RequestError(error: string)
    | RequestSuccess(b: bool)
    | LocalExpiration(h: int, m: int)
    | ServiceProxy(h: int, m: int)
    | Message(msg: string)

  /** lexical_cast<string>(h) + ":" + lexical_cast<string>(m). */
  function HoursMinutes(h: int, m: int): string {
    IntToString(h) + ":" + IntToString(m)
  }

  /** How a bool is stored in the JSON tree. */
  function BoolText(b: bool): string {
    if b then "true" else "false"
  }

  /**
   * The delegation printers: all but delegation_request_error print nothing
   * unless verbose; then a line in text mode or one JSON value.
   */
  function DelegationEmission(verbose: bool, json: bool, e: DelegationEvent): (r: Emission)
    ensures !verbose && !e.RequestError? ==> r == Silent
    ensures e.RequestError? ==> r != Silent
    ensures json ==> r.line.None? && (verbose || e.RequestError? ==> |r.puts| == 1)
    ensures !json ==> r.puts == []
    ensures !json && e.RequestSuccess? ==> (r.line.Some? <==> verbose && e.b)
  {
    if !verbose && !e.RequestError? then Silent
    else if !json then
      match e
      case RequestDuration(h, m) =>
        Emission(Some("Requesting delegated proxy for " + IntToString(h) + " hours and " + IntToString(m) + " minutes."), [])
      case RequestRetry => Emission(Some("Retrying!"), [])
      case RequestError(error) => Emission(Some("delegation: " + error), [])
      case RequestSuccess(b) =>
        if b then Emission(Some("Credential has been successfully delegated to the service."), []) else Silent
      case LocalExpiration(h, m) =>
        Emission(Some("Remaining time for the local proxy is " + IntToString(h) + "hours and " + IntToString(m) + " minutes."), [])
      case ServiceProxy(h, m) =>
        Emission(Some("Remaining time for the proxy on the server side is " + IntToString(h) + " hours and " + IntToString(m) + " minutes."), [])
      case Message(msg) => Emission(Some(msg), [])
    else
      match e
      case RequestDuration(h, m) => Emission(None, [("delegation.request.duration", HoursMinutes(h, m))])
      case RequestRetry => Emission(None, [("delegation.request.retry", BoolText(true))])
      case RequestError(error) => Emission(None, [("delegation.request.error", error)])
      case RequestSuccess(b) => Emission(None, [("delegation.request.delegated_successfully", BoolText(b))])
      case LocalExpiration(h, m) => Emission(None, [("delegation.expiration_time.local", HoursMinutes(h, m))])
      case ServiceProxy(h, m) => Emission(None, [("delegation.expiration_time.service", HoursMinutes(h, m))])
      case Message(msg) => Emission(None, [("delegation.message", msg)])
  }

  /** The JSON durations can be read back: the text before the ':' is the hours, after it the minutes. */
  lemma HoursMinutesRoundTrip(h: int, m: int)
    ensures var s := HoursMinutes(h, m);
      IndexOf(s, ':').Some? &&
      ParseSigned(s[..IndexOf(s, ':').value]) == Some(h) &&
      ParseSigned(s[IndexOf(s, ':').value + 1..]) == Some(m)
  {
    var hs, ms := IntToString(h), IntToString(m);
    var s := hs + ":" + ms;
    assert ':' !in hs;
    assert s[..|hs|] == hs && s[|hs|] == ':';
    assert IndexOf(s, ':') == Some(|hs|);
    assert s[|hs| + 1..] == ms;
    ParseSignedOfIntToString(h);
    ParseSignedOfIntToString(m);
  }

  /** error_msg: "error: " + msg as text, or only error.message in JSON. */
  function ErrorEmission(json: bool, msg: string): (r: Emission)
    ensures json ==> r.line.None? && |r.puts| == 1 && r.puts[0].0 == "error.message" && r.puts[0].1 == msg
    ensures !json ==> r.puts == [] && r.line == Some("error: " + msg)
  {
    if json then Emission(None, [("error.message", msg)]) else Emission(Some("error: " + msg), [])
  }

  // ---------------------------------------------------------------------------
  // gsoap_error_msg

  const Backspace: char := 8 as char

  /** `s` without any occurrence of `c`, the other characters in order. */
  function Without(s: string, c: char): (r: string)
    ensures c !in r
    ensures |r| <= |s|
    ensures c !in s ==> r == s
    ensures forall x :: x in r ==> x in s
  {
    if s == [] then [] else (if s[0] == c then [] else [s[0]]) + Without(s[1..], c)
  }

  lemma {:induction false} WithoutAppend(a: string, b: string, c: char)
    ensures Without(a + b, c) == Without(a, c) + Without(b, c)
    decreases |a|
  {
    if a != [] {
      assert (a + b)[1..] == a[1..] + b;
      WithoutAppend(a[1..], b, c);
    } else {
      assert a + b == b;
    }
  }

  /** Erasing one occurrence of `c` does not change what is left once all are erased. */
  lemma EraseOne(s: string, pos: nat, c: char)
    requires pos < |s| && s[pos] == c
    ensures Without(s[..pos] + s[pos + 1..], c) == Without(s, c)
  {
    var a, b := s[..pos], s[pos + 1..];
    assert s == a + ([c] + b);
    WithoutAppend(a, [c] + b, c);
    assert ([c] + b)[1..] == b;
    assert Without([c] + b, c) == Without(b, c);
    WithoutAppend(a, b, c);
  }

  /** The first loop of gsoap_error_msg: erase the first backspace until none is left. */
  method RemoveBackspaces(msg: string) returns (clean: string)
    ensures clean == Without(msg, Backspace)
  {
    clean := msg;
    while IndexOf(clean, Backspace).Some?
      invariant Without(clean, Backspace) == Without(msg, Backspace)
      decreases |clean|
    {
      var pos := IndexOf(clean, Backspace).value;
      EraseOne(clean, pos, Backspace);
      clean := clean[..pos] + clean[pos + 1..];
    }
  }

  /** The marker gSOAP puts between a fault string and its detail: a quote, a newline, "Detail: ". */
  const DetailMarker := "\"\nDetail: "

  /** One trailing newline removed. An empty text stays empty (the source indexes before its start then). */
  function DropNewline(s: string): (r: string)
    ensures s != [] && s[|s| - 1] == '\n' ==> r + "\n" == s
    ensures s == [] || s[|s| - 1] != '\n' ==> r == s
  {
    if s != [] && s[|s| - 1] == '\n' then s[..|s| - 1] else s
  }

  /**
   * gsoap_error_msg on a message without backspaces: without the marker it
   * is error_msg; with it the message is printed as it is, or in JSON split
   * into the text before the first quote (error.message) and the text after
   * the marker (error.detail), each without one trailing newline.
   */
  function GsoapEmission(json: bool, msg: string): (r: Emission)
  {
    match FindSub(msg, DetailMarker)
    case None => ErrorEmission(json, msg)
    case Some(pos) =>
      if !json then Emission(Some(msg), [])
      else
        assert msg[pos] == '"' by { assert msg[pos..pos + 10][0] == '"'; }
        var quote := IndexOf(msg, '"').value;
        Emission(None, [("error.message", DropNewline(msg[..quote])), ("error.detail", DropNewline(msg[pos + 10..]))])
  }

  /** Without the marker, gsoap_error_msg prints what error_msg prints. */
  lemma NoMarkerIsErrorMsg(json: bool, msg: string)
    requires forall k :: 0 <= k <= |msg| ==> !OccursAt(msg, DetailMarker, k)
    ensures GsoapEmission(json, msg) == ErrorEmission(json, msg)
  {
    match FindSub(msg, DetailMarker)
    case None =>
    case Some(pos) =>
      assert false;
  }

  /** With the marker, text mode prints the cleaned message unchanged. */
  lemma MarkerInTextMode(msg: string, k: nat)
    requires OccursAt(msg, DetailMarker, k)
    ensures GsoapEmission(false, msg) == Emission(Some(msg), [])
  {
  }

  /** The marker is found right after a prefix that holds no quote. */
  lemma MarkerAfterPrefix(prefix: string, rest: string)
    requires '"' !in prefix
    ensures FindSub(prefix + DetailMarker + rest, DetailMarker) == Some(|prefix|)
  {
    var msg := prefix + DetailMarker + rest;
    var p := |prefix|;
    assert msg[p..p + 10] == DetailMarker;
    forall k | 0 <= k < p
      ensures !OccursAt(msg, DetailMarker, k)
    {
      assert msg[k] == prefix[k];
      assert DetailMarker[0] == '"';
    }
    var r := FindSub(msg, DetailMarker);
    assert OccursAt(msg, DetailMarker, p);
    assert r.Some?;
  }

  /**
   * In JSON mode a message read two ways, as `m`, a quote and `x` with no
   * quote in `m`, and as `y`, the marker and `d` with no marker starting
   * inside `y`, gives `m` as error.message and `d` as error.detail, each
   * without one trailing newline.
   */
  lemma GsoapJsonSplit(m: string, x: string, y: string, d: string)
    requires '"' !in m
    requires m + "\"" + x == y + DetailMarker + d
    requires forall k :: 0 <= k < |y| ==> !OccursAt(y + DetailMarker + d, DetailMarker, k)
    ensures GsoapEmission(true, y + DetailMarker + d) ==
      Emission(None, [("error.message", DropNewline(m)), ("error.detail", DropNewline(d))])
  {
    var msg := y + DetailMarker + d;
    assert OccursAt(msg, DetailMarker, |y|) by {
      assert msg[|y|..|y| + 10] == DetailMarker;
    }
    var pos := FindSub(msg, DetailMarker).value;
    assert pos == |y|;
    assert msg[pos + 10..] == d;
    assert msg[|m|] == '"' && msg[..|m|] == m;
    var quote := IndexOf(msg, '"').value;
    assert forall i :: 0 <= i < |m| ==> msg[i] != '"';
    assert forall i :: 0 <= i < quote ==> msg[..quote][i] != '"';
  }

  /**
   * A gSOAP fault rendered as prefix, marker, detail and a newline is split
   * back into the prefix and the detail, when the prefix holds no quote and
   * does not end in a newline.
   */
  lemma GsoapFaultRoundTrip(prefix: string, detail: string)
    requires '"' !in prefix
    requires prefix == [] || prefix[|prefix| - 1] != '\n'
    ensures GsoapEmission(true, prefix + DetailMarker + detail + "\n") ==
      Emission(None, [("error.message", prefix), ("error.detail", detail)])
  {
    var rest := detail + "\n";
    var msg := prefix + DetailMarker + rest;
    assert msg == prefix + DetailMarker + detail + "\n";
    MarkerAfterPrefix(prefix, rest);
    assert prefix + "\"" + (DetailMarker[1..] + rest) == msg;
    GsoapJsonSplit(prefix, DetailMarker[1..] + rest, prefix, rest);
    assert DropNewline(rest) == detail;
  }

  // ---------------------------------------------------------------------------
  // The printer object

  /** All values put into the JSON tree, later puts replacing earlier ones at the same path. */
  function PutAll(tree: map<string, string>, puts: seq<(string, string)>): (r: map<string, string>)
    ensures forall i :: 0 <= i < |puts| ==> puts[i].0 in r
    ensures r.Keys == tree.Keys + set i | 0 <= i < |puts| :: puts[i].0
    decreases |puts|
  {
    if puts == [] then tree else PutAll(tree[puts[0].0 := puts[0].1], puts[1..])
  }

  class MsgPrinter {
    const verbose: bool
    const json: bool
    /** The lines printed to standard output. */
    var lines: seq<string>
    /** The JSON tree, by dotted path. */
    var jsonOut: map<string, string>

    constructor(verbose: bool, json: bool)
      ensures this.verbose == verbose && this.json == json
      ensures lines == [] && jsonOut == map[]
    {
      this.verbose := verbose;
      this.json := json;
      lines := [];
      jsonOut := map[];
    }

    method Emit(e: Emission)
      modifies this
      ensures lines == old(lines) + (if e.line.Some? then [e.line.value] else [])
      ensures jsonOut == PutAll(old(jsonOut), e.puts)
    {
      if e.line.Some? {
        lines := lines + [e.line.value];
      }
      jsonOut := PutAll(jsonOut, e.puts);
    }

    method DelegationRequestDuration(h: int, m: int)
      modifies this
      ensures var e := DelegationEmission(verbose, json, RequestDuration(h, m));
        lines == old(lines) + (if e.line.Some? then [e.line.value] else []) && jsonOut == PutAll(old(jsonOut), e.puts)
    {
      Emit(DelegationEmission(verbose, json, RequestDuration(h, m)));
    }

    method DelegationRequestRetry()
      modifies this
      ensures var e := DelegationEmission(verbose, json, RequestRetry);
        lines == old(lines) + (if e.line.Some? then [e.line.value] else []) && jsonOut == PutAll(old(jsonOut), e.puts)
    {
      Emit(DelegationEmission(verbose, json, RequestRetry));
    }

    method DelegationRequestError(error: string)
      modifies this
      ensures var e := DelegationEmission(verbose, json, RequestError(error));
        lines == old(lines) + (if e.line.Some? then [e.line.value] else []) && jsonOut == PutAll(old(jsonOut), e.puts)
    {
      Emit(DelegationEmission(verbose, json, RequestError(error)));
    }

    method DelegationRequestSuccess(b: bool)
      modifies this
      ensures var e := DelegationEmission(verbose, json, RequestSuccess(b));
        lines == old(lines) + (if e.line.Some? then [e.line.value] else []) && jsonOut == PutAll(old(jsonOut), e.puts)
    {
      Emit(DelegationEmission(verbose, json, RequestSuccess(b)));
    }

    method DelegationLocalExpiration(h: int, m: int)
      modifies this
      ensures var e := DelegationEmission(verbose, json, LocalExpiration(h, m));
        lines == old(lines) + (if e.line.Some? then [e.line.value] else []) && jsonOut == PutAll(old(jsonOut), e.puts)
    {
      Emit(DelegationEmission(verbose, json, LocalExpiration(h, m)));
    }

    method DelegationServiceProxy(h: int, m: int)
      modifies this
      ensures var e := DelegationEmission(verbose, json, ServiceProxy(h, m));
        lines == old(lines) + (if e.line.Some? then [e.line.value] else []) && jsonOut == PutAll(old(jsonOut), e.puts)
    {
      Emit(DelegationEmission(verbose, json, ServiceProxy(h, m)));
    }

    method DelegationMsg(msg: string)
      modifies this
      ensures var e := DelegationEmission(verbose, json, Message(msg));
        lines == old(lines) + (if e.line.Some? then [e.line.value] else []) && jsonOut == PutAll(old(jsonOut), e.puts)
    {
      Emit(DelegationEmission(verbose, json, Message(msg)));
    }

    method ErrorMsg(msg: string)
      modifies this
      ensures var e := ErrorEmission(json, msg);
        lines == old(lines) + (if e.line.Some? then [e.line.value] else []) && jsonOut == PutAll(old(jsonOut), e.puts)
    {
      Emit(ErrorEmission(json, msg));
    }

    /** gsoap_error_msg: backspaces are erased first, then the message is printed as GsoapEmission says. */
    method GsoapErrorMsg(msg: string)
      modifies this
      ensures var e := GsoapEmission(json, Without(msg, Backspace));
        lines == old(lines) + (if e.line.Some? then [e.line.value] else []) && jsonOut == PutAll(old(jsonOut), e.puts)
    {
      var clean := RemoveBackspaces(msg);
      Emit(GsoapEmission(json, clean));
    }
  }
}
