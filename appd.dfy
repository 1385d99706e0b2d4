/** Key acquisition from the ROFL application daemon (`appd`) over its UNIX socket,
    with the local-development fallback: the model of src/appd.ts.

    The socket check, the HTTP round trip and `JSON.parse` are inputs (a `Daemon`
    value); everything the code decides from them is modelled. */
module Appd {
  import opened Wrappers
  import opened Text
  import Json

  /** The key kinds the daemon is asked for; `Raw386` is the misspelled
      "raw-386" that is accepted beside "raw-384" for compatibility. */
  datatype KeyKind = Secp256k1 | Ed25519 | Raw256 | Raw384 | Raw386

  /** The kind used when the caller names none. */
  const DefaultKind: KeyKind := Secp256k1

  const KindSpellings: set<string> := {"secp256k1", "ed25519", "raw-256", "raw-384", "raw-386"}

  /** How a kind is spelled in the request payload. */
  function Spelling(k: KeyKind): string {
    match k
    case Secp256k1 => "secp256k1"
    case Ed25519 => "ed25519"
    case Raw256 => "raw-256"
    case Raw384 => "raw-384"
    case Raw386 => "raw-386"
  }

  /** The string literal union type `KeyKind`: which strings are key kinds. */
  function ParseKind(s: string): (k: Option<KeyKind>)
    ensures k.Some? <==> s in KindSpellings
    ensures k.Some? ==> Spelling(k.value) == s
  {
    if s == "secp256k1" then Some(Secp256k1)
    else if s == "ed25519" then Some(Ed25519)
    else if s == "raw-256" then Some(Raw256)
    else if s == "raw-384" then Some(Raw384)
    else if s == "raw-386" then Some(Raw386)
    else None
  }

  /** Every kind is spelled as one of the five accepted strings, and reads back as itself. */
  lemma SpellingRoundTrip(k: KeyKind)
    ensures Spelling(k) in KindSpellings
    ensures ParseKind(Spelling(k)) == Some(k)
  {
  }

  /** Distinct kinds have distinct spellings, so the payload determines the kind. */
  lemma SpellingInjective(k1: KeyKind, k2: KeyKind)
    ensures Spelling(k1) == Spelling(k2) ==> k1 == k2
  {
    if Spelling(k1) == Spelling(k2) {
      SpellingRoundTrip(k1);
      SpellingRoundTrip(k2);
    }
  }

  const SocketPath: string := "/run/rofl-appd.sock"
  const GeneratePath: string := "/rofl/v1/keys/generate"

  /** The JSON payload `{key_id, kind}`. */
  datatype Payload = Payload(keyId: string, kind: KeyKind)

  /** The HTTP request written to the daemon socket. The Content-Length header,
      the byte length of the serialised payload, is not modelled. */
  datatype Request = Request(verb: string, socketPath: string, path: string,
                             contentType: string, payload: Payload)

  /** The request `generateKey` issues; an omitted kind means `DefaultKind`. */
  function GenerateRequest(keyId: string, kind: Option<KeyKind>): (r: Request)
    ensures r.payload.keyId == keyId
    ensures kind.Some? ==> r.payload.kind == kind.value
    ensures kind.None? ==> r.payload.kind == Secp256k1
    ensures r.verb == "POST" && r.socketPath == SocketPath && r.path == GeneratePath
  {
    Request("POST", SocketPath, GeneratePath, "application/json", Payload(keyId, kind.GetOr(DefaultKind)))
  }

  /** What came back over the socket: a transport error (the request's "error"
      event), or a response delivered as a sequence of UTF-8 text chunks. The
      HTTP status of the response is not looked at by the code, so it is not here. */
  datatype Exchange = ConnectionFailed(message: string) | Responded(chunks: seq<string>)

  /** The outcome of `JSON.parse(body)`: a thrown SyntaxError, or a value whose
      `key` property is observed through `parsed?.key`. */
  datatype Parsed = SyntaxError(message: string) | Value(key: Json.Prop)

  /** The daemon as the code sees it: whether the socket file exists, what
      the round trip yields, and how `JSON.parse` reads a body. */
  datatype Daemon = Daemon(socketPresent: bool, exchange: Exchange, parse: string -> Parsed)

  /** The ways `generateKey` fails. */
  datatype DaemonError =
    | SocketMissing              // the socket file does not exist
    | BadResponse(body: string)  // the body has no non-empty string `key`
    | InvalidJson(message: string)  // `JSON.parse` threw
    | RequestFailed(message: string) // the request emitted "error"

  /** The `message` of the error each failure is thrown or rejected with. */
  function Message(e: DaemonError): (m: string)
    ensures e.SocketMissing? ==>
              m == "rofl-appd socket not found at /run/rofl-appd.sock. " + "This endpoint only works inside a ROFL machine."
    ensures e.BadResponse? ==> m == "Bad response: " + e.body
    ensures e.InvalidJson? ==> m == e.message
    ensures e.RequestFailed? ==> m == e.message
  {
    match e
    case SocketMissing =>
      "rofl-appd socket not found at /run/rofl-appd.sock. " + "This endpoint only works inside a ROFL machine."
    case BadResponse(body) => "Bad response: " + body
    case InvalidJson(m) => m
    case RequestFailed(m) => m
  }

  /** A "Bad response" message carries the whole body: it can be read back
      after the 14-character lead. */
  lemma BadResponseBodyReadBack(body: string)
    ensures |Message(BadResponse(body))| == 14 + |body|
    ensures Message(BadResponse(body))[..14] == "Bad response: "
    ensures Message(BadResponse(body))[14..] == body
  {
  }

  /** The body after the chunks `chunks` have arrived, in order. */
  function Concat(chunks: seq<string>): string {
    if chunks == [] then "" else Concat(chunks[..|chunks| - 1]) + chunks[|chunks| - 1]
  }

  /** Receiving `a` and then `b` gives the body of `a` followed by the body of `b`. */
  lemma {:induction false} ConcatAppend(a: seq<string>, b: seq<string>)
    ensures Concat(a + b) == Concat(a) + Concat(b)
  {
    if b == [] {
      assert a + b == a;
    } else {
      var last := |b| - 1;
      assert (a + b)[..|a + b| - 1] == a + b[..last];
      ConcatAppend(a, b[..last]);
    }
  }

  /** The body is the in-order concatenation of the chunks: chunk k sits, unchanged,
      right after everything received before it. */
  lemma ChunkInPlace(chunks: seq<string>, k: nat)
    requires k < |chunks|
    ensures var start := |Concat(chunks[..k])|;
            start + |chunks[k]| <= |Concat(chunks)| &&
            Concat(chunks)[start..start + |chunks[k]|] == chunks[k]
  {
    var before, rest := chunks[..k], chunks[k + 1..];
    assert chunks == before + [chunks[k]] + rest;
    ConcatAppend(before + [chunks[k]], rest);
    ConcatAppend(before, [chunks[k]]);
    assert Concat([chunks[k]]) == chunks[k] by {
      assert [chunks[k]][..0] == [];
    }
  }

  /** `hex.startsWith("0x") ? hex : "0x" + hex`. */
  function WithHexPrefix(hex: string): (pk: string)
    ensures HasHexPrefix(pk)
    ensures HasHexPrefix(hex) ==> pk == hex
    ensures !HasHexPrefix(hex) ==> pk == "0x" + hex
  {
    if HasHexPrefix(hex) then hex else "0x" + hex
  }

  /** Normalising twice is normalising once. */
  lemma WithHexPrefixIdempotent(hex: string)
    ensures WithHexPrefix(WithHexPrefix(hex)) == WithHexPrefix(hex)
  {
  }

  /** Normalisation only ever adds the prefix, so the daemon's digits survive:
      stripping "0x" gives back the daemon's key without its own prefix, if any. */
  lemma WithHexPrefixKeepsDigits(hex: string)
    ensures WithHexPrefix(hex)[2..] == (if HasHexPrefix(hex) then hex[2..] else hex)
  {
  }

  /** The `end` handler: parse the body, require a non-empty string `key`,
      and normalise it. */
  function KeyFromBody(body: string, parsed: Parsed): (r: Result<string, DaemonError>)
    ensures r.Success? <==> parsed.Value? && parsed.key.Str? && parsed.key.value != ""
    ensures r.Success? ==> r.value == WithHexPrefix(parsed.key.value)
    ensures parsed.SyntaxError? ==> r == Failure(InvalidJson(parsed.message))
    ensures parsed.Value? && r.Failure? ==> r == Failure(BadResponse(body))
  {
    match parsed
    case SyntaxError(m) => Failure(InvalidJson(m))
    case Value(key) =>
      if key.Str? && key.value != "" then Success(WithHexPrefix(key.value))
      else Failure(BadResponse(body))
  }

  /** What `generateKey` settles with, given the daemon. */
  function GenerateOutcome(daemon: Daemon): Result<string, DaemonError> {
    if !daemon.socketPresent then Failure(SocketMissing)
    else match daemon.exchange
      case ConnectionFailed(m) => Failure(RequestFailed(m))
      case Responded(chunks) => KeyFromBody(Concat(chunks), daemon.parse(Concat(chunks)))
  }

  /** A key from the daemon is always "0x"-prefixed and is the daemon's own
      non-empty `key` string, with the prefix added only if it was missing. */
  lemma GeneratedKeyIsDaemonKey(daemon: Daemon)
    requires GenerateOutcome(daemon).Success?
    ensures HasHexPrefix(GenerateOutcome(daemon).value)
    ensures daemon.socketPresent && daemon.exchange.Responded?
    ensures var body := Concat(daemon.exchange.chunks);
            var key := daemon.parse(body).key;
            daemon.parse(body).Value? && key.Str? && key.value != "" &&
            GenerateOutcome(daemon).value == (if HasHexPrefix(key.value) then key.value else "0x" + key.value)
  {
  }

  /** A parsed body whose `key` is missing, not a string, or empty never yields
      a key: it yields the "Bad response" error carrying the whole body. */
  lemma MissingKeyIsBadResponse(daemon: Daemon)
    requires daemon.socketPresent && daemon.exchange.Responded?
    requires var body := Concat(daemon.exchange.chunks);
             daemon.parse(body).Value? && (daemon.parse(body).key.Str? ==> daemon.parse(body).key.value == "")
    ensures GenerateOutcome(daemon) == Failure(BadResponse(Concat(daemon.exchange.chunks)))
  {
  }

  /** `generateKey(keyId, kind)`. `issued` is the request written to the socket,
      if any; the body is accumulated from the chunks as they arrive. */
  method GenerateKey(keyId: string, kind: Option<KeyKind>, daemon: Daemon)
    returns (result: Result<string, DaemonError>, issued: Option<Request>)
    ensures !daemon.socketPresent ==> issued == None && result == Failure(SocketMissing)
    ensures daemon.socketPresent ==> issued == Some(GenerateRequest(keyId, kind))
    ensures result == GenerateOutcome(daemon)
  {
    var payload := Payload(keyId, kind.GetOr(DefaultKind));
    if !daemon.socketPresent {
      return Failure(SocketMissing), None;
    }
    issued := Some(Request("POST", SocketPath, GeneratePath, "application/json", payload));
    match daemon.exchange {
      case ConnectionFailed(m) =>
        result := Failure(RequestFailed(m));
      case Responded(chunks) =>
        var body := "";
        var i := 0;
        while i < |chunks|
          invariant 0 <= i <= |chunks|
          invariant body == Concat(chunks[..i])
        {
          assert chunks[..i + 1][..i] == chunks[..i];
          body := body + chunks[i];
          i := i + 1;
        }
        assert chunks[..i] == chunks;
        result := KeyFromBody(body, daemon.parse(body));
    }
  }

  /** `/^0x[0-9a-fA-F]{64}$/`: a 32-byte secret in hex. */
  predicate IsDevKey(s: string) {
    IsPrefixedHex(s, 64)
  }

  /** A well-formed fallback key is 66 characters long and already prefixed. */
  lemma DevKeyShape(s: string)
    requires IsDevKey(s)
    ensures |s| == 66 && HasHexPrefix(s) && WithHexPrefix(s) == s
  {
  }

  /** The `catch` of `getEvmPrivateKey`: a daemon key is returned as is; on a
      daemon failure `LOCAL_DEV_PK` is returned if it is set, non-empty and a
      well-formed key, and otherwise the daemon's own error is rethrown. */
  function WithFallback(daemon: Result<string, DaemonError>, localDevPk: Option<string>)
    : (r: Result<string, DaemonError>)
    ensures daemon.Success? ==> r == daemon
    ensures daemon.Failure? ==>
              (r.Success? <==> localDevPk.Some? && IsDevKey(localDevPk.value))
    ensures daemon.Failure? && r.Success? ==> r.value == localDevPk.value
    ensures r.Failure? ==> r == daemon
  {
    match daemon
    case Success(_) => daemon
    case Failure(_) =>
      if localDevPk.Some? && localDevPk.value != "" && IsDevKey(localDevPk.value)
      then Success(localDevPk.value)
      else daemon
  }

  /** The key `getEvmPrivateKey` settles with. */
  function ResolvedKey(daemon: Daemon, localDevPk: Option<string>): Result<string, DaemonError> {
    WithFallback(GenerateOutcome(daemon), localDevPk)
  }

  /** `getEvmPrivateKey(keyId)`: always asks the daemon for a secp256k1 key. */
  method GetEvmPrivateKey(keyId: string, daemon: Daemon, localDevPk: Option<string>)
    returns (result: Result<string, DaemonError>, issued: Option<Request>)
    ensures issued.Some? ==> issued.value.payload == Payload(keyId, Secp256k1)
    ensures issued == (if daemon.socketPresent then Some(GenerateRequest(keyId, Some(Secp256k1))) else None)
    ensures result == ResolvedKey(daemon, localDevPk)
  {
    var generated;
    generated, issued := GenerateKey(keyId, Some(Secp256k1), daemon);
    result := WithFallback(generated, localDevPk);
  }

  /** Whoever supplies it, a resolved key starts with "0x": the daemon's key is
      normalised and a fallback key must match the 64-digit pattern. */
  lemma ResolvedKeyIsPrefixed(daemon: Daemon, localDevPk: Option<string>)
    requires ResolvedKey(daemon, localDevPk).Success?
    ensures HasHexPrefix(ResolvedKey(daemon, localDevPk).value)
  {
    if GenerateOutcome(daemon).Success? {
      GeneratedKeyIsDaemonKey(daemon);
    }
  }

  /** A working daemon always wins: `LOCAL_DEV_PK` makes no difference. */
  lemma DaemonKeyIgnoresFallback(daemon: Daemon, pk1: Option<string>, pk2: Option<string>)
    requires GenerateOutcome(daemon).Success?
    ensures ResolvedKey(daemon, pk1) == ResolvedKey(daemon, pk2) == GenerateOutcome(daemon)
  {
  }

  /** With the daemon offline, the outcome is the fallback key exactly when it
      is well formed, and otherwise the original `SocketMissing` error. */
  lemma OfflineOutcome(daemon: Daemon, localDevPk: Option<string>)
    requires !daemon.socketPresent
    ensures ResolvedKey(daemon, localDevPk) ==
              if localDevPk.Some? && IsDevKey(localDevPk.value) then Success(localDevPk.value)
              else Failure(SocketMissing)
  {
  }

  /** n copies of "11": 2n hex digits. */
  function RepeatedElevens(n: nat): (s: string)
    ensures |s| == 2 * n && AllHex(s)
  {
    if n == 0 then "" else "11" + RepeatedElevens(n - 1)
  }

  /** With the daemon offline, `LOCAL_DEV_PK = "0x" + "11" * 32` is returned verbatim,
      while a 63-digit value or one prefixed "0X" is refused and the daemon's error stands. */
  lemma OfflineFallbackExamples(daemon: Daemon)
    requires !daemon.socketPresent
    ensures ResolvedKey(daemon, Some("0x" + RepeatedElevens(32))) == Success("0x" + RepeatedElevens(32))
    ensures ResolvedKey(daemon, Some("0x1" + RepeatedElevens(31))) == Failure(SocketMissing)
    ensures ResolvedKey(daemon, Some("0X" + RepeatedElevens(32))) == Failure(SocketMissing)
    ensures ResolvedKey(daemon, None) == Failure(SocketMissing)
  {
    var good := "0x" + RepeatedElevens(32);
    assert good[2..] == RepeatedElevens(32);
    assert IsDevKey(good);
  }
}
