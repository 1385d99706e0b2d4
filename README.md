# demo-rofl-keygen: key acquisition and request handling, in Dafny

This project models the two files of demo-rofl-keygen that make decisions of their own.

- `src/appd.ts` obtains an EVM private key from the ROFL application daemon (`appd`) over the UNIX socket `/run/rofl-appd.sock`. `generateKey` sends `POST /rofl/v1/keys/generate` with `{key_id, kind}`. It builds the response body from its chunks and extracts a non-empty string `key`, adding a `0x` prefix when the key lacks one. `getEvmPrivateKey` always asks for a `secp256k1` key. If the daemon fails, it falls back to `LOCAL_DEV_PK`, but only when that value is `0x` followed by 64 hex digits. Otherwise it rethrows the daemon's error unchanged.
- `src/server.ts` is the HTTP service. It reads its configuration defaults, validates the `/sign-message` and `/send-eth` bodies, and fixes the order of each handler's steps. It also turns a failure into a status and an error message: 500 with "internal error" on `/address`, 400 with "bad request" on the other routes.

Modules:

- `Wrappers` (Option, Result).
- `Text` (digit and hex classes, and the anchored `^0x[0-9a-fA-F]{n}$` pattern).
- `Json` (how one property of a parsed JSON value looks).
- `Appd` (src/appd.ts).
- `Server` (src/server.ts).

Several outside interactions are inputs of the model rather than behaviour it computes:

- The daemon is an input `Appd.Daemon`. It gives whether the socket file exists, what the round trip produced (a transport error, or the response's text chunks), and a function standing for `JSON.parse`. That function is applied to the body the model accumulates.
- `LOCAL_DEV_PK` is an `Option<string>`. The environment is a `map<string, string>`.
- The wallet library calls are function parameters of the handlers: address derivation, signing, `getAddress` checksumming and `sendEth`.
- Each handler returns its reply together with the trace of effects it caused. The trace records the call to `getEvmPrivateKey`, the request on the daemon socket, and the calls into the wallet library: wallet creation with address derivation on `/address`, wallet creation with signing on `/sign-message`, and wallet creation with `sendEth` on `/send-eth`. This makes "validation fails, so the key is never resolved and nothing is sent" a statement about the trace. Such an entry records that the call was made, not that it reached the chain: `sendEth` may still throw before submitting, for example when `parseEther` refuses an amount with more than 18 decimals.

Two points about the fallback and the error paths:

- There is no separate switch that enables the fallback (src/appd.ts:68-69). The only gate is that `LOCAL_DEV_PK` is set, non-empty and matches `^0x[0-9a-fA-F]{64}$`, and the model has exactly that gate.
- A body that is not valid JSON does not produce a "Bad response" error. `JSON.parse`'s own error is passed on instead (src/appd.ts:47-48). The model keeps these apart as `InvalidJson` and `BadResponse`.

The code never looks at the daemon's HTTP status. A body with a usable `key` is accepted whatever the status, so the model's `Exchange` carries no status.

## Model

| member | source | states |
|---|---|---|
| `Appd.ParseKind` | src/appd.ts:5-7 | `KeyKind` is exactly the five spellings `secp256k1`, `ed25519`, `raw-256`, `raw-384` and the misspelled `raw-386`; each accepted string is the spelling of the kind it reads as |
| `Appd.SpellingRoundTrip` | src/appd.ts:7 | every kind's spelling is one of the accepted strings and reads back as that kind |
| `Appd.SpellingInjective` | src/appd.ts:7 | distinct kinds have distinct spellings, so `raw-384` and `raw-386` stay distinguishable in the payload |
| `Appd.GenerateRequest` | src/appd.ts:14-16 | the request is `POST /rofl/v1/keys/generate` on the daemon socket; its payload carries exactly the given `key_id` and the given kind, and `secp256k1` when the kind is omitted |
| `Appd.Message` | src/appd.ts:18-48 | the message of each failure: the fixed socket-missing text, `"Bad response: " + body`, and the parser's or transport's own message |
| `Appd.BadResponseBodyReadBack` | src/appd.ts:44 | a "Bad response" message is the 14-character lead followed by the whole body, so the body can be read back from it |
| `Appd.ConcatAppend` | src/appd.ts:37-39 | accumulating chunks `a` then `b` gives body(`a`) followed by body(`b`) |
| `Appd.ChunkInPlace` | src/appd.ts:37-39 | the body is the in-order concatenation of the chunks: chunk k appears unchanged right after everything received before it |
| `Appd.WithHexPrefix` | src/appd.ts:45 | the result always starts with `0x`; a key already starting with `0x` is returned unchanged, any other key gets `0x` in front |
| `Appd.WithHexPrefixIdempotent` | src/appd.ts:45 | normalising twice is the same as normalising once |
| `Appd.WithHexPrefixKeepsDigits` | src/appd.ts:45 | after the prefix come exactly the daemon's characters, less their own `0x` if present |
| `Appd.KeyFromBody` | src/appd.ts:41-49 | the body yields a key if and only if it parses and its `key` is a non-empty string, and the key is then that string normalised; a parse error passes on the parser's error; a missing, non-string or empty `key` gives "Bad response" with the whole body |
| `Appd.GeneratedKeyIsDaemonKey` | src/appd.ts:36-50 | a key from `generateKey` starts with `0x`, needed the socket and a response, and is the daemon's non-empty `key` with the prefix added only if missing |
| `Appd.MissingKeyIsBadResponse` | src/appd.ts:43-44 | a parsed response whose `key` is missing, not a string, or `""` yields the "Bad response" error and never a key |
| `Appd.GenerateKey` | src/appd.ts:14-56 | with no socket file it fails with the socket-missing error and issues no request; otherwise it issues exactly the request for the given `key_id` and kind; it accumulates the body chunk by chunk and settles as the daemon outcome of that body |
| `Appd.DevKeyShape` | src/appd.ts:69 | a fallback key that passes the pattern is 66 characters long and already `0x`-prefixed |
| `Appd.WithFallback` | src/appd.ts:65-73 | a daemon key is returned as is; after a daemon failure, the fallback is returned if and only if it is set and matches `^0x[0-9a-fA-F]{64}$`; every failure returned is the daemon's original error, unchanged |
| `Appd.GetEvmPrivateKey` | src/appd.ts:64-74 | the daemon is only ever asked for `secp256k1` under the given key id, and the result is the daemon outcome with the fallback policy applied |
| `Appd.ResolvedKeyIsPrefixed` | src/appd.ts:64-74 | whichever source it comes from, a resolved key starts with `0x` |
| `Appd.DaemonKeyIgnoresFallback` | src/appd.ts:66 | when the daemon succeeds, the resolved key is the daemon's key whatever `LOCAL_DEV_PK` is |
| `Appd.OfflineOutcome` | src/appd.ts:67-73 | with the socket missing, the result is the fallback exactly when it is well formed, and otherwise the socket-missing error |
| `Appd.OfflineFallbackExamples` | src/appd.ts:68-72 | offline, `"0x" + "11"*32` is returned verbatim; a 63-digit value, an `0X` prefix or an unset variable leave the daemon's error in place |
| `Text.PrefixedHexShape` | src/appd.ts:69 | a string matches `^0x[0-9a-fA-F]{n}$` if and only if it is `"0x"` followed by n hex digits of either case |
| `Server.Setting` | src/server.ts:11-13 | `process.env[name] ?? default`: an unset variable gives the default, a set one (even empty) gives its value |
| `Server.NumberOf` | src/server.ts:13 | `Number` of a decimal digit string is a number, exact in the model (JavaScript's agrees up to 2^53, see Left out); `Number("")` is 0; other strings are NaN |
| `Server.NumberOfDecimalText` | src/server.ts:13 | the model's `Number` reads every decimal spelling back as the number it spells; JavaScript's `Number` does so for n up to 2^53 |
| `Server.LoadConfig` | src/server.ts:11-13 | key id, RPC URL and chain id each come from their variable, or from their default when it is unset; the port, read the same way at line 62, is part of the same record |
| `Server.DefaultConfig` | src/server.ts:11-13 | unset configuration gives `KEY_ID = "evm:base:sepolia"`, RPC URL `https://sepolia.base.org` and chain id 84532, and port 8080 (line 62) |
| `Server.AddressShape` | src/server.ts:45 | `to` passes if and only if it is 42 characters: `0x` and 40 hex digits of either case |
| `Server.AmountPatternShape` | src/server.ts:46 | `amount` matches `^\d+(\.\d+)?$` if and only if it is non-empty, made of digits and dots, has at most one dot, and begins and ends with a digit |
| `Server.AmountExamples` | src/server.ts:46 | `""`, `".5"`, `"1."`, `"-1"` and `"1.2.3"` are rejected; `"0"`, `"12"` and `"0.25"` are accepted |
| `Server.ParseSignBody` | src/server.ts:31-32 | the body is accepted if and only if `message` is a string of length at least 1, and the message is that string; any rejection is a schema error |
| `Server.ParseSendBody` | src/server.ts:44-48 | the body is accepted if and only if both `to` and `amount` match their patterns; a rejection of an object body names exactly the fields that failed |
| `Server.ErrorReply` | src/server.ts:24-25 | a failure gives status 500 on `/address` and 400 on the other routes; the error text is the caught value's own message when it has one, and the route's default otherwise |
| `Server.DefaultMessages` | src/server.ts:37-38 | without a message, the defaults are "internal error" on `/address` and "bad request" on `/sign-message` and `/send-eth`; an own message, even `""`, is kept |
| `Server.KeyFailureReply` | src/server.ts:24-25 | a key-resolution failure is reported with the daemon error's message |
| `Server.Health` | src/server.ts:15-17 | `/health` always answers 200 with `{ok: true}` |
| `Server.ResolveConfiguredKey` | src/server.ts:53 | the handlers resolve the configured `KEY_ID`: one `getEvmPrivateKey` call and at most one daemon request, and the fallback-applied outcome |
| `Server.HandleAddress` | src/server.ts:19-27 | resolve the key, then derive the address; a failure at either step gives a 500 reply whose text follows the error mapping; success reports key id, checksummed address and chain id |
| `Server.HandleSignMessage` | src/server.ts:29-40 | validate first: an invalid body gives a 400 reply with no key resolved and nothing signed; otherwise resolve the key and sign the validated message with it; every failure is a 400 |
| `Server.HandleSendEth` | src/server.ts:42-60 | if schema validation or checksumming fails, the key is never resolved and nothing is sent; the effect trace is non-empty exactly when both pass; a transfer uses the resolved key, the checksummed recipient, the validated amount and the configured endpoint; every failure is a 400 |

## Left out

- Socket and HTTP transport: `existsSync`, `request` and the response events are inputs (`Appd.Daemon`). A transport error that arrives after part of a response, and a daemon that never answers (which leaves the caller waiting forever), are not modelled.
- `JSON.parse` and `JSON.stringify`: library calls. The parser is a function parameter applied to the accumulated body. The `Content-Length` header, the UTF-8 byte length of the serialised payload, is not modelled, and neither is UTF-8 decoding of the chunks, which arrive as text.
- src/keys.ts and src/evm.ts: wrappers over the ethers library. Key-to-address derivation needs secp256k1, EIP-55 checksumming needs Keccak-256, and signing and sending go to the chain, so all of them are opaque function parameters of the handlers. This includes the dropped-transaction check of `sendEth`.
- src/scripts/*.ts: command-line plumbing (argument slicing, files, console output, exit codes).
- `getAppId`: src/scripts/get-app-id.ts imports it from src/appd.ts, which does not define it, so the app-identity request is not part of this model.
- Express itself (`listen`, JSON body parsing, async scheduling): each handler is a straight-line sequence of steps.
- `Server.NumberOf`: models JavaScript's `Number` only for plain decimal digits and the empty string. Other spellings `Number` accepts come out as NaN (`None`). These include surrounding whitespace, a sign, a fraction, an exponent, `0x`/`0o`/`0b` prefixes and `Infinity`. The model's value is also exact, while JavaScript's is a double: digit strings above 2^53 are rounded (`"9007199254740993"` gives 9007199254740992), and those of more than about 309 digits give `Infinity`.
- `Server.NumberOfDecimalText`: holds for the model's `Number` for every n, but JavaScript's `Number` reads a decimal spelling back exactly only for n up to 2^53, because of the rounding above.
- `Server.ErrorReply`: the text zod gives to a schema error is the library's rendering of its issues. The model keeps only the failing field paths (`SchemaText`).
