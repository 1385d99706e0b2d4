/** The HTTP service of src/server.ts: its configuration defaults, the request
    validators, the order in which each handler does its steps, and how a
    failure becomes a status and an error message.

    Express, the wallet library and the chain are out of the model: the calls
    into them are function parameters, and each handler returns the reply it
    sends together with the trace of effects it caused. */
module Server {
  import opened Wrappers
  import opened Text
  import Json
  import Appd

  // ---------------------------------------------------------------- configuration

  const DefaultKeyId: string := "evm:base:sepolia"
  const DefaultRpcUrl: string := "https://sepolia.base.org"
  const DefaultChainId: string := "84532"
  const DefaultPort: string := "8080"

  /** `process.env[name] ?? default`: only an unset variable takes the default;
      a variable set to the empty string keeps it. */
  function Setting(env: map<string, string>, name: string, default: string): (v: string)
    ensures name in env ==> v == env[name]
    ensures name !in env ==> v == default
  {
    if name in env then env[name] else default
  }

  /** The value of a string of decimal digits ("" is 0). */
  function DecimalValue(s: string): nat
    requires AllDigits(s)
  {
    if s == [] then 0
    else 10 * DecimalValue(s[..|s| - 1]) + (s[|s| - 1] as int - '0' as int)
  }

  /** `Number(text)` for the spellings the model covers: a string of decimal
      digits, including the empty string. `None` stands for NaN. The value is
      exact; JavaScript's double rounds above 2^53 and overflows to Infinity. */
  function NumberOf(text: string): (n: Option<nat>)
    ensures n.Some? <==> AllDigits(text)
    ensures text == "" ==> n == Some(0)
  {
    if AllDigits(text) then Some(DecimalValue(text)) else None
  }

  /** The decimal spelling of n, the reference `NumberOf` is checked against. */
  function DecimalText(n: nat): (s: string)
    ensures IsDigits(s)
  {
    if n < 10 then [('0' as int + n) as char]
    else DecimalText(n / 10) + [('0' as int + n % 10) as char]
  }

  /** The model's `Number` reads back every decimal spelling as the number it
      spells. JavaScript's `Number` agrees only up to 2^53 (see `NumberOf`). */
  lemma {:induction false} NumberOfDecimalText(n: nat)
    ensures NumberOf(DecimalText(n)) == Some(n)
  {
    var s := DecimalText(n);
    if n >= 10 {
      NumberOfDecimalText(n / 10);
      assert s[..|s| - 1] == DecimalText(n / 10);
      assert s[|s| - 1] as int - '0' as int == n % 10;
      assert DecimalValue(s) == 10 * (n / 10) + n % 10;
    }
  }

  /** The configuration the module reads once at start-up. */
  datatype Config = Config(keyId: string, rpcUrl: string, chainId: Option<nat>, port: Option<nat>)

  function LoadConfig(env: map<string, string>): (c: Config)
    ensures c.keyId == Setting(env, "KEY_ID", DefaultKeyId)
    ensures c.rpcUrl == Setting(env, "BASE_RPC_URL", DefaultRpcUrl)
    ensures c.chainId == NumberOf(Setting(env, "BASE_CHAIN_ID", DefaultChainId))
    ensures c.port == NumberOf(Setting(env, "PORT", DefaultPort))
  {
    Config(Setting(env, "KEY_ID", DefaultKeyId),
           Setting(env, "BASE_RPC_URL", DefaultRpcUrl),
           NumberOf(Setting(env, "BASE_CHAIN_ID", DefaultChainId)),
           NumberOf(Setting(env, "PORT", DefaultPort)))
  }

  /** With nothing set, the service uses key "evm:base:sepolia" on Base Sepolia
      (https://sepolia.base.org, chain 84532) and listens on port 8080. */
  lemma DefaultConfig()
    ensures LoadConfig(map[]) == Config("evm:base:sepolia", "https://sepolia.base.org", Some(84532), Some(8080))
  {
    NumberOfDecimalText(84532);
    NumberOfDecimalText(8080);
    assert DecimalText(84532) == DefaultChainId;
    assert DecimalText(8080) == DefaultPort;
  }

  // ---------------------------------------------------------------- request validation

  /** An Express request body as `express.json()` leaves it: an object with
      properties, or anything else (zod's `z.object` refuses the latter). */
  datatype Body = NonObject | Object(props: map<string, Json.Prop>)

  function Field(body: Body, name: string): (p: Json.Prop)
    ensures body.NonObject? ==> p == Json.Absent
  {
    match body
    case NonObject => Json.Absent
    case Object(props) => if name in props then props[name] else Json.Absent
  }

  /** `z.string().min(1)`. */
  predicate IsMessage(p: Json.Prop) {
    p.Str? && |p.value| >= 1
  }

  /** `z.string().regex(/^0x[0-9a-fA-F]{40}$/)`. */
  predicate IsAddress(p: Json.Prop) {
    p.Str? && IsPrefixedHex(p.value, 40)
  }

  /** `/^\d+(\.\d+)?$/`: digits, optionally followed by one "." and more digits. */
  predicate IsAmountText(s: string) {
    IsDigits(s) ||
    exists k :: 0 < k < |s| && s[k] == '.' && IsDigits(s[..k]) && IsDigits(s[k + 1..])
  }

  /** `z.string().regex(/^\d+(\.\d+)?$/)`. */
  predicate IsAmount(p: Json.Prop) {
    p.Str? && IsAmountText(p.value)
  }

  /** An address passes exactly when it is 42 characters: "0x" and 40 hex digits of either case. */
  lemma AddressShape(s: string)
    ensures IsAddress(Json.Str(s)) <==>
              |s| == 42 && s[0] == '0' && s[1] == 'x' && forall i :: 2 <= i < 42 ==> IsHexDigit(s[i])
  {
    if |s| == 42 {
      assert forall i :: 2 <= i < 42 ==> s[2..][i - 2] == s[i];
    }
  }

  /** An independent description of the amount pattern: non-empty, digits and
      dots only, at most one dot, and a digit at each end. */
  predicate AmountShaped(s: string) {
    && |s| > 0
    && IsDigit(s[0]) && IsDigit(s[|s| - 1])
    && (forall i :: 0 <= i < |s| ==> IsDigit(s[i]) || s[i] == '.')
    && (forall i, j :: 0 <= i < j < |s| && s[i] == '.' ==> s[j] != '.')
  }

  lemma DigitsSlice(s: string, lo: int, hi: int)
    requires 0 <= lo < hi <= |s|
    requires forall i :: lo <= i < hi ==> IsDigit(s[i])
    ensures IsDigits(s[lo..hi])
  {
    assert forall i :: 0 <= i < hi - lo ==> s[lo..hi][i] == s[lo + i];
  }

  /** The amount regex accepts exactly the strings of that shape. */
  lemma AmountPatternShape(s: string)
    ensures IsAmountText(s) <==> AmountShaped(s)
  {
    if IsAmountText(s) && !IsDigits(s) {
      var k :| 0 < k < |s| && s[k] == '.' && IsDigits(s[..k]) && IsDigits(s[k + 1..]);
      assert forall i :: 0 <= i < k ==> s[..k][i] == s[i];
      assert forall i :: k < i < |s| ==> s[k + 1..][i - k - 1] == s[i];
      assert forall i :: 0 <= i < |s| && i != k ==> IsDigit(s[i]);
    }
    if AmountShaped(s) && !IsDigits(s) {
      var k :| 0 <= k < |s| && !IsDigit(s[k]);
      assert s[k] == '.';
      assert forall i :: 0 <= i < |s| && i != k ==> IsDigit(s[i]);
      DigitsSlice(s, 0, k);
      DigitsSlice(s, k + 1, |s|);
      assert IsAmountText(s);
    }
  }

  /** The listed rejections and acceptances of the amount pattern. */
  lemma AmountExamples()
    ensures !IsAmountText("") && !IsAmountText(".5") && !IsAmountText("1.")
    ensures !IsAmountText("-1") && !IsAmountText("1.2.3")
    ensures IsAmountText("0") && IsAmountText("12") && IsAmountText("0.25")
  {
    AmountPatternShape("");
    AmountPatternShape(".5");
    AmountPatternShape("1.");
    AmountPatternShape("-1");
    AmountPatternShape("1.2.3");
    assert "1.2.3"[1] == '.' && "1.2.3"[3] == '.';
    AmountPatternShape("0");
    AmountPatternShape("12");
    AmountPatternShape("0.25");
  }

  /** What a handler caught. `SchemaError` is zod's error listing the paths of
      the fields that failed (empty when the body is not an object);
      `KeyError` is a failure of key resolution; `LibraryError` is anything an
      opaque library call threw, with its `message` property if it has one. */
  datatype Fault =
    | SchemaError(paths: seq<string>)
    | KeyError(cause: Appd.DaemonError)
    | LibraryError(message: Option<string>)

  /** The validated `/sign-message` body. */
  function ParseSignBody(body: Body): (r: Result<string, Fault>)
    ensures r.Success? <==> IsMessage(Field(body, "message"))
    ensures r.Success? ==> r.value == Field(body, "message").value && r.value != ""
    ensures r.Failure? ==> r.error.SchemaError?
  {
    match body
    case NonObject => Failure(SchemaError([]))
    case Object(_) =>
      if IsMessage(Field(body, "message")) then Success(Field(body, "message").value)
      else Failure(SchemaError(["message"]))
  }

  /** A validated `/send-eth` body. */
  datatype TransferRequest = TransferRequest(to: string, amount: string)

  function ParseSendBody(body: Body): (r: Result<TransferRequest, Fault>)
    ensures r.Success? <==> IsAddress(Field(body, "to")) && IsAmount(Field(body, "amount"))
    ensures r.Success? ==>
              r.value == TransferRequest(Field(body, "to").value, Field(body, "amount").value) &&
              |r.value.to| == 42 && IsAmountText(r.value.amount)
    ensures r.Failure? ==> r.error.SchemaError?
    ensures r.Failure? && body.Object? ==>
              ("to" in r.error.paths <==> !IsAddress(Field(body, "to"))) &&
              ("amount" in r.error.paths <==> !IsAmount(Field(body, "amount")))
  {
    match body
    case NonObject => Failure(SchemaError([]))
    case Object(_) =>
      var to, amount := Field(body, "to"), Field(body, "amount");
      var failed := (if IsAddress(to) then [] else ["to"]) + (if IsAmount(amount) then [] else ["amount"]);
      if failed == [] then Success(TransferRequest(to.value, amount.value))
      else Failure(SchemaError(failed))
  }

  // ---------------------------------------------------------------- replies

  datatype Route = AddressRoute | SignMessageRoute | SendEthRoute

  /** The status each fallible route answers a failure with. */
  function FailureStatus(route: Route): nat {
    if route == AddressRoute then 500 else 400
  }

  /** The message used when the caught value has none. */
  function DefaultMessage(route: Route): string {
    if route == AddressRoute then "internal error" else "bad request"
  }

  /** The text of an error reply: a message, or zod's rendering of its issues
      (whose wording is the library's, not modelled). */
  datatype ErrorText = Plain(text: string) | SchemaText(paths: seq<string>)

  /** `e?.message`. */
  function MessageOf(f: Fault): Option<ErrorText> {
    match f
    case SchemaError(paths) => Some(SchemaText(paths))
    case KeyError(cause) => Some(Plain(Appd.Message(cause)))
    case LibraryError(m) => if m.Some? then Some(Plain(m.value)) else None
  }

  datatype Receipt = Receipt(hash: string, status: Option<nat>)

  datatype ReplyBody =
    | HealthBody(ok: bool)
    | AddressBody(keyId: string, address: string, chainId: Option<nat>)
    | SignatureBody(signature: string, address: string)
    | TransferBody(txHash: string, txStatus: Option<nat>)
    | ErrorBody(error: ErrorText)

  datatype Reply = Reply(status: nat, body: ReplyBody)

  /** The `catch` block of each handler: `res.status(..).json({ error: e?.message ?? default })`. */
  function ErrorReply(route: Route, f: Fault): (r: Reply)
    ensures r.status == 500 <==> route == AddressRoute
    ensures r.status == 400 <==> route != AddressRoute
    ensures r.body.ErrorBody?
    ensures MessageOf(f).Some? ==> r.body.error == MessageOf(f).value
    ensures MessageOf(f).None? ==> r.body.error == Plain(DefaultMessage(route))
  {
    Reply(FailureStatus(route), ErrorBody(MessageOf(f).GetOr(Plain(DefaultMessage(route)))))
  }

  /** A thrown value without a message gets "internal error" on `/address` and
      "bad request" elsewhere, while an error's own message, even the empty one, is kept. */
  lemma DefaultMessages(m: string)
    ensures ErrorReply(AddressRoute, LibraryError(None)) == Reply(500, ErrorBody(Plain("internal error")))
    ensures ErrorReply(SignMessageRoute, LibraryError(None)) == Reply(400, ErrorBody(Plain("bad request")))
    ensures ErrorReply(SendEthRoute, LibraryError(None)) == Reply(400, ErrorBody(Plain("bad request")))
    ensures ErrorReply(AddressRoute, LibraryError(Some(m))) == Reply(500, ErrorBody(Plain(m)))
  {
  }

  /** On every route, a key-resolution failure is reported with the daemon error's own message. */
  lemma KeyFailureReply(route: Route, e: Appd.DaemonError)
    ensures ErrorReply(route, KeyError(e)).body == ErrorBody(Plain(Appd.Message(e)))
  {
  }

  /** `GET /health`. */
  function Health(): (r: Reply)
    ensures r.status == 200 && r.body == HealthBody(true)
  {
    Reply(200, HealthBody(true))
  }

  // ---------------------------------------------------------------- handlers

  /** A transfer as handed to the wallet: signer key, checksummed recipient,
      decimal ether amount, and the provider it is sent through. */
  datatype Transfer = Transfer(key: string, to: string, amount: string, rpcUrl: string, chainId: Option<nat>)

  datatype Signed = Signed(signature: string, address: string)

  /** What a handler did outside itself, in order. `Derive`, `Sign` and `Send`
      record that the opaque library call was made, whether or not it then
      threw before reaching the chain. */
  datatype Effect =
    | ResolveKey(keyId: string)              // `getEvmPrivateKey` was called
    | DaemonRequest(request: Appd.Request)   // a request went out on the daemon socket
    | Derive(key: string)                    // wallet creation and address derivation were called
    | Sign(key: string, message: string)     // wallet creation and signing were called
    | Send(transfer: Transfer)               // wallet creation and `sendEth` were called

  /** The effects of one call of `getEvmPrivateKey`. */
  function KeyEffects(keyId: string, daemon: Appd.Daemon): (es: seq<Effect>)
    ensures |es| >= 1 && es[0] == ResolveKey(keyId)
    ensures |es| == 2 <==> daemon.socketPresent
  {
    [ResolveKey(keyId)] +
    if daemon.socketPresent then [DaemonRequest(Appd.GenerateRequest(keyId, Some(Appd.Secp256k1)))] else []
  }

  /** Resolves the key as `getEvmPrivateKey(KEY_ID)` and reports the effects. */
  method ResolveConfiguredKey(cfg: Config, daemon: Appd.Daemon, localDevPk: Option<string>)
    returns (key: Result<string, Appd.DaemonError>, effects: seq<Effect>)
    ensures key == Appd.ResolvedKey(daemon, localDevPk)
    ensures effects == KeyEffects(cfg.keyId, daemon)
  {
    var issued;
    key, issued := Appd.GetEvmPrivateKey(cfg.keyId, daemon, localDevPk);
    effects := [ResolveKey(cfg.keyId)] + if issued.Some? then [DaemonRequest(issued.value)] else [];
  }

  /** `GET /address`: resolve the key, derive the wallet's checksummed address
      (`derive`), and report it with the key id and the chain id. */
  method HandleAddress(cfg: Config, daemon: Appd.Daemon, localDevPk: Option<string>,
                       derive: string -> Result<string, Fault>)
    returns (reply: Reply, effects: seq<Effect>)
    ensures var key := Appd.ResolvedKey(daemon, localDevPk);
            if key.Failure? then
              reply == ErrorReply(AddressRoute, KeyError(key.error)) && effects == KeyEffects(cfg.keyId, daemon)
            else
              effects == KeyEffects(cfg.keyId, daemon) + [Derive(key.value)] &&
              reply == match derive(key.value)
                       case Failure(f) => ErrorReply(AddressRoute, f)
                       case Success(address) => Reply(200, AddressBody(cfg.keyId, address, cfg.chainId))
    ensures reply.status == 200 || reply.status == 500
  {
    var key;
    key, effects := ResolveConfiguredKey(cfg, daemon, localDevPk);
    if key.Failure? {
      return ErrorReply(AddressRoute, KeyError(key.error)), effects;
    }
    effects := effects + [Derive(key.value)];
    var address := derive(key.value);
    if address.Failure? {
      return ErrorReply(AddressRoute, address.error), effects;
    }
    reply := Reply(200, AddressBody(cfg.keyId, address.value, cfg.chainId));
  }

  /** `POST /sign-message`: validate the body, then resolve the key, then sign
      with it (`sign` stands for wallet creation, signing and checksumming). */
  method HandleSignMessage(cfg: Config, body: Body, daemon: Appd.Daemon, localDevPk: Option<string>,
                           sign: (string, string) -> Result<Signed, Fault>)
    returns (reply: Reply, effects: seq<Effect>)
    ensures var message := ParseSignBody(body);
            var key := Appd.ResolvedKey(daemon, localDevPk);
            if message.Failure? then
              effects == [] && reply == ErrorReply(SignMessageRoute, message.error)
            else if key.Failure? then
              effects == KeyEffects(cfg.keyId, daemon) && reply == ErrorReply(SignMessageRoute, KeyError(key.error))
            else
              effects == KeyEffects(cfg.keyId, daemon) + [Sign(key.value, message.value)] &&
              reply == match sign(key.value, message.value)
                       case Failure(f) => ErrorReply(SignMessageRoute, f)
                       case Success(s) => Reply(200, SignatureBody(s.signature, s.address))
    ensures reply.status == 200 || reply.status == 400
    ensures (exists e :: e in effects && e.Sign?) ==> IsMessage(Field(body, "message"))
  {
    var message := ParseSignBody(body);
    if message.Failure? {
      return ErrorReply(SignMessageRoute, message.error), [];
    }
    var key;
    key, effects := ResolveConfiguredKey(cfg, daemon, localDevPk);
    if key.Failure? {
      return ErrorReply(SignMessageRoute, KeyError(key.error)), effects;
    }
    effects := effects + [Sign(key.value, message.value)];
    var signed := sign(key.value, message.value);
    if signed.Failure? {
      return ErrorReply(SignMessageRoute, signed.error), effects;
    }
    reply := Reply(200, SignatureBody(signed.value.signature, signed.value.address));
  }

  /** `POST /send-eth`: validate the body, checksum the recipient (`checksum`
      stands for `getAddress`), and only then resolve the key and send. */
  method HandleSendEth(cfg: Config, body: Body, daemon: Appd.Daemon, localDevPk: Option<string>,
                       checksum: string -> Result<string, Fault>, send: Transfer -> Result<Receipt, Fault>)
    returns (reply: Reply, effects: seq<Effect>)
    ensures var request := ParseSendBody(body);
            if request.Failure? then
              effects == [] && reply == ErrorReply(SendEthRoute, request.error)
            else if checksum(request.value.to).Failure? then
              effects == [] && reply == ErrorReply(SendEthRoute, checksum(request.value.to).error)
            else
              var key := Appd.ResolvedKey(daemon, localDevPk);
              if key.Failure? then
                effects == KeyEffects(cfg.keyId, daemon) && reply == ErrorReply(SendEthRoute, KeyError(key.error))
              else
                var transfer := Transfer(key.value, checksum(request.value.to).value, request.value.amount,
                                         cfg.rpcUrl, cfg.chainId);
                effects == KeyEffects(cfg.keyId, daemon) + [Send(transfer)] &&
                reply == match send(transfer)
                         case Failure(f) => ErrorReply(SendEthRoute, f)
                         case Success(receipt) => Reply(200, TransferBody(receipt.hash, receipt.status))
    ensures reply.status == 200 || reply.status == 400
    ensures effects != [] <==>
              ParseSendBody(body).Success? && checksum(ParseSendBody(body).value.to).Success?
  {
    var request := ParseSendBody(body);
    if request.Failure? {
      return ErrorReply(SendEthRoute, request.error), [];
    }
    var to := checksum(request.value.to);
    if to.Failure? {
      return ErrorReply(SendEthRoute, to.error), [];
    }
    var key;
    key, effects := ResolveConfiguredKey(cfg, daemon, localDevPk);
    if key.Failure? {
      return ErrorReply(SendEthRoute, KeyError(key.error)), effects;
    }
    var transfer := Transfer(key.value, to.value, request.value.amount, cfg.rpcUrl, cfg.chainId);
    effects := effects + [Send(transfer)];
    var receipt := send(transfer);
    if receipt.Failure? {
      return ErrorReply(SendEthRoute, receipt.error), effects;
    }
    reply := Reply(200, TransferBody(receipt.value.hash, receipt.value.status));
  }
}
