/** The signed request for a Predict manager (manager-message.ts), and the separation of all signed kinds. */
module ManagerMessage {
  import opened JsBasics
  import opened JsText
  import opened KeyValueMessage
  import opened TradeMessage

  const MANAGER_CREATE_MESSAGE_PREFIX := "leverx:manager:create:v1"

  datatype ManagerCreateIntent = ManagerCreateIntent(address: string, expiresAtMs: nat)

  function BuildManagerCreate(js: Numerics, f: ManagerCreateIntent): string {
    Render(MANAGER_CREATE_MESSAGE_PREFIX,
           [(Address, Normalize(f.address)), (ExpiresMs, NumberText(js, f.expiresAtMs))])
  }

  function ParseManagerCreate(js: Numerics, text: string): Result<ManagerCreateIntent> {
    var fields :- ParseFields(text, MANAGER_CREATE_MESSAGE_PREFIX);
    var address :- ParseAddressField(fields, Address);
    var expiresAtMs :- ParseNumberField(js, fields, ExpiresMs);
    Ok(ManagerCreateIntent(address, expiresAtMs))
  }

  /** The request survives the wire exactly when its address is an object id and its expiry is finite. */
  lemma ManagerCreateRoundTrip(js: Numerics, f: ManagerCreateIntent)
    requires Faithful(js) && IsNumber(js, f.expiresAtMs)
    ensures ParseManagerCreate(js, BuildManagerCreate(js, f)) == Ok(f.(address := Normalize(f.address)))
            <==> IsHexId(Normalize(f.address)) && IsFinite(js, f.expiresAtMs)
  {
    NumberTextIsOneLine(js, f.expiresAtMs);
    hide Name, NumberText, Render, ParseFields, ParseNumberField, Normalize, Faithful;
    if IsHexId(Normalize(f.address)) {
      HexIdIsPlain(Normalize(f.address));
      var pairs: Pairs := [(Address, Normalize(f.address)), (ExpiresMs, NumberText(js, f.expiresAtMs))];
      ParseRendered(MANAGER_CREATE_MESSAGE_PREFIX, pairs);
      var fields := ParseFields(BuildManagerCreate(js, f), MANAGER_CREATE_MESSAGE_PREFIX).value;
      assert Holds(fields, pairs[0].0, pairs[0].1) && Holds(fields, pairs[1].0, pairs[1].1);
      ReadAddress(fields, Address, f.address);
      ReadJsNumber(js, fields, ExpiresMs, f.expiresAtMs);
    }
  }

  datatype Kind = Mint | Redeem | Settle | RecoverManager | ManagerCreate

  predicate Accepts(js: Numerics, k: Kind, text: string) {
    match k
    case Mint => ParseMint(js, text).Ok?
    case Redeem => ParseRedeem(js, text).Ok?
    case Settle => ParseSettle(js, text).Ok?
    case RecoverManager => ParseRecoverManager(js, text).Ok?
    case ManagerCreate => ParseManagerCreate(js, text).Ok?
  }

  function Prefix(k: Kind): string {
    match k
    case Mint => TRADE_MINT_MESSAGE_PREFIX
    case Redeem => TRADE_REDEEM_MESSAGE_PREFIX
    case Settle => TRADE_SETTLE_MESSAGE_PREFIX
    case RecoverManager => TRADE_RECOVER_MANAGER_MESSAGE_PREFIX
    case ManagerCreate => MANAGER_CREATE_MESSAGE_PREFIX
  }

  lemma AcceptedPrefix(js: Numerics, k: Kind, text: string)
    requires Accepts(js, k, text)
    ensures Split(text, '\n')[0] == Prefix(k)
  {
    hide Name, ParseCommon, ParseAddressField, ParseNumberField, ParseU64Field, ParseOptionalU64, ParseOptionalNumber;
  }

  lemma PrefixesDiffer(j: Kind, k: Kind)
    requires Prefix(j) == Prefix(k)
    ensures j == k
  {
    assert TRADE_REDEEM_MESSAGE_PREFIX[13] == 'r' && TRADE_SETTLE_MESSAGE_PREFIX[13] == 's';
  }

  /** No text whatever, built or not, is accepted by the parsers of two kinds. */
  lemma AcceptedByOneKind(js: Numerics, text: string, j: Kind, k: Kind)
    requires Accepts(js, j, text) && Accepts(js, k, text)
    ensures j == k
  {
    hide Accepts, Prefix;
    AcceptedPrefix(js, j, text);
    AcceptedPrefix(js, k, text);
    PrefixesDiffer(j, k);
  }
}
