/** Signed trade intents: the four builders and parsers of trade-message.ts, and their expiry check. */
module TradeMessage {
  import opened JsBasics
  import opened JsText
  import opened KeyValueMessage

  const TRADE_MINT_MESSAGE_PREFIX := "leverx:trade:mint:v1"
  const TRADE_REDEEM_MESSAGE_PREFIX := "leverx:trade:redeem:v1"
  const TRADE_SETTLE_MESSAGE_PREFIX := "leverx:trade:settle:v1"
  const TRADE_RECOVER_MANAGER_MESSAGE_PREFIX := "leverx:trade:recover_manager:v1"

  const TRADE_MAX_TTL_MS := 5 * 60_000
  const TRADE_CLOCK_SKEW_MS := 30_000

  datatype Mode = Market | Limit

  /** The fields that all four intents share. */
  datatype Common = Common(
    address: string, accountId: string, predictManagerId: string, expiresAtMs: nat,
    oracleId: string, expiryMs: nat, strike: nat, higherStrike: nat, isUp: bool, isRange: bool)

  datatype MintIntent = MintIntent(
    common: Common, marginQuoteAtoms: nat, leverageBps: nat, quantity: nat, maxMintCost: nat,
    marketSlippageBps: nat, remintAfterDeleverage: bool, orderKind: Mode,
    limitPremiumPerUnit: nat, placementSlippageBps: nat)

  datatype RedeemIntent = RedeemIntent(
    common: Common, quantity: nat, minPayout: nat, redeemMode: Mode, minPremiumPerUnit: nat)

  datatype SettleIntent = SettleIntent(common: Common, quantity: nat)

  datatype RecoverManagerIntent = RecoverManagerIntent(common: Common, managerQuoteAtoms: nat)

  // ---- builders ------------------------------------------------------------

  function EncodeMode(m: Mode): (r: string)
    ensures '\n' !in r
  { if m.Limit? then "limit" else "market" }

  function CommonPairs(js: Numerics, c: Common): Pairs {
    [ (Address, Normalize(c.address)),
      (AccountId, Normalize(c.accountId)),
      (PredictManagerId, Normalize(c.predictManagerId)),
      (ExpiresMs, NumberText(js, c.expiresAtMs)),
      (OracleId, Normalize(c.oracleId)),
      (MarketExpiryMs, NumberText(js, c.expiryMs)),
      (Strike, NumberText(js, c.strike)),
      (HigherStrike, NumberText(js, c.higherStrike)),
      (IsUp, EncodeBool(c.isUp)),
      (IsRange, EncodeBool(c.isRange)) ]
  }

  function MintTail(js: Numerics, f: MintIntent): Pairs {
    [ (MarginQuoteAtoms, PrintNat(f.marginQuoteAtoms)),
      (LeverageBps, PrintNat(f.leverageBps)),
      (Quantity, PrintNat(f.quantity)),
      (MaxMintCost, PrintNat(f.maxMintCost)),
      (MarketSlippageBps, NumberText(js, f.marketSlippageBps)),
      (RemintAfterDeleverage, EncodeBool(f.remintAfterDeleverage)),
      (OrderKind, EncodeMode(f.orderKind)) ] +
    if f.orderKind.Limit? then
      [ (LimitPremiumPerUnit, PrintNat(f.limitPremiumPerUnit)),
        (PlacementSlippageBps, NumberText(js, f.placementSlippageBps)) ]
    else []
  }

  function RedeemTail(f: RedeemIntent): (pairs: Pairs)
    ensures |pairs| == 4
  {
    [ (Quantity, PrintNat(f.quantity)),
      (MinPayout, PrintNat(f.minPayout)),
      (RedeemMode, EncodeMode(f.redeemMode)),
      (MinPremiumPerUnit, PrintNat(f.minPremiumPerUnit)) ]
  }

  function SettleTail(f: SettleIntent): Pairs { [(Quantity, PrintNat(f.quantity))] }

  function RecoverManagerTail(f: RecoverManagerIntent): Pairs {
    [(ManagerQuoteAtoms, PrintNat(f.managerQuoteAtoms))]
  }

  function BuildMint(js: Numerics, f: MintIntent): string {
    Render(TRADE_MINT_MESSAGE_PREFIX, CommonPairs(js, f.common) + MintTail(js, f))
  }

  function BuildRedeem(js: Numerics, f: RedeemIntent): string {
    Render(TRADE_REDEEM_MESSAGE_PREFIX, CommonPairs(js, f.common) + RedeemTail(f))
  }

  function BuildSettle(js: Numerics, f: SettleIntent): string {
    Render(TRADE_SETTLE_MESSAGE_PREFIX, CommonPairs(js, f.common) + SettleTail(f))
  }

  function BuildRecoverManager(js: Numerics, f: RecoverManagerIntent): string {
    Render(TRADE_RECOVER_MANAGER_MESSAGE_PREFIX, CommonPairs(js, f.common) + RecoverManagerTail(f))
  }

  // ---- parsers -------------------------------------------------------------

  function ParseMode(fields: Fields, k: Key): Mode {
    if Name(k) in fields && fields[Name(k)] == "limit" then Limit else Market
  }

  function ParseCommon(js: Numerics, fields: Fields): Result<Common> {
    var expiresAtMs :- ParseNumberField(js, fields, ExpiresMs);
    var oracleId :- ParseAddressField(fields, OracleId);
    var expiryMs :- ParseU64Field(fields, MarketExpiryMs);
    var strike :- ParseU64Field(fields, Strike);
    var higherStrike :- ParseU64Field(fields, HigherStrike);
    var address :- ParseAddressField(fields, Address);
    var accountId :- ParseAddressField(fields, AccountId);
    var predictManagerId :- ParseAddressField(fields, PredictManagerId);
    Ok(Common(address, accountId, predictManagerId, expiresAtMs, oracleId,
              FromBigInt(js, expiryMs), FromBigInt(js, strike), FromBigInt(js, higherStrike),
              ParseBool(fields, IsUp), ParseBool(fields, IsRange)))
  }

  function ParseMint(js: Numerics, text: string): Result<MintIntent> {
    var fields :- ParseFields(text, TRADE_MINT_MESSAGE_PREFIX);
    var common :- ParseCommon(js, fields);
    var marginQuoteAtoms :- ParseU64Field(fields, MarginQuoteAtoms);
    var leverageBps :- ParseU64Field(fields, LeverageBps);
    var quantity :- ParseU64Field(fields, Quantity);
    var maxMintCost :- ParseU64Field(fields, MaxMintCost);
    var marketSlippageBps :- ParseNumberField(js, fields, MarketSlippageBps);
    var limitPremiumPerUnit :- ParseOptionalU64(fields, LimitPremiumPerUnit);
    var placementSlippageBps :- ParseOptionalNumber(js, fields, PlacementSlippageBps);
    Ok(MintIntent(common, marginQuoteAtoms, leverageBps, quantity, maxMintCost, marketSlippageBps,
                  ParseBool(fields, RemintAfterDeleverage), ParseMode(fields, OrderKind),
                  limitPremiumPerUnit, placementSlippageBps))
  }

  function ParseRedeem(js: Numerics, text: string): Result<RedeemIntent> {
    var fields :- ParseFields(text, TRADE_REDEEM_MESSAGE_PREFIX);
    var common :- ParseCommon(js, fields);
    var quantity :- ParseU64Field(fields, Quantity);
    var minPayout :- ParseU64Field(fields, MinPayout);
    var minPremiumPerUnit :- ParseOptionalU64(fields, MinPremiumPerUnit);
    Ok(RedeemIntent(common, quantity, minPayout, ParseMode(fields, RedeemMode), minPremiumPerUnit))
  }

  function ParseSettle(js: Numerics, text: string): Result<SettleIntent> {
    var fields :- ParseFields(text, TRADE_SETTLE_MESSAGE_PREFIX);
    var common :- ParseCommon(js, fields);
    var quantity :- ParseU64Field(fields, Quantity);
    Ok(SettleIntent(common, quantity))
  }

  function ParseRecoverManager(js: Numerics, text: string): Result<RecoverManagerIntent> {
    var fields :- ParseFields(text, TRADE_RECOVER_MANAGER_MESSAGE_PREFIX);
    var common :- ParseCommon(js, fields);
    var managerQuoteAtoms :- ParseU64Field(fields, ManagerQuoteAtoms);
    Ok(RecoverManagerIntent(common, managerQuoteAtoms))
  }

  // ---- round trips ---------------------------------------------------------

  /** The addresses are object ids once trimmed and lower-cased. */
  predicate ValidIds(c: Common) {
    && IsHexId(Normalize(c.address)) && IsHexId(Normalize(c.accountId))
    && IsHexId(Normalize(c.predictManagerId)) && IsHexId(Normalize(c.oracleId))
  }

  /** The number fields hold JavaScript numbers. */
  predicate HasNumbers(js: Numerics, c: Common) {
    IsNumber(js, c.expiresAtMs) && IsNumber(js, c.expiryMs) && IsNumber(js, c.strike) && IsNumber(js, c.higherStrike)
  }

  predicate MintHasNumbers(js: Numerics, f: MintIntent) {
    HasNumbers(js, f.common) && IsNumber(js, f.marketSlippageBps) && IsNumber(js, f.placementSlippageBps)
  }

  /** The parser reads these three as bigints, which have no exponent. */
  predicate WithoutExponent(c: Common) {
    c.expiryMs < EXPONENT_FROM && c.strike < EXPONENT_FROM && c.higherStrike < EXPONENT_FROM
  }

  /** What a message must hold to be read back at all. */
  predicate Readable(js: Numerics, c: Common) {
    ValidIds(c) && IsFinite(js, c.expiresAtMs) && WithoutExponent(c)
  }

  predicate MintReadable(js: Numerics, f: MintIntent) {
    && Readable(js, f.common) && IsFinite(js, f.marketSlippageBps)
    && (f.orderKind.Limit? ==> IsFinite(js, f.placementSlippageBps))
  }

  function NormalCommon(c: Common): Common {
    c.(address := Normalize(c.address), accountId := Normalize(c.accountId),
       predictManagerId := Normalize(c.predictManagerId), oracleId := Normalize(c.oracleId))
  }

  /** What survives the trip: normalised ids, and the limit-only fields only on limit orders. */
  function NormalMint(f: MintIntent): MintIntent {
    var g := f.(common := NormalCommon(f.common));
    if f.orderKind.Limit? then g else g.(limitPremiumPerUnit := 0, placementSlippageBps := 0)
  }

  lemma CommonIsPrintable(js: Numerics, c: Common)
    requires Faithful(js) && HasNumbers(js, c) && ValidIds(c)
    ensures forall i :: 0 <= i < 10 ==> '\n' !in CommonPairs(js, c)[i].1
  {
    NumberTextIsOneLine(js, c.expiresAtMs);
    NumberTextIsOneLine(js, c.expiryMs);
    NumberTextIsOneLine(js, c.strike);
    NumberTextIsOneLine(js, c.higherStrike);
    hide Name, NumberText, IsHexId, Normalize, Faithful;
    HexIdIsPlain(Normalize(c.address));
    HexIdIsPlain(Normalize(c.accountId));
    HexIdIsPlain(Normalize(c.predictManagerId));
    HexIdIsPlain(Normalize(c.oracleId));
  }

  ghost predicate HoldsAll(fields: Fields, pairs: Pairs) {
    forall i :: 0 <= i < |pairs| ==> Holds(fields, pairs[i].0, pairs[i].1)
  }

  /** The shared fields, whatever is bound to the strike. */
  ghost predicate HoldsHead(js: Numerics, c: Common, fields: Fields) {
    forall i :: 0 <= i < 10 && i != 6 ==> Holds(fields, CommonPairs(js, c)[i].0, CommonPairs(js, c)[i].1)
  }

  lemma ReadHeadIds(js: Numerics, c: Common, fields: Fields)
    requires ValidIds(c) && HoldsHead(js, c, fields)
    ensures ParseAddressField(fields, Address) == Ok(Normalize(c.address))
    ensures ParseAddressField(fields, AccountId) == Ok(Normalize(c.accountId))
    ensures ParseAddressField(fields, PredictManagerId) == Ok(Normalize(c.predictManagerId))
    ensures ParseAddressField(fields, OracleId) == Ok(Normalize(c.oracleId))
    ensures ParseBool(fields, IsUp) == c.isUp && ParseBool(fields, IsRange) == c.isRange
  {
    hide Name, IsHexId, NumberText;
    var p := CommonPairs(js, c);
    assert Holds(fields, p[0].0, p[0].1) && Holds(fields, p[1].0, p[1].1) && Holds(fields, p[2].0, p[2].1);
    assert Holds(fields, p[4].0, p[4].1) && Holds(fields, p[8].0, p[8].1) && Holds(fields, p[9].0, p[9].1);
    ReadAddress(fields, Address, c.address);
    ReadAddress(fields, AccountId, c.accountId);
    ReadAddress(fields, PredictManagerId, c.predictManagerId);
    ReadAddress(fields, OracleId, c.oracleId);
  }

  lemma ReadHeadNumbers(js: Numerics, c: Common, fields: Fields)
    requires Faithful(js) && HasNumbers(js, c) && HoldsHead(js, c, fields)
    ensures ParseNumberField(js, fields, ExpiresMs)
         == if IsFinite(js, c.expiresAtMs) then Ok(c.expiresAtMs) else Err(Invalid(ExpiresMs))
    ensures ParseU64Field(fields, MarketExpiryMs).Ok? <==> c.expiryMs < EXPONENT_FROM
    ensures c.expiryMs < EXPONENT_FROM ==> FromBigInt(js, ParseU64Field(fields, MarketExpiryMs).value) == c.expiryMs
    ensures ParseU64Field(fields, HigherStrike).Ok? <==> c.higherStrike < EXPONENT_FROM
    ensures c.higherStrike < EXPONENT_FROM ==>
              FromBigInt(js, ParseU64Field(fields, HigherStrike).value) == c.higherStrike
  {
    var p := CommonPairs(js, c);
    assert Holds(fields, p[3].0, p[3].1) && Holds(fields, p[5].0, p[5].1) && Holds(fields, p[7].0, p[7].1);
    hide Name, NumberText, Faithful, IsNumber, ParseNumberField, ParseU64Field;
    ReadJsNumber(js, fields, ExpiresMs, c.expiresAtMs);
    ReadJsNumber(js, fields, MarketExpiryMs, c.expiryMs);
    ReadJsNumber(js, fields, HigherStrike, c.higherStrike);
  }

  /** The shared fields read back, with whatever strike is bound. */
  lemma ReadHead(js: Numerics, c: Common, fields: Fields)
    requires Faithful(js) && HasNumbers(js, c) && ValidIds(c) && HoldsHead(js, c, fields)
    ensures var strike := ParseU64Field(fields, Strike);
            ParseCommon(js, fields).Ok? <==> IsFinite(js, c.expiresAtMs) && strike.Ok?
                                             && c.expiryMs < EXPONENT_FROM && c.higherStrike < EXPONENT_FROM
    ensures ParseCommon(js, fields).Ok? ==>
              ParseCommon(js, fields)
              == Ok(NormalCommon(c).(strike := FromBigInt(js, ParseU64Field(fields, Strike).value)))
  {
    ReadHeadIds(js, c, fields);
    ReadHeadNumbers(js, c, fields);
    hide Name, NumberText, Faithful, IsNumber, HoldsHead, Normalize, IsHexId,
         ParseAddressField, ParseNumberField, ParseU64Field, ParseBool, FromBigInt;
  }

  lemma CommonRoundTrip(js: Numerics, c: Common, fields: Fields)
    requires Faithful(js) && HasNumbers(js, c) && ValidIds(c)
    requires HoldsAll(fields, CommonPairs(js, c))
    ensures ParseCommon(js, fields).Ok? <==> Readable(js, c)
    ensures Readable(js, c) ==> ParseCommon(js, fields) == Ok(NormalCommon(c))
  {
    var p := CommonPairs(js, c);
    assert Holds(fields, p[6].0, p[6].1);
    ReadHead(js, c, fields) by { assert HoldsHead(js, c, fields); }
    ReadJsNumber(js, fields, Strike, c.strike);
    hide Name, NumberText, Faithful, IsNumber, HoldsHead, HoldsAll, ParseCommon, ParseU64Field, FromBigInt, Normalize,
         IsHexId;
  }

  /** The position of a field in every message that prints it. */
  function Rank(k: Key): int {
    match k
    case Address => 0 case AccountId => 1 case PredictManagerId => 2 case ExpiresMs => 3
    case OracleId => 4 case MarketExpiryMs => 5 case Strike => 6 case HigherStrike => 7
    case IsUp => 8 case IsRange => 9
    case MarginQuoteAtoms => 10 case LeverageBps => 11 case Quantity => 12 case MaxMintCost => 13
    case MarketSlippageBps => 14 case RemintAfterDeleverage => 15 case OrderKind => 16
    case LimitPremiumPerUnit => 17 case PlacementSlippageBps => 18
    case MinPayout => 19 case RedeemMode => 20 case MinPremiumPerUnit => 21
    case ManagerQuoteAtoms => 22
  }

  /** The fields after the shared head: in order, and free of line ends. */
  ghost predicate IsTail(tail: Pairs) {
    && (forall i :: 0 <= i < |tail| ==> '\n' !in tail[i].1 && Rank(tail[i].0) >= 10)
    && forall i, j :: 0 <= i < j < |tail| ==> Rank(tail[i].0) < Rank(tail[j].0)
  }

  /** The ten shared fields, in order, and free of line ends. */
  ghost predicate IsHead(head: Pairs) {
    |head| == 10 && forall i :: 0 <= i < 10 ==> Rank(head[i].0) == i && '\n' !in head[i].1
  }

  /** A message parses into exactly its fields. */
  lemma FieldsRoundTrip(prefix: string, head: Pairs, tail: Pairs) returns (fields: Fields)
    requires '\n' !in prefix && IsHead(head) && IsTail(tail)
    ensures ParseFields(Render(prefix, head + tail), prefix) == Ok(fields)
    ensures HoldsAll(fields, head) && HoldsAll(fields, tail)
    ensures forall k: Key :: Name(k) in fields && Rank(k) >= 10 ==> exists i :: 0 <= i < |tail| && tail[i].0 == k
  {
    hide Name, ParseFields, Render;
    var pairs := head + tail;
    ParseRendered(prefix, pairs);
    fields := ParseFields(Render(prefix, pairs), prefix).value;
    forall i | 0 <= i < 10 ensures Holds(fields, head[i].0, head[i].1) {
      assert pairs[i] == head[i];
    }
    forall i | 0 <= i < |tail| ensures Holds(fields, tail[i].0, tail[i].1) {
      assert pairs[10 + i] == tail[i];
    }
  }

  lemma CommonIsHead(js: Numerics, c: Common)
    requires Faithful(js) && HasNumbers(js, c) && ValidIds(c)
    ensures IsHead(CommonPairs(js, c))
  {
    CommonIsPrintable(js, c);
    hide Faithful, IsNumber, NumberText, Normalize, IsHexId;
  }

  /** A message with valid ids parses into exactly its fields, and its head reads back exactly when it is readable. */
  lemma HeadRoundTrip(js: Numerics, prefix: string, c: Common, tail: Pairs) returns (fields: Fields)
    requires Faithful(js) && '\n' !in prefix
    requires ValidIds(c) && HasNumbers(js, c) && IsTail(tail)
    ensures ParseFields(Render(prefix, CommonPairs(js, c) + tail), prefix) == Ok(fields)
    ensures HoldsAll(fields, CommonPairs(js, c)) && HoldsAll(fields, tail)
    ensures ParseCommon(js, fields).Ok? <==> Readable(js, c)
    ensures Readable(js, c) ==> ParseCommon(js, fields) == Ok(NormalCommon(c))
    ensures forall k: Key :: Name(k) in fields && Rank(k) >= 10 ==> exists i :: 0 <= i < |tail| && tail[i].0 == k
  {
    CommonIsHead(js, c);
    hide Name, IsHead, IsTail, HoldsAll, ParseFields, Render, ParseCommon, NormalCommon, CommonPairs, Faithful,
         IsNumber;
    fields := FieldsRoundTrip(prefix, CommonPairs(js, c), tail);
    CommonRoundTrip(js, c, fields);
  }

  /** Every parser starts with the shared fields, whose ids it accepts only as object ids. */
  lemma ParsedCommonIsNormal(js: Numerics, fields: Fields)
    requires ParseCommon(js, fields).Ok?
    ensures var c := ParseCommon(js, fields).value;
            ValidIds(c) && NormalCommon(c) == c
  {
    hide Name, IsHexId, Normalize, ParseU64Field, ParseNumberField, ParseBool;
    var c := ParseCommon(js, fields).value;
    HexIdIsPlain(c.address);
    HexIdIsPlain(c.accountId);
    HexIdIsPlain(c.predictManagerId);
    HexIdIsPlain(c.oracleId);
  }

  lemma NormalIsValid(c: Common)
    requires ValidIds(NormalCommon(c)) && NormalCommon(NormalCommon(c)) == NormalCommon(c)
    ensures ValidIds(c)
  {
    hide IsHexId, Normalize;
  }

  /** A settle request survives the wire exactly when its ids are object ids and its numbers can be read. */
  lemma SettleRoundTrip(js: Numerics, f: SettleIntent)
    requires Faithful(js) && HasNumbers(js, f.common)
    ensures ParseSettle(js, BuildSettle(js, f)) == Ok(f.(common := NormalCommon(f.common))) <==> Readable(js, f.common)
  {
    hide Name, PrintNat, CommonPairs, Render, ParseCommon, NormalCommon, ParseFields, ParseU64Field, Faithful,
         HasNumbers, ValidIds;
    if ValidIds(f.common) {
      var tail := SettleTail(f);
      var fields := HeadRoundTrip(js, TRADE_SETTLE_MESSAGE_PREFIX, f.common, tail);
      assert Holds(fields, tail[0].0, tail[0].1);
      ReadNumber(js, fields, Quantity, f.quantity);
    } else if ParseSettle(js, BuildSettle(js, f)) == Ok(f.(common := NormalCommon(f.common))) {
      ParsedCommonIsNormal(js, ParseFields(BuildSettle(js, f), TRADE_SETTLE_MESSAGE_PREFIX).value);
      NormalIsValid(f.common);
    }
  }

  lemma RecoverManagerRoundTrip(js: Numerics, f: RecoverManagerIntent)
    requires Faithful(js) && HasNumbers(js, f.common)
    ensures ParseRecoverManager(js, BuildRecoverManager(js, f)) == Ok(f.(common := NormalCommon(f.common)))
            <==> Readable(js, f.common)
  {
    hide Name, PrintNat, CommonPairs, Render, ParseCommon, NormalCommon, ParseFields, ParseU64Field, Faithful,
         HasNumbers, ValidIds;
    if ValidIds(f.common) {
      var tail := RecoverManagerTail(f);
      var fields := HeadRoundTrip(js, TRADE_RECOVER_MANAGER_MESSAGE_PREFIX, f.common, tail);
      assert Holds(fields, tail[0].0, tail[0].1);
      ReadNumber(js, fields, ManagerQuoteAtoms, f.managerQuoteAtoms);
    } else if ParseRecoverManager(js, BuildRecoverManager(js, f)) == Ok(f.(common := NormalCommon(f.common))) {
      ParsedCommonIsNormal(js, ParseFields(BuildRecoverManager(js, f), TRADE_RECOVER_MANAGER_MESSAGE_PREFIX).value);
      NormalIsValid(f.common);
    }
  }

  lemma ReadRedeemTail(js: Numerics, f: RedeemIntent, fields: Fields)
    requires HoldsAll(fields, RedeemTail(f))
    ensures ParseU64Field(fields, Quantity) == Ok(f.quantity)
    ensures ParseU64Field(fields, MinPayout) == Ok(f.minPayout)
    ensures ParseMode(fields, RedeemMode) == f.redeemMode
    ensures ParseOptionalU64(fields, MinPremiumPerUnit) == Ok(f.minPremiumPerUnit)
  {
    hide Name, PrintNat, ParseU64Field, ParseOptionalU64;
    var tail := RedeemTail(f);
    assert Holds(fields, tail[0].0, tail[0].1) && Holds(fields, tail[1].0, tail[1].1);
    assert Holds(fields, tail[2].0, tail[2].1) && Holds(fields, tail[3].0, tail[3].1);
    ReadNumber(js, fields, Quantity, f.quantity);
    ReadNumber(js, fields, MinPayout, f.minPayout);
    ReadNumber(js, fields, MinPremiumPerUnit, f.minPremiumPerUnit);
  }

  lemma RedeemTailIsTail(f: RedeemIntent)
    ensures IsTail(RedeemTail(f))
  {
    hide PrintNat, EncodeMode;
  }

  /** A redeem order survives the wire exactly when its ids are object ids and its numbers can be read. */
  lemma RedeemRoundTrip(js: Numerics, f: RedeemIntent)
    requires Faithful(js) && HasNumbers(js, f.common)
    ensures ParseRedeem(js, BuildRedeem(js, f)) == Ok(f.(common := NormalCommon(f.common))) <==> Readable(js, f.common)
  {
    hide Name, PrintNat, CommonPairs, RedeemTail, Render, ParseCommon, NormalCommon, ParseFields, ParseMode,
         ParseU64Field, ParseOptionalU64, Faithful, HasNumbers, ValidIds;
    if ValidIds(f.common) {
      RedeemTailIsTail(f);
      var fields := HeadRoundTrip(js, TRADE_REDEEM_MESSAGE_PREFIX, f.common, RedeemTail(f));
      ReadRedeemTail(js, f, fields);
    } else if ParseRedeem(js, BuildRedeem(js, f)) == Ok(f.(common := NormalCommon(f.common))) {
      ParsedCommonIsNormal(js, ParseFields(BuildRedeem(js, f), TRADE_REDEEM_MESSAGE_PREFIX).value);
      NormalIsValid(f.common);
    }
  }

  lemma ReadMintAmounts(js: Numerics, f: MintIntent, fields: Fields)
    requires HoldsAll(fields, MintTail(js, f))
    ensures ParseU64Field(fields, MarginQuoteAtoms) == Ok(f.marginQuoteAtoms)
    ensures ParseU64Field(fields, LeverageBps) == Ok(f.leverageBps)
    ensures ParseU64Field(fields, Quantity) == Ok(f.quantity)
    ensures ParseU64Field(fields, MaxMintCost) == Ok(f.maxMintCost)
    ensures f.orderKind.Limit? ==> ParseOptionalU64(fields, LimitPremiumPerUnit) == Ok(f.limitPremiumPerUnit)
  {
    hide Name, PrintNat, NumberText, ParseU64Field, ParseOptionalU64;
    var tail := MintTail(js, f);
    assert Holds(fields, tail[0].0, tail[0].1) && Holds(fields, tail[1].0, tail[1].1);
    assert Holds(fields, tail[2].0, tail[2].1) && Holds(fields, tail[3].0, tail[3].1);
    ReadNumber(js, fields, MarginQuoteAtoms, f.marginQuoteAtoms);
    ReadNumber(js, fields, LeverageBps, f.leverageBps);
    ReadNumber(js, fields, Quantity, f.quantity);
    ReadNumber(js, fields, MaxMintCost, f.maxMintCost);
    if f.orderKind.Limit? {
      assert Holds(fields, tail[7].0, tail[7].1);
      ReadNumber(js, fields, LimitPremiumPerUnit, f.limitPremiumPerUnit);
    }
  }

  lemma ReadMintOptions(js: Numerics, f: MintIntent, fields: Fields)
    requires Faithful(js) && MintHasNumbers(js, f)
    requires HoldsAll(fields, MintTail(js, f))
    ensures ParseNumberField(js, fields, MarketSlippageBps).Ok? <==> IsFinite(js, f.marketSlippageBps)
    ensures IsFinite(js, f.marketSlippageBps) ==>
              ParseNumberField(js, fields, MarketSlippageBps) == Ok(f.marketSlippageBps)
    ensures ParseBool(fields, RemintAfterDeleverage) == f.remintAfterDeleverage
    ensures ParseMode(fields, OrderKind) == f.orderKind
    ensures f.orderKind.Limit? ==>
              && (ParseOptionalNumber(js, fields, PlacementSlippageBps).Ok? <==> IsFinite(js, f.placementSlippageBps))
              && (IsFinite(js, f.placementSlippageBps) ==>
                    ParseOptionalNumber(js, fields, PlacementSlippageBps) == Ok(f.placementSlippageBps))
  {
    hide Name, PrintNat, NumberText, ParseNumberField, ParseOptionalNumber, Faithful, IsNumber;
    var tail := MintTail(js, f);
    assert Holds(fields, tail[4].0, tail[4].1) && Holds(fields, tail[5].0, tail[5].1);
    assert Holds(fields, tail[6].0, tail[6].1);
    ReadJsNumber(js, fields, MarketSlippageBps, f.marketSlippageBps);
    if f.orderKind.Limit? {
      assert Holds(fields, tail[8].0, tail[8].1);
      ReadJsNumber(js, fields, PlacementSlippageBps, f.placementSlippageBps);
    }
  }

  lemma MintTailIsOrdered(js: Numerics, f: MintIntent)
    ensures var tail := MintTail(js, f);
            && (forall i :: 0 <= i < |tail| ==> Rank(tail[i].0) == 10 + i)
            && (!f.orderKind.Limit? ==> |tail| == 7)
  {
    hide PrintNat, NumberText, EncodeBool, EncodeMode;
  }

  lemma MintTailIsOneLine(js: Numerics, f: MintIntent)
    requires Faithful(js) && MintHasNumbers(js, f)
    ensures forall i :: 0 <= i < |MintTail(js, f)| ==> '\n' !in MintTail(js, f)[i].1
  {
    NumberTextIsOneLine(js, f.marketSlippageBps);
    NumberTextIsOneLine(js, f.placementSlippageBps);
    hide PrintNat, NumberText, EncodeBool, EncodeMode, Faithful, HasNumbers, IsNumber;
  }

  lemma MintTailIsTail(js: Numerics, f: MintIntent)
    requires Faithful(js) && MintHasNumbers(js, f)
    ensures IsTail(MintTail(js, f))
    ensures forall i :: 0 <= i < |MintTail(js, f)| ==> Rank(MintTail(js, f)[i].0) == 10 + i
    ensures !f.orderKind.Limit? ==> |MintTail(js, f)| == 7
  {
    MintTailIsOrdered(js, f);
    MintTailIsOneLine(js, f);
    hide MintTail, Rank, Faithful, HasNumbers, IsNumber;
  }

  /** A mint text with valid ids: what its fields hold, and what the parser makes of them. */
  lemma MintRoundTrip(js: Numerics, f: MintIntent) returns (fields: Fields)
    requires Faithful(js) && MintHasNumbers(js, f) && ValidIds(f.common)
    ensures ParseFields(BuildMint(js, f), TRADE_MINT_MESSAGE_PREFIX) == Ok(fields)
    ensures HoldsAll(fields, CommonPairs(js, f.common)) && HoldsAll(fields, MintTail(js, f))
    ensures ParseMint(js, BuildMint(js, f)).Ok? <==> MintReadable(js, f)
    ensures MintReadable(js, f) ==> ParseMint(js, BuildMint(js, f)) == Ok(NormalMint(f))
  {
    hide Name, PrintNat, CommonPairs, MintTail, Render, ParseCommon, NormalCommon, ParseFields, ParseMode, ParseBool,
         ParseU64Field, ParseNumberField, HoldsAll, Faithful, HasNumbers, IsNumber, ValidIds, Readable, IsFinite;
    MintTailIsTail(js, f);
    fields := HeadRoundTrip(js, TRADE_MINT_MESSAGE_PREFIX, f.common, MintTail(js, f));
    ReadMintAmounts(js, f, fields);
    ReadMintOptions(js, f, fields);
  }

  // ---- what an accepted message tells --------------------------------------

  /** A mint order survives the wire exactly when its ids are object ids and its numbers can be read. */
  lemma MintRoundTripExactly(js: Numerics, f: MintIntent)
    requires Faithful(js) && MintHasNumbers(js, f)
    ensures ParseMint(js, BuildMint(js, f)) == Ok(NormalMint(f)) <==> MintReadable(js, f)
  {
    hide Name, BuildMint, ParseFields, ParseCommon, NormalCommon, ValidIds, Faithful, HasNumbers, IsNumber, IsFinite;
    if ValidIds(f.common) {
      var fields := MintRoundTrip(js, f);
    } else if ParseMint(js, BuildMint(js, f)) == Ok(NormalMint(f)) {
      var fields := ParseFields(BuildMint(js, f), TRADE_MINT_MESSAGE_PREFIX).value;
      ParsedCommonIsNormal(js, fields);
      NormalIsValid(f.common);
    }
  }

  /** What the parser accepts it holds as numbers, and the expiry of the intent is finite. */
  lemma ParsedCommonHasNumbers(js: Numerics, fields: Fields)
    requires Faithful(js) && ParseCommon(js, fields).Ok?
    ensures var c := ParseCommon(js, fields).value; HasNumbers(js, c) && IsFinite(js, c.expiresAtMs)
  {
    ReadIsNumber(js, fields, ExpiresMs);
    hide Name, IsHexId, Normalize, ParseAddressField, ParseU64Field, ParseNumberField, ParseBool, IsNumber, IsFinite,
         Faithful, FromBigInt;
  }

  lemma ParsedMintHasNumbers(js: Numerics, text: string)
    requires Faithful(js) && ParseMint(js, text).Ok?
    ensures var f := ParseMint(js, text).value;
            && MintHasNumbers(js, f) && IsFinite(js, f.common.expiresAtMs)
            && IsFinite(js, f.marketSlippageBps) && IsFinite(js, f.placementSlippageBps)
            && ValidIds(f.common) && NormalCommon(f.common) == f.common
  {
    hide Name, IsNumber, IsFinite, Faithful, ParseFields, ParseCommon, HasNumbers, ValidIds, NormalCommon,
         ParseU64Field, ParseOptionalU64, ParseNumberField, ParseOptionalNumber, ParseBool, ParseMode;
    var fields := ParseFields(text, TRADE_MINT_MESSAGE_PREFIX).value;
    ReadIsNumber(js, fields, MarketSlippageBps);
    ReadIsNumber(js, fields, PlacementSlippageBps);
    ParsedCommonHasNumbers(js, fields);
    ParsedCommonIsNormal(js, fields);
  }

  /**
   Printing an accepted mint text again gives a text with the same meaning exactly when its order is a limit order or
   carries no limit-only values, which the parser reads but the builder does not print, and its market numbers are
   below 1e21, where the builder starts to print an exponent that the parser refuses.
   */
  lemma AcceptedMintIsCanonical(js: Numerics, text: string)
    requires Faithful(js) && ParseMint(js, text).Ok?
    ensures var f := ParseMint(js, text).value;
            ParseMint(js, BuildMint(js, f)) == Ok(f)
            <==> (f.orderKind.Limit? || (f.limitPremiumPerUnit == 0 && f.placementSlippageBps == 0))
                 && WithoutExponent(f.common)
  {
    ParsedMintHasNumbers(js, text);
    hide BuildMint, ParseMint, ValidIds, NormalCommon, IsFinite, Faithful, HasNumbers, IsNumber, WithoutExponent;
    var fields := MintRoundTrip(js, ParseMint(js, text).value);
  }

  /** An accepted redeem text, printed again, means the same exactly when its market numbers are below 1e21. */
  lemma AcceptedRedeemIsCanonical(js: Numerics, text: string)
    requires Faithful(js) && ParseRedeem(js, text).Ok?
    ensures var f := ParseRedeem(js, text).value;
            ParseRedeem(js, BuildRedeem(js, f)) == Ok(f) <==> WithoutExponent(f.common)
  {
    hide Name, BuildRedeem, ParseFields, ParseCommon, NormalCommon, ValidIds, IsFinite, Faithful, HasNumbers,
         WithoutExponent, ParseU64Field, ParseOptionalU64, ParseMode;
    var fields := ParseFields(text, TRADE_REDEEM_MESSAGE_PREFIX).value;
    ParsedCommonIsNormal(js, fields);
    ParsedCommonHasNumbers(js, fields);
    RedeemRoundTrip(js, ParseRedeem(js, text).value);
  }

  lemma SameHeadTexts(js: Numerics, fields: Fields, c: Common, d: Common, i: nat)
    requires i < 10 && HoldsAll(fields, CommonPairs(js, c)) && HoldsAll(fields, CommonPairs(js, d))
    ensures |CommonPairs(js, c)| == |CommonPairs(js, d)| == 10 && CommonPairs(js, c)[i].1 == CommonPairs(js, d)[i].1
  {
    hide Name, NumberText, Normalize;
    var p, q := CommonPairs(js, c), CommonPairs(js, d);
    assert p[i].0 == q[i].0;
    hide CommonPairs;
    assert Holds(fields, p[i].0, p[i].1) && Holds(fields, q[i].0, q[i].1);
  }

  lemma SameHeadNumbers(js: Numerics, fields: Fields, c: Common, d: Common)
    requires Faithful(js) && HasNumbers(js, c) && HasNumbers(js, d)
    requires HoldsAll(fields, CommonPairs(js, c)) && HoldsAll(fields, CommonPairs(js, d))
    ensures c.expiresAtMs == d.expiresAtMs && c.expiryMs == d.expiryMs && c.strike == d.strike
            && c.higherStrike == d.higherStrike
  {
    hide Name, NumberText, Normalize, Faithful, IsNumber, HoldsAll;
    SameHeadTexts(js, fields, c, d, 3);
    SameHeadTexts(js, fields, c, d, 5);
    SameHeadTexts(js, fields, c, d, 6);
    SameHeadTexts(js, fields, c, d, 7);
    NumberTextIsInjective(js, c.expiresAtMs, d.expiresAtMs);
    NumberTextIsInjective(js, c.expiryMs, d.expiryMs);
    NumberTextIsInjective(js, c.strike, d.strike);
    NumberTextIsInjective(js, c.higherStrike, d.higherStrike);
  }

  lemma SameHeadIds(js: Numerics, fields: Fields, c: Common, d: Common)
    requires HoldsAll(fields, CommonPairs(js, c)) && HoldsAll(fields, CommonPairs(js, d))
    ensures Normalize(c.address) == Normalize(d.address) && Normalize(c.accountId) == Normalize(d.accountId)
    ensures Normalize(c.predictManagerId) == Normalize(d.predictManagerId)
    ensures Normalize(c.oracleId) == Normalize(d.oracleId)
  {
    hide Name, NumberText, Normalize, HoldsAll;
    SameHeadTexts(js, fields, c, d, 0);
    SameHeadTexts(js, fields, c, d, 1);
    SameHeadTexts(js, fields, c, d, 2);
    SameHeadTexts(js, fields, c, d, 4);
  }

  lemma SameHead(js: Numerics, fields: Fields, c: Common, d: Common)
    requires Faithful(js) && HasNumbers(js, c) && HasNumbers(js, d)
    requires HoldsAll(fields, CommonPairs(js, c)) && HoldsAll(fields, CommonPairs(js, d))
    ensures NormalCommon(c) == NormalCommon(d)
  {
    hide Name, NumberText, Normalize, Faithful, HasNumbers, HoldsAll;
    SameHeadNumbers(js, fields, c, d);
    SameHeadIds(js, fields, c, d);
    SameHeadTexts(js, fields, c, d, 8);
    SameHeadTexts(js, fields, c, d, 9);
  }

  lemma SameMintTail(js: Numerics, fields: Fields, f: MintIntent, g: MintIntent)
    requires Faithful(js) && MintHasNumbers(js, f) && MintHasNumbers(js, g)
    requires HoldsAll(fields, MintTail(js, f)) && HoldsAll(fields, MintTail(js, g))
    ensures NormalMint(f).(common := f.common) == NormalMint(g).(common := f.common)
  {
    ReadMintAmounts(js, f, fields);
    ReadMintAmounts(js, g, fields);
    ReadMintOptions(js, f, fields);
    ReadMintOptions(js, g, fields);
    var p, q := MintTail(js, f), MintTail(js, g);
    assert Holds(fields, p[4].0, p[4].1) && Holds(fields, q[4].0, q[4].1);
    if f.orderKind.Limit? {
      assert Holds(fields, p[8].0, p[8].1) && Holds(fields, q[8].0, q[8].1);
      NumberTextIsInjective(js, f.placementSlippageBps, g.placementSlippageBps);
    }
    NumberTextIsInjective(js, f.marketSlippageBps, g.marketSlippageBps);
    hide Faithful, HoldsAll, MintTail, NumberText, ParseU64Field, ParseOptionalU64, ParseMode, ParseBool, HasNumbers;
  }

  /** A signature over a mint text binds every field: equal texts come from equal orders, readable or not. */
  lemma MintTextBindsFields(js: Numerics, f: MintIntent, g: MintIntent)
    requires Faithful(js) && MintHasNumbers(js, f) && MintHasNumbers(js, g)
    requires ValidIds(f.common) && ValidIds(g.common)
    requires BuildMint(js, f) == BuildMint(js, g)
    ensures NormalMint(f) == NormalMint(g)
  {
    hide BuildMint, ParseMint, NormalCommon, ValidIds, Faithful, HasNumbers, IsNumber, CommonPairs, MintTail, HoldsAll;
    var fields := MintRoundTrip(js, f);
    var same := MintRoundTrip(js, g);
    SameHead(js, fields, f.common, g.common);
    SameMintTail(js, fields, f, g);
  }

  // ---- accepted texts that do not survive ----------------------------------

  /** The text of a market order with a limit premium added, which no builder prints. */
  function WithLimitPremium(js: Numerics, f: MintIntent, premium: nat): string {
    Render(TRADE_MINT_MESSAGE_PREFIX,
           CommonPairs(js, f.common) + (MintTail(js, f) + [(LimitPremiumPerUnit, PrintNat(premium))]))
  }

  lemma ExtendedTail(js: Numerics, f: MintIntent, premium: nat)
    requires Faithful(js) && MintHasNumbers(js, f) && f.orderKind.Market?
    ensures var tail := MintTail(js, f) + [(LimitPremiumPerUnit, PrintNat(premium))];
            && IsTail(tail)
            && forall i :: 0 <= i < |tail| ==> tail[i].0 != PlacementSlippageBps
  {
    MintTailIsTail(js, f);
    hide PrintNat, MintTail, Faithful, HasNumbers, IsNumber;
  }

  lemma LimitPremiumFields(js: Numerics, f: MintIntent, premium: nat) returns (fields: Fields)
    requires Faithful(js) && MintHasNumbers(js, f) && f.orderKind.Market?
    requires Readable(js, f.common) && ValidIds(f.common)
    ensures ParseFields(WithLimitPremium(js, f, premium), TRADE_MINT_MESSAGE_PREFIX) == Ok(fields)
    ensures ParseCommon(js, fields) == Ok(NormalCommon(f.common))
    ensures HoldsAll(fields, MintTail(js, f)) && Holds(fields, LimitPremiumPerUnit, PrintNat(premium))
    ensures Name(PlacementSlippageBps) !in fields
  {
    hide Name, PrintNat, CommonPairs, MintTail, Render, ParseCommon, NormalCommon, ParseFields, Faithful, HasNumbers,
         IsNumber, Readable, ValidIds, Holds, IsTail;
    ExtendedTail(js, f, premium);
    var extra := [(LimitPremiumPerUnit, PrintNat(premium))];
    var tail := MintTail(js, f) + extra;
    fields := HeadRoundTrip(js, TRADE_MINT_MESSAGE_PREFIX, f.common, tail);
    HoldsParts(fields, MintTail(js, f), extra);
    assert Holds(fields, extra[0].0, extra[0].1);
  }

  lemma LimitPremiumIsRead(js: Numerics, f: MintIntent, premium: nat)
    requires Faithful(js) && MintHasNumbers(js, f) && MintReadable(js, f) && f.orderKind.Market?
    ensures ParseMint(js, WithLimitPremium(js, f, premium)) == Ok(NormalMint(f).(limitPremiumPerUnit := premium))
  {
    ReadableHasIds(js, f.common);
    hide Name, PrintNat, WithLimitPremium, MintTail, ParseCommon, NormalCommon, ParseFields, ParseMode, ParseBool,
         ParseU64Field, ParseNumberField, Faithful, HasNumbers, IsNumber, Readable, IsFinite, ValidIds, HoldsAll;
    var fields := LimitPremiumFields(js, f, premium);
    ReadMintAmounts(js, f, fields);
    ReadMintOptions(js, f, fields);
    ReadNumber(js, fields, LimitPremiumPerUnit, premium);
  }

  lemma ReadableHasIds(js: Numerics, c: Common)
    requires Readable(js, c)
    ensures ValidIds(c)
  {}

  /** Every market order has an accepted text with a limit premium, which is lost when the text is built again. */
  lemma MarketOrderLosesLimitPremium(js: Numerics, f: MintIntent, premium: nat)
    requires Faithful(js) && MintHasNumbers(js, f) && MintReadable(js, f) && f.orderKind.Market? && premium > 0
    ensures var g := NormalMint(f).(limitPremiumPerUnit := premium);
            && ParseMint(js, WithLimitPremium(js, f, premium)) == Ok(g)
            && ParseMint(js, BuildMint(js, g)) == Ok(g.(limitPremiumPerUnit := 0))
  {
    LimitPremiumIsRead(js, f, premium);
    ParsedMintHasNumbers(js, WithLimitPremium(js, f, premium));
    hide ParseMint, BuildMint, WithLimitPremium, NormalCommon, ValidIds, Faithful, HasNumbers, IsNumber, IsFinite,
         WithoutExponent;
    var again := MintRoundTrip(js, NormalMint(f).(limitPremiumPerUnit := premium));
  }

  function SampleId(): (id: string)
    ensures IsHexId(id)
  { "0x" + seq(64, i => '0') }

  /** A market order that a client may well send. */
  function SampleOrder(): (f: MintIntent) {
    MintIntent(Common(SampleId(), SampleId(), SampleId(), 1_700_000_000_000,
                      SampleId(), 1_700_003_600_000, 65_000, 0, true, false),
               1_000_000, 20_000, 5, 1_990_000, 50, false, Market, 0, 0)
  }

  /** One such text: it is accepted with a limit premium of 7, and built again it is accepted with none. */
  lemma SampleLosesLimitPremium(js: Numerics)
    requires Faithful(js)
    ensures var text := WithLimitPremium(js, SampleOrder(), 7);
            && ParseMint(js, text) == Ok(SampleOrder().(limitPremiumPerUnit := 7))
            && ParseMint(js, BuildMint(js, ParseMint(js, text).value)) == Ok(SampleOrder())
  {
    HexIdIsPlain(SampleId());
    hide IsHexId, Normalize, ParseMint, BuildMint, WithLimitPremium, SampleId;
    MarketOrderLosesLimitPremium(js, SampleOrder(), 7);
  }

  lemma HoldsParts(fields: Fields, first: Pairs, second: Pairs)
    requires HoldsAll(fields, first + second)
    ensures HoldsAll(fields, first) && HoldsAll(fields, second)
  {
    hide Holds;
    forall i | 0 <= i < |first| ensures Holds(fields, first[i].0, first[i].1) {
      assert (first + second)[i] == first[i];
    }
    forall i | 0 <= i < |second| ensures Holds(fields, second[i].0, second[i].1) {
      assert (first + second)[|first| + i] == second[i];
    }
  }

  /** The head of a message with a strike of 1e21, which no builder prints. */
  function HeadWithHugeStrike(js: Numerics, c: Common): (head: Pairs)
    ensures |head| == 10
  {
    CommonPairs(js, c)[6 := (Strike, PrintNat(EXPONENT_FROM))]
  }

  lemma HugeStrikeIsHead(js: Numerics, c: Common)
    requires Faithful(js) && HasNumbers(js, c) && ValidIds(c)
    ensures IsHead(HeadWithHugeStrike(js, c))
  {
    CommonIsHead(js, c);
    hide IsHexId, Normalize, NumberText, PrintNat, Faithful, HasNumbers;
  }

  lemma ReadHugeStrike(js: Numerics, c: Common, fields: Fields)
    requires Faithful(js) && HasNumbers(js, c) && Readable(js, c) && HoldsAll(fields, HeadWithHugeStrike(js, c))
    ensures ParseCommon(js, fields) == Ok(NormalCommon(c).(strike := EXPONENT_FROM))
  {
    var head := HeadWithHugeStrike(js, c);
    assert Holds(fields, head[6].0, head[6].1);
    ReadNumber(js, fields, Strike, EXPONENT_FROM);
    hide Name, IsHexId, Normalize, NumberText, PrintNat, Faithful, HasNumbers, ParseCommon, ParseU64Field;
    forall i | 0 <= i < 10 && i != 6 ensures Holds(fields, CommonPairs(js, c)[i].0, CommonPairs(js, c)[i].1) {
      assert head[i] == CommonPairs(js, c)[i];
      assert Holds(fields, head[i].0, head[i].1);
    }
    ReadHead(js, c, fields);
  }

  lemma UnreadableIsRefused(js: Numerics, f: SettleIntent)
    requires Faithful(js) && HasNumbers(js, f.common) && ValidIds(f.common) && !WithoutExponent(f.common)
    ensures ParseSettle(js, BuildSettle(js, f)).Err?
  {
    hide Name, PrintNat, HoldsAll, CommonPairs, Render, ParseCommon, ParseFields, ParseU64Field, NormalCommon,
         Faithful, HasNumbers, ValidIds, WithoutExponent;
    var fields := HeadRoundTrip(js, TRADE_SETTLE_MESSAGE_PREFIX, f.common, SettleTail(f));
  }

  function HugeStrikeText(js: Numerics, f: SettleIntent): string {
    Render(TRADE_SETTLE_MESSAGE_PREFIX, HeadWithHugeStrike(js, f.common) + SettleTail(f))
  }

  function WithHugeStrike(f: SettleIntent): SettleIntent {
    f.(common := NormalCommon(f.common).(strike := EXPONENT_FROM))
  }

  lemma HugeStrikeIsRead(js: Numerics, f: SettleIntent)
    requires Faithful(js) && HasNumbers(js, f.common) && Readable(js, f.common)
    ensures ParseSettle(js, HugeStrikeText(js, f)) == Ok(WithHugeStrike(f))
  {
    var head := HeadWithHugeStrike(js, f.common);
    ReadableHasIds(js, f.common);
    HugeStrikeIsHead(js, f.common);
    hide Name, PrintNat, HoldsAll, CommonPairs, IsHead, Render, ParseCommon, ParseFields, ParseU64Field, NormalCommon,
         Faithful, HasNumbers, ValidIds, Readable, HeadWithHugeStrike;
    var fields := FieldsRoundTrip(TRADE_SETTLE_MESSAGE_PREFIX, head, SettleTail(f));
    HoldsFirst(fields, SettleTail(f));
    ReadHugeStrike(js, f.common, fields);
    ReadNumber(js, fields, Quantity, f.quantity);
  }

  lemma HoldsFirst(fields: Fields, pairs: Pairs)
    requires pairs != [] && HoldsAll(fields, pairs)
    ensures Holds(fields, pairs[0].0, pairs[0].1)
  {}

  lemma HugeStrikeIsNumber(js: Numerics, f: SettleIntent)
    requires Faithful(js) && HasNumbers(js, f.common) && Readable(js, f.common)
    ensures var g := WithHugeStrike(f).common; HasNumbers(js, g) && ValidIds(g) && !WithoutExponent(g)
  {
    NormalizeTwice(f.common.address);
    NormalizeTwice(f.common.accountId);
    NormalizeTwice(f.common.predictManagerId);
    NormalizeTwice(f.common.oracleId);
    hide IsHexId, Normalize;
  }

  /** Every settle request has an accepted text with a strike of 1e21, which is refused when it is built again. */
  lemma HugeStrikeIsRefused(js: Numerics, f: SettleIntent)
    requires Faithful(js) && HasNumbers(js, f.common) && Readable(js, f.common)
    ensures ParseSettle(js, HugeStrikeText(js, f)) == Ok(WithHugeStrike(f))
    ensures WithHugeStrike(f).common.strike == 1_000_000_000_000_000_000_000
    ensures ParseSettle(js, BuildSettle(js, WithHugeStrike(f))).Err?
  {
    HugeStrikeIsRead(js, f);
    HugeStrikeIsNumber(js, f);
    UnreadableIsRefused(js, WithHugeStrike(f));
  }

  // ---- expiry --------------------------------------------------------------

  /** None when the intent may be used at `nowMs`, else the error thrown. */
  function AssertTradeIntentExpiry(expiresAtMs: int, nowMs: int): Option<string> {
    if expiresAtMs < nowMs - TRADE_CLOCK_SKEW_MS then Some("message_expired")
    else if expiresAtMs > nowMs + TRADE_MAX_TTL_MS + TRADE_CLOCK_SKEW_MS then Some("message_expiry_too_far")
    else None
  }
}
