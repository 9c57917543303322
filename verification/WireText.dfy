/**
 The signed messages as text: the very lines that the five builders write, and what the five parsers make of any text,
 field by field, in the order in which they check the fields.
 */
module WireText {
  import opened JsBasics
  import opened JsText
  import opened KeyValueMessage
  import opened TradeMessage
  import ManagerMessage

  // ---- the texts that are built --------------------------------------------

  /** The name of a field with its equals sign. */
  function Tag(k: Key): string {
    match k
    case Address => "address="
    case AccountId => "account_id="
    case PredictManagerId => "predict_manager_id="
    case ExpiresMs => "expires_ms="
    case OracleId => "oracle_id="
    case MarketExpiryMs => "market_expiry_ms="
    case Strike => "strike="
    case HigherStrike => "higher_strike="
    case IsUp => "is_up="
    case IsRange => "is_range="
    case MarginQuoteAtoms => "margin_quote_atoms="
    case LeverageBps => "leverage_bps="
    case Quantity => "quantity="
    case MaxMintCost => "max_mint_cost="
    case MarketSlippageBps => "market_slippage_bps="
    case RemintAfterDeleverage => "remint_after_deleverage="
    case OrderKind => "order_kind="
    case LimitPremiumPerUnit => "limit_premium_per_unit="
    case PlacementSlippageBps => "placement_slippage_bps="
    case MinPayout => "min_payout="
    case RedeemMode => "redeem_mode="
    case MinPremiumPerUnit => "min_premium_per_unit="
    case ManagerQuoteAtoms => "manager_quote_atoms="
  }

  lemma TagIsName(k: Key)
    ensures Name(k) + "=" == Tag(k)
  {}

  function Bool(value: bool): string { if value then "true" else "false" }

  /** The ten lines that every trade message has after its prefix. */
  function CommonLines(js: Numerics, c: Common): seq<string> {
    [ "address=" + Normalize(c.address),
      "account_id=" + Normalize(c.accountId),
      "predict_manager_id=" + Normalize(c.predictManagerId),
      "expires_ms=" + NumberText(js, c.expiresAtMs),
      "oracle_id=" + Normalize(c.oracleId),
      "market_expiry_ms=" + NumberText(js, c.expiryMs),
      "strike=" + NumberText(js, c.strike),
      "higher_strike=" + NumberText(js, c.higherStrike),
      "is_up=" + Bool(c.isUp),
      "is_range=" + Bool(c.isRange) ]
  }

  /** What stands in the lines: tag and value, for each pair. */
  lemma LinesOfPairs(pairs: Pairs)
    ensures |Lines(Named(pairs))| == |pairs|
    ensures forall i :: 0 <= i < |pairs| ==> Lines(Named(pairs))[i] == Tag(pairs[i].0) + pairs[i].1
  {
    forall i | 0 <= i < |pairs| ensures Lines(Named(pairs))[i] == Tag(pairs[i].0) + pairs[i].1 {
      TagIsName(pairs[i].0);
      hide Name, Tag;
    }
  }

  /** A message whose values hold no line end is split into its prefix and its lines. */
  lemma SplitRendered(prefix: string, pairs: Pairs)
    requires '\n' !in prefix && forall i :: 0 <= i < |pairs| ==> '\n' !in pairs[i].1
    ensures Split(Render(prefix, pairs), '\n') == [prefix] + Lines(Named(pairs))
  {
    LinesOfPairs(pairs);
    var lines := [prefix] + Lines(Named(pairs));
    forall line | line in lines ensures '\n' !in line {
      var i :| 0 <= i < |lines| && lines[i] == line;
      if i > 0 { TagIsPlain(pairs[i - 1].0); }
    }
    hide Tag;
    SplitJoin(lines, '\n');
  }

  lemma TagIsPlain(k: Key)
    ensures '\n' !in Tag(k)
  {
    NameIsPlain(k);
    TagIsName(k);
    hide Tag, Name;
    assert '\n' !in Name(k) + "=";
  }

  lemma CommonLinesAreWritten(js: Numerics, c: Common, tail: Pairs)
    ensures Lines(Named(CommonPairs(js, c) + tail)) == CommonLines(js, c) + Lines(Named(tail))
  {
    hide NumberText, Normalize, Name;
    var pairs := CommonPairs(js, c) + tail;
    LinesOfPairs(pairs);
    LinesOfPairs(tail);
    forall i | 0 <= i < 10 ensures Lines(Named(pairs))[i] == CommonLines(js, c)[i] {
      assert pairs[i] == CommonPairs(js, c)[i];
    }
    hide Tag, CommonPairs, CommonLines;
    forall i | 10 <= i < |pairs| ensures Lines(Named(pairs))[i] == Lines(Named(tail))[i - 10] {
      assert pairs[i] == tail[i - 10];
    }
  }

  lemma WrittenMessage(js: Numerics, prefix: string, c: Common, tail: Pairs)
    requires Faithful(js) && HasNumbers(js, c) && ValidIds(c) && '\n' !in prefix && IsTail(tail)
    ensures Split(Render(prefix, CommonPairs(js, c) + tail), '\n')
         == [prefix] + (CommonLines(js, c) + Lines(Named(tail)))
  {
    CommonIsPrintable(js, c);
    hide Name, NumberText, Normalize, IsHexId, Faithful;
    forall i | 0 <= i < |CommonPairs(js, c) + tail| ensures '\n' !in (CommonPairs(js, c) + tail)[i].1 {
      if i >= 10 { assert (CommonPairs(js, c) + tail)[i] == tail[i - 10]; }
    }
    SplitRendered(prefix, CommonPairs(js, c) + tail);
    CommonLinesAreWritten(js, c, tail);
  }

  function MintLines(js: Numerics, f: MintIntent): seq<string> {
    [ "margin_quote_atoms=" + PrintNat(f.marginQuoteAtoms),
      "leverage_bps=" + PrintNat(f.leverageBps),
      "quantity=" + PrintNat(f.quantity),
      "max_mint_cost=" + PrintNat(f.maxMintCost),
      "market_slippage_bps=" + NumberText(js, f.marketSlippageBps),
      "remint_after_deleverage=" + Bool(f.remintAfterDeleverage),
      "order_kind=" + if f.orderKind.Limit? then "limit" else "market" ] +
    if f.orderKind.Limit? then
      [ "limit_premium_per_unit=" + PrintNat(f.limitPremiumPerUnit),
        "placement_slippage_bps=" + NumberText(js, f.placementSlippageBps) ]
    else []
  }

  lemma MintAmountLines(js: Numerics, f: MintIntent)
    ensures var tail, lines := MintTail(js, f), MintLines(js, f);
            && lines[0] == Tag(tail[0].0) + tail[0].1 && lines[1] == Tag(tail[1].0) + tail[1].1
            && lines[2] == Tag(tail[2].0) + tail[2].1 && lines[3] == Tag(tail[3].0) + tail[3].1
  {
    hide PrintNat, NumberText, EncodeBool, EncodeMode, Bool;
  }

  lemma MintOptionLines(js: Numerics, f: MintIntent)
    ensures var tail, lines := MintTail(js, f), MintLines(js, f);
            && lines[4] == Tag(tail[4].0) + tail[4].1 && lines[5] == Tag(tail[5].0) + tail[5].1
            && lines[6] == Tag(tail[6].0) + tail[6].1
  {
    hide PrintNat, NumberText;
  }

  lemma MintLimitLines(js: Numerics, f: MintIntent)
    requires f.orderKind.Limit?
    ensures var tail, lines := MintTail(js, f), MintLines(js, f);
            lines[7] == Tag(tail[7].0) + tail[7].1 && lines[8] == Tag(tail[8].0) + tail[8].1
  {
    hide PrintNat, NumberText, EncodeBool, EncodeMode, Bool;
  }

  lemma MintLinesAreWritten(js: Numerics, f: MintIntent)
    ensures Lines(Named(MintTail(js, f))) == MintLines(js, f)
  {
    var tail, lines := MintTail(js, f), MintLines(js, f);
    LinesOfPairs(tail);
    MintAmountLines(js, f);
    MintOptionLines(js, f);
    if f.orderKind.Limit? { MintLimitLines(js, f); }
    assert |tail| == |lines| == if f.orderKind.Limit? then 9 else 7;
    hide MintTail, MintLines, Tag, Lines, Named;
    forall i | 0 <= i < |tail| ensures lines[i] == Tag(tail[i].0) + tail[i].1 {}
  }

  /** The text of a mint message, line by line. */
  lemma MintText(js: Numerics, f: MintIntent)
    requires Faithful(js) && MintHasNumbers(js, f) && ValidIds(f.common)
    ensures Split(BuildMint(js, f), '\n')
         == ["leverx:trade:mint:v1"] + (CommonLines(js, f.common) + MintLines(js, f))
  {
    MintTailIsTail(js, f);
    MintLinesAreWritten(js, f);
    hide Name, Normalize, IsHexId, Faithful, PrintNat, NumberText, CommonLines, MintLines, MintTail, CommonPairs,
         IsTail, Render, Split;
    WrittenMessage(js, "leverx:trade:mint:v1", f.common, MintTail(js, f));
  }

  /** The text of a redeem message, line by line. */
  lemma RedeemText(js: Numerics, f: RedeemIntent)
    requires Faithful(js) && HasNumbers(js, f.common) && ValidIds(f.common)
    ensures Split(BuildRedeem(js, f), '\n') ==
              ["leverx:trade:redeem:v1"] + (CommonLines(js, f.common) +
              [ "quantity=" + PrintNat(f.quantity),
                "min_payout=" + PrintNat(f.minPayout),
                "redeem_mode=" + (if f.redeemMode.Limit? then "limit" else "market"),
                "min_premium_per_unit=" + PrintNat(f.minPremiumPerUnit) ])
  {
    RedeemTailIsTail(f);
    hide Name, Normalize, IsHexId, Faithful, PrintNat, NumberText, CommonLines, CommonPairs, IsTail, Render, Split;
    WrittenMessage(js, "leverx:trade:redeem:v1", f.common, RedeemTail(f));
    LinesOfPairs(RedeemTail(f));
  }

  /** The text of a settle message, line by line. */
  lemma SettleText(js: Numerics, f: SettleIntent)
    requires Faithful(js) && HasNumbers(js, f.common) && ValidIds(f.common)
    ensures Split(BuildSettle(js, f), '\n') ==
              ["leverx:trade:settle:v1"] + (CommonLines(js, f.common) + ["quantity=" + PrintNat(f.quantity)])
  {
    hide Name, Normalize, IsHexId, Faithful, PrintNat, NumberText, CommonLines, CommonPairs, Render, Split;
    WrittenMessage(js, "leverx:trade:settle:v1", f.common, SettleTail(f));
    LinesOfPairs(SettleTail(f));
  }

  /** The text of a recover-manager message, line by line. */
  lemma RecoverManagerText(js: Numerics, f: RecoverManagerIntent)
    requires Faithful(js) && HasNumbers(js, f.common) && ValidIds(f.common)
    ensures Split(BuildRecoverManager(js, f), '\n') ==
              ["leverx:trade:recover_manager:v1"]
              + (CommonLines(js, f.common) + ["manager_quote_atoms=" + PrintNat(f.managerQuoteAtoms)])
  {
    hide Name, Normalize, IsHexId, Faithful, PrintNat, NumberText, CommonLines, CommonPairs, Render, Split;
    WrittenMessage(js, "leverx:trade:recover_manager:v1", f.common, RecoverManagerTail(f));
    LinesOfPairs(RecoverManagerTail(f));
  }

  /** The text of a manager request, line by line. */
  lemma ManagerCreateText(js: Numerics, f: ManagerMessage.ManagerCreateIntent)
    requires Faithful(js) && IsNumber(js, f.expiresAtMs) && IsHexId(Normalize(f.address))
    ensures Split(ManagerMessage.BuildManagerCreate(js, f), '\n') ==
              [ "leverx:manager:create:v1",
                "address=" + Normalize(f.address),
                "expires_ms=" + NumberText(js, f.expiresAtMs) ]
  {
    NumberTextIsOneLine(js, f.expiresAtMs);
    HexIdIsPlain(Normalize(f.address));
    hide Name, Normalize, IsHexId, Faithful, NumberText, Render, Split;
    var pairs: Pairs := [(Address, Normalize(f.address)), (ExpiresMs, NumberText(js, f.expiresAtMs))];
    SplitRendered("leverx:manager:create:v1", pairs);
    LinesOfPairs(pairs);
  }

  // ---- the texts that are read ---------------------------------------------

  /** A line binds a name to a value exactly when it is that name, an equals sign and the value. */
  lemma BindsExactly(line: string, name: string, value: string)
    requires name != "" && '=' !in name
    ensures Binds(line) && BoundKey(line) == name && BoundValue(line) == value <==> line == name + "=" + value
  {
    if line == name + "=" + value {
      assert line[|name|] == '=';
      assert forall j :: 0 <= j < |name| ==> line[j] == name[j];
    } else if Binds(line) {
      var i := IndexOf(line, '=');
      assert line == line[..i] + [line[i]] + line[i + 1..];
    }
  }

  /** Lines without a name before an equals sign bind nothing. */
  lemma BindsNothing(line: string)
    ensures !Binds(line) <==> '=' !in line || line[0] == '='
  {}

  function Bound(fields: Fields, name: string): Option<string> {
    if name in fields then Some(fields[name]) else None
  }

  datatype Format = ObjectId | BigNumber | WholeNumber | OptionalBigNumber | OptionalNumber

  predicate WellFormed(js: Numerics, value: Option<string>, format: Format) {
    match format
    case ObjectId => value.Some? && IsHexId(Normalize(value.value))
    case BigNumber => value.Some? && IsDecimal(value.value)
    case WholeNumber => value.Some? && NumberOf(js, value.value).Some?
    case OptionalBigNumber => value.None? || value.value == "" || IsDecimal(value.value)
    case OptionalNumber => value.None? || value.value == "" || NumberOf(js, value.value).Some?
  }

  type Checks = seq<(string, Format)>

  predicate Passes(js: Numerics, fields: Fields, check: (string, Format)) {
    WellFormed(js, Bound(fields, check.0), check.1)
  }

  ghost predicate PassAll(js: Numerics, fields: Fields, checks: Checks) {
    forall i :: 0 <= i < |checks| ==> Passes(js, fields, checks[i])
  }

  /** The error is that of the first field that is not well formed. */
  ghost predicate FirstError(js: Numerics, fields: Fields, checks: Checks, code: string) {
    exists i :: 0 <= i < |checks| && !Passes(js, fields, checks[i]) && code == "invalid_" + checks[i].0
             && forall j :: 0 <= j < i ==> Passes(js, fields, checks[j])
  }

  /** The shared fields in the order of their checks. */
  const COMMON_CHECKS: Checks :=
    [ ("expires_ms", WholeNumber), ("oracle_id", ObjectId), ("market_expiry_ms", BigNumber), ("strike", BigNumber),
      ("higher_strike", BigNumber), ("address", ObjectId), ("account_id", ObjectId), ("predict_manager_id", ObjectId) ]

  const MINT_CHECKS: Checks :=
    [ ("margin_quote_atoms", BigNumber), ("leverage_bps", BigNumber), ("quantity", BigNumber),
      ("max_mint_cost", BigNumber), ("market_slippage_bps", WholeNumber),
      ("limit_premium_per_unit", OptionalBigNumber), ("placement_slippage_bps", OptionalNumber) ]

  const REDEEM_CHECKS: Checks :=
    [ ("quantity", BigNumber), ("min_payout", BigNumber), ("min_premium_per_unit", OptionalBigNumber) ]

  const SETTLE_CHECKS: Checks := [("quantity", BigNumber)]

  const RECOVER_CHECKS: Checks := [("manager_quote_atoms", BigNumber)]

  const MANAGER_CHECKS: Checks := [("address", ObjectId), ("expires_ms", WholeNumber)]

  lemma FirstErrorAt(js: Numerics, fields: Fields, checks: Checks, i: nat)
    requires i < |checks| && !Passes(js, fields, checks[i]) && forall j :: 0 <= j < i ==> Passes(js, fields, checks[j])
    ensures FirstError(js, fields, checks, "invalid_" + checks[i].0) && !PassAll(js, fields, checks)
  {}

  /** Checks in two parts are checks one after the other. */
  lemma InParts(js: Numerics, fields: Fields, first: Checks, second: Checks, code: string)
    ensures PassAll(js, fields, first + second) <==> PassAll(js, fields, first) && PassAll(js, fields, second)
    ensures FirstError(js, fields, first, code) ==> FirstError(js, fields, first + second, code)
    ensures PassAll(js, fields, first) && FirstError(js, fields, second, code) ==>
              FirstError(js, fields, first + second, code)
  {
    hide Passes;
    var both := first + second;
    if PassAll(js, fields, both) {
      forall i | 0 <= i < |first| ensures Passes(js, fields, first[i]) { assert both[i] == first[i]; }
      forall i | 0 <= i < |second| ensures Passes(js, fields, second[i]) { assert both[|first| + i] == second[i]; }
    }
    if FirstError(js, fields, first, code) {
      var i :| 0 <= i < |first| && !Passes(js, fields, first[i]) && code == "invalid_" + first[i].0
               && forall j :: 0 <= j < i ==> Passes(js, fields, first[j]);
      assert both[i] == first[i] && forall j :: 0 <= j < i ==> both[j] == first[j];
    }
    if PassAll(js, fields, first) && FirstError(js, fields, second, code) {
      var i :| 0 <= i < |second| && !Passes(js, fields, second[i]) && code == "invalid_" + second[i].0
               && forall j :: 0 <= j < i ==> Passes(js, fields, second[j]);
      assert both[|first| + i] == second[i];
      forall j | 0 <= j < |first| + i ensures Passes(js, fields, both[j]) {
        if j >= |first| { assert both[j] == second[j - |first|]; }
      }
    }
  }

  // The single-field parsers against the formats.

  lemma ReadsObjectId(fields: Fields, k: Key, js: Numerics)
    ensures ParseAddressField(fields, k) == if WellFormed(js, Bound(fields, Name(k)), ObjectId)
                                            then Ok(Normalize(fields[Name(k)])) else Err("invalid_" + Name(k))
  { hide Name, IsHexId, Normalize; }

  lemma ReadsBigNumber(fields: Fields, k: Key, js: Numerics)
    ensures ParseU64Field(fields, k) == if WellFormed(js, Bound(fields, Name(k)), BigNumber)
                                        then Ok(ParseNat(fields[Name(k)])) else Err("invalid_" + Name(k))
    ensures ParseOptionalU64(fields, k) ==
              if !WellFormed(js, Bound(fields, Name(k)), OptionalBigNumber) then Err("invalid_" + Name(k))
              else Ok(if Bound(fields, Name(k)).GetOr("") == "" then 0 else ParseNat(fields[Name(k)]))
  { hide Name; }

  lemma ReadsWholeNumber(js: Numerics, fields: Fields, k: Key)
    ensures ParseNumberField(js, fields, k) ==
              if WellFormed(js, Bound(fields, Name(k)), WholeNumber) then Ok(NumberOf(js, fields[Name(k)]).value)
              else Err("invalid_" + Name(k))
    ensures ParseOptionalNumber(js, fields, k) ==
              if !WellFormed(js, Bound(fields, Name(k)), OptionalNumber) then Err("invalid_" + Name(k))
              else Ok(if Bound(fields, Name(k)).GetOr("") == "" then 0 else NumberOf(js, fields[Name(k)]).value)
  { hide Name, NumberOf; }

  lemma CommonNames()
    ensures Name(ExpiresMs) == "expires_ms" && Name(OracleId) == "oracle_id"
    ensures Name(MarketExpiryMs) == "market_expiry_ms"
    ensures Name(Strike) == "strike" && Name(HigherStrike) == "higher_strike" && Name(Address) == "address"
    ensures Name(AccountId) == "account_id" && Name(PredictManagerId) == "predict_manager_id"
    ensures Name(IsUp) == "is_up" && Name(IsRange) == "is_range"
  {}

  lemma MintNames()
    ensures Name(MarginQuoteAtoms) == "margin_quote_atoms" && Name(LeverageBps) == "leverage_bps"
    ensures Name(Quantity) == "quantity" && Name(MaxMintCost) == "max_mint_cost"
    ensures Name(MarketSlippageBps) == "market_slippage_bps"
    ensures Name(RemintAfterDeleverage) == "remint_after_deleverage" && Name(OrderKind) == "order_kind"
    ensures Name(LimitPremiumPerUnit) == "limit_premium_per_unit"
    ensures Name(PlacementSlippageBps) == "placement_slippage_bps"
  {}

  lemma OtherNames()
    ensures Name(Quantity) == "quantity" && Name(MinPayout) == "min_payout" && Name(RedeemMode) == "redeem_mode"
    ensures Name(MinPremiumPerUnit) == "min_premium_per_unit" && Name(ManagerQuoteAtoms) == "manager_quote_atoms"
  {}

  /** A field that is present and read as a bigint. */
  function BigAt(fields: Fields, name: string): nat
    requires name in fields && IsDecimal(fields[name])
  { ParseNat(fields[name]) }

  predicate IsTrue(fields: Fields, name: string) { Bound(fields, name) == Some("true") }

  predicate IsLimit(fields: Fields, name: string) { Bound(fields, name) == Some("limit") }

  /** The shared fields, each the value bound to its own name. */
  ghost predicate CommonIsRead(js: Numerics, fields: Fields, c: Common)
    requires PassAll(js, fields, COMMON_CHECKS)
  {
    assert Passes(js, fields, COMMON_CHECKS[0]) && Passes(js, fields, COMMON_CHECKS[1]);
    assert Passes(js, fields, COMMON_CHECKS[2]) && Passes(js, fields, COMMON_CHECKS[3]);
    assert Passes(js, fields, COMMON_CHECKS[4]) && Passes(js, fields, COMMON_CHECKS[5]);
    assert Passes(js, fields, COMMON_CHECKS[6]) && Passes(js, fields, COMMON_CHECKS[7]);
    && c.address == Normalize(fields["address"])
    && c.accountId == Normalize(fields["account_id"])
    && c.predictManagerId == Normalize(fields["predict_manager_id"])
    && Some(c.expiresAtMs) == NumberOf(js, fields["expires_ms"])
    && c.oracleId == Normalize(fields["oracle_id"])
    && c.expiryMs == FromBigInt(js, BigAt(fields, "market_expiry_ms"))
    && c.strike == FromBigInt(js, BigAt(fields, "strike"))
    && c.higherStrike == FromBigInt(js, BigAt(fields, "higher_strike"))
    && (c.isUp <==> IsTrue(fields, "is_up"))
    && (c.isRange <==> IsTrue(fields, "is_range"))
  }

  lemma EightChecks(js: Numerics, fields: Fields, checks: Checks)
    requires |checks| == 8
    ensures PassAll(js, fields, checks) <==>
              && Passes(js, fields, checks[0]) && Passes(js, fields, checks[1]) && Passes(js, fields, checks[2])
              && Passes(js, fields, checks[3]) && Passes(js, fields, checks[4]) && Passes(js, fields, checks[5])
              && Passes(js, fields, checks[6]) && Passes(js, fields, checks[7])
  {
    hide Passes;
  }

  /** The first check that fails, in a list of at most eight. */
  lemma FirstOf(js: Numerics, fields: Fields, checks: Checks)
    ensures PassAll(js, fields, checks)
            || exists i: nat :: i < |checks| && !Passes(js, fields, checks[i])
                                && forall j :: 0 <= j < i ==> Passes(js, fields, checks[j])
    decreases |checks|
  {
    hide Passes;
    if checks != [] {
      var n := |checks| - 1;
      FirstOf(js, fields, checks[..n]);
      if i: nat :| i < n && !Passes(js, fields, checks[..n][i])
                   && forall j :: 0 <= j < i ==> Passes(js, fields, checks[..n][j]) {
        assert !Passes(js, fields, checks[i]);
        forall j | 0 <= j < i ensures Passes(js, fields, checks[j]) { assert checks[..n][j] == checks[j]; }
      } else {
        forall j | 0 <= j < n ensures Passes(js, fields, checks[j]) { assert checks[..n][j] == checks[j]; }
      }
    }
  }

  lemma CommonRefused(js: Numerics, fields: Fields, i: nat)
    requires i < 8 && !Passes(js, fields, COMMON_CHECKS[i])
    requires forall j :: 0 <= j < i ==> Passes(js, fields, COMMON_CHECKS[j])
    ensures ParseCommon(js, fields) == Err("invalid_" + COMMON_CHECKS[i].0)
  {
    CommonNames();
    ReadsWholeNumber(js, fields, ExpiresMs);
    ReadsObjectId(fields, OracleId, js);
    ReadsBigNumber(fields, MarketExpiryMs, js);
    ReadsBigNumber(fields, Strike, js);
    ReadsBigNumber(fields, HigherStrike, js);
    ReadsObjectId(fields, Address, js);
    ReadsObjectId(fields, AccountId, js);
    ReadsObjectId(fields, PredictManagerId, js);
    hide Name, WellFormed, IsHexId, Normalize, ParseAddressField, ParseU64Field, ParseNumberField, ParseNat, NumberOf;
    if i > 0 { assert Passes(js, fields, COMMON_CHECKS[0]); }
    if i > 1 { assert Passes(js, fields, COMMON_CHECKS[1]); }
    if i > 2 { assert Passes(js, fields, COMMON_CHECKS[2]); }
    if i > 3 { assert Passes(js, fields, COMMON_CHECKS[3]); }
    if i > 4 { assert Passes(js, fields, COMMON_CHECKS[4]); }
    if i > 5 { assert Passes(js, fields, COMMON_CHECKS[5]); }
    if i > 6 { assert Passes(js, fields, COMMON_CHECKS[6]); }
  }

  lemma CommonAccepted(js: Numerics, fields: Fields)
    requires PassAll(js, fields, COMMON_CHECKS)
    ensures ParseCommon(js, fields).Ok? && CommonIsRead(js, fields, ParseCommon(js, fields).value)
  {
    CommonNames();
    ReadsWholeNumber(js, fields, ExpiresMs);
    ReadsObjectId(fields, OracleId, js);
    ReadsBigNumber(fields, MarketExpiryMs, js);
    ReadsBigNumber(fields, Strike, js);
    ReadsBigNumber(fields, HigherStrike, js);
    ReadsObjectId(fields, Address, js);
    ReadsObjectId(fields, AccountId, js);
    ReadsObjectId(fields, PredictManagerId, js);
    EightChecks(js, fields, COMMON_CHECKS);
    hide Name, IsHexId, Normalize, ParseAddressField, ParseU64Field, ParseNumberField, ParseNat, NumberOf, PassAll;
  }

  /** What the parser of the shared fields returns, told by the checks. */
  lemma CommonFields(js: Numerics, fields: Fields)
    ensures var r := ParseCommon(js, fields);
            && (r.Ok? <==> PassAll(js, fields, COMMON_CHECKS))
            && (r.Err? ==> FirstError(js, fields, COMMON_CHECKS, r.code))
            && (r.Ok? ==> CommonIsRead(js, fields, r.value))
  {
    hide ParseCommon, Passes, CommonIsRead;
    if PassAll(js, fields, COMMON_CHECKS) {
      CommonAccepted(js, fields);
    } else {
      FirstOf(js, fields, COMMON_CHECKS);
      var i: nat :| i < 8 && !Passes(js, fields, COMMON_CHECKS[i])
                    && forall j :: 0 <= j < i ==> Passes(js, fields, COMMON_CHECKS[j]);
      CommonRefused(js, fields, i);
      FirstErrorAt(js, fields, COMMON_CHECKS, i);
    }
  }

  // ---- the five parsers ----------------------------------------------------

  function FieldsOfText(text: string): Fields { FieldsOf(Split(text, '\n')[1..]) }

  function FirstLine(text: string): string { Split(text, '\n')[0] }

  /** The outcome of a parser: a wrong prefix, the first field that is not well formed, or what `read` says. */
  ghost predicate Reads<T>(js: Numerics, text: string, prefix: string, checks: Checks, r: Result<T>) {
    && (FirstLine(text) != prefix ==> r == Err("invalid_message_prefix"))
    && (FirstLine(text) == prefix ==>
          && (r.Ok? <==> PassAll(js, FieldsOfText(text), checks))
          && (r.Err? ==> FirstError(js, FieldsOfText(text), checks, r.code)))
  }

  /** The fields after the shared ones: all of them pass, or the first that does not gives the error. */
  ghost predicate TailReads<T>(js: Numerics, fields: Fields, checks: Checks, r: Result<T>) {
    && (r.Ok? <==> PassAll(js, fields, checks))
    && (r.Err? ==> FirstError(js, fields, checks, r.code))
  }

  /** A parser that reads the shared fields and then its own. */
  lemma ReadsInParts<T>(js: Numerics, text: string, prefix: string, own: Checks, r: Result<T>)
    requires FirstLine(text) != prefix ==> r == Err("invalid_message_prefix")
    requires FirstLine(text) == prefix && ParseCommon(js, FieldsOfText(text)).Err? ==>
               r == Err(ParseCommon(js, FieldsOfText(text)).code)
    requires FirstLine(text) == prefix && ParseCommon(js, FieldsOfText(text)).Ok? ==>
               TailReads(js, FieldsOfText(text), own, r)
    ensures Reads(js, text, prefix, COMMON_CHECKS + own, r)
  {
    var fields := FieldsOfText(text);
    CommonFields(js, fields);
    hide ParseCommon, PassAll, FirstError, CommonIsRead, Split, FieldsOfText, FirstLine;
    InParts(js, fields, COMMON_CHECKS, own, if r.Err? then r.code else "");
  }

  lemma OneCheck(js: Numerics, fields: Fields, checks: Checks)
    requires |checks| == 1
    ensures PassAll(js, fields, checks) <==> Passes(js, fields, checks[0])
    ensures !Passes(js, fields, checks[0]) ==> FirstError(js, fields, checks, "invalid_" + checks[0].0)
  {
    hide Passes;
  }

  /** What a settle text is read as. */
  lemma SettleIsRead(js: Numerics, text: string)
    ensures var r := ParseSettle(js, text); var fields := FieldsOfText(text);
            && Reads(js, text, "leverx:trade:settle:v1", COMMON_CHECKS + SETTLE_CHECKS, r)
            && (r.Ok? ==>
                  && PassAll(js, fields, COMMON_CHECKS) && CommonIsRead(js, fields, r.value.common)
                  && Passes(js, fields, ("quantity", BigNumber)) && r.value.quantity == BigAt(fields, "quantity"))
  {
    var fields, r := FieldsOfText(text), ParseSettle(js, text);
    OtherNames();
    ReadsBigNumber(fields, Quantity, js);
    OneCheck(js, fields, SETTLE_CHECKS);
    CommonFields(js, fields);
    hide Name, ParseCommon, CommonIsRead, PassAll, FirstError, ParseU64Field, Split, FieldsOf;
    ReadsInParts(js, text, "leverx:trade:settle:v1", SETTLE_CHECKS, r);
  }

  /** What a recover-manager text is read as. */
  lemma RecoverManagerIsRead(js: Numerics, text: string)
    ensures var r := ParseRecoverManager(js, text); var fields := FieldsOfText(text);
            && Reads(js, text, "leverx:trade:recover_manager:v1", COMMON_CHECKS + RECOVER_CHECKS, r)
            && (r.Ok? ==>
                  && PassAll(js, fields, COMMON_CHECKS) && CommonIsRead(js, fields, r.value.common)
                  && Passes(js, fields, ("manager_quote_atoms", BigNumber))
                  && r.value.managerQuoteAtoms == BigAt(fields, "manager_quote_atoms"))
  {
    var fields, r := FieldsOfText(text), ParseRecoverManager(js, text);
    OtherNames();
    ReadsBigNumber(fields, ManagerQuoteAtoms, js);
    OneCheck(js, fields, RECOVER_CHECKS);
    CommonFields(js, fields);
    hide Name, ParseCommon, CommonIsRead, PassAll, FirstError, ParseU64Field, Split, FieldsOf;
    ReadsInParts(js, text, "leverx:trade:recover_manager:v1", RECOVER_CHECKS, r);
  }

  function OptionalBigAt(fields: Fields, name: string): nat
    requires Bound(fields, name).GetOr("") == "" || IsDecimal(fields[name])
  { if Bound(fields, name).GetOr("") == "" then 0 else ParseNat(fields[name]) }

  /** The own fields of a redeem message. */
  ghost predicate RedeemIsReadOff(js: Numerics, fields: Fields, f: RedeemIntent)
    requires PassAll(js, fields, REDEEM_CHECKS)
  {
    assert Passes(js, fields, REDEEM_CHECKS[0]) && Passes(js, fields, REDEEM_CHECKS[1]);
    assert Passes(js, fields, REDEEM_CHECKS[2]);
    && f.quantity == BigAt(fields, "quantity")
    && f.minPayout == BigAt(fields, "min_payout")
    && f.minPremiumPerUnit == OptionalBigAt(fields, "min_premium_per_unit")
    && (f.redeemMode.Limit? <==> IsLimit(fields, "redeem_mode"))
  }

  lemma RedeemTailFields(js: Numerics, text: string)
    requires FirstLine(text) == "leverx:trade:redeem:v1" && ParseCommon(js, FieldsOfText(text)).Ok?
    ensures var r := ParseRedeem(js, text); var fields := FieldsOfText(text);
            && TailReads(js, fields, REDEEM_CHECKS, r)
            && (r.Ok? ==> RedeemIsReadOff(js, fields, r.value)
                          && r.value.common == ParseCommon(js, fields).value)
  {
    var fields := FieldsOfText(text);
    OtherNames();
    ReadsBigNumber(fields, Quantity, js);
    ReadsBigNumber(fields, MinPayout, js);
    ReadsBigNumber(fields, MinPremiumPerUnit, js);
    hide Name, ParseCommon, ParseU64Field, ParseOptionalU64, Split, FieldsOf, ParseNat, IsDecimal;
    FirstOf(js, fields, REDEEM_CHECKS);
    if PassAll(js, fields, REDEEM_CHECKS) {
      assert Passes(js, fields, REDEEM_CHECKS[0]) && Passes(js, fields, REDEEM_CHECKS[1]);
      assert Passes(js, fields, REDEEM_CHECKS[2]);
    } else {
      var i: nat :| i < 3 && !Passes(js, fields, REDEEM_CHECKS[i])
                    && forall j :: 0 <= j < i ==> Passes(js, fields, REDEEM_CHECKS[j]);
      FirstErrorAt(js, fields, REDEEM_CHECKS, i);
      if i > 0 { assert Passes(js, fields, REDEEM_CHECKS[0]); }
      if i > 1 { assert Passes(js, fields, REDEEM_CHECKS[1]); }
    }
  }

  /** What a redeem text is read as; a missing mode is a market redeem. */
  lemma RedeemIsRead(js: Numerics, text: string)
    ensures var r := ParseRedeem(js, text); var fields := FieldsOfText(text);
            && Reads(js, text, "leverx:trade:redeem:v1", COMMON_CHECKS + REDEEM_CHECKS, r)
            && (r.Ok? ==>
                  && PassAll(js, fields, COMMON_CHECKS) && CommonIsRead(js, fields, r.value.common)
                  && PassAll(js, fields, REDEEM_CHECKS) && RedeemIsReadOff(js, fields, r.value))
  {
    var fields, r := FieldsOfText(text), ParseRedeem(js, text);
    CommonFields(js, fields);
    if FirstLine(text) == "leverx:trade:redeem:v1" && ParseCommon(js, fields).Ok? { RedeemTailFields(js, text); }
    hide Name, ParseCommon, CommonIsRead, RedeemIsReadOff, PassAll, FirstError, ParseU64Field, ParseOptionalU64,
         ParseMode, Split, FieldsOf;
    ReadsInParts(js, text, "leverx:trade:redeem:v1", REDEEM_CHECKS, r);
  }

  /** The own fields of a mint message. */
  ghost predicate MintIsReadOff(js: Numerics, fields: Fields, f: MintIntent)
    requires PassAll(js, fields, MINT_CHECKS)
  {
    assert Passes(js, fields, MINT_CHECKS[0]) && Passes(js, fields, MINT_CHECKS[1]);
    assert Passes(js, fields, MINT_CHECKS[2]) && Passes(js, fields, MINT_CHECKS[3]);
    assert Passes(js, fields, MINT_CHECKS[4]) && Passes(js, fields, MINT_CHECKS[5]);
    assert Passes(js, fields, MINT_CHECKS[6]);
    && f.marginQuoteAtoms == BigAt(fields, "margin_quote_atoms")
    && f.leverageBps == BigAt(fields, "leverage_bps")
    && f.quantity == BigAt(fields, "quantity")
    && f.maxMintCost == BigAt(fields, "max_mint_cost")
    && Some(f.marketSlippageBps) == NumberOf(js, fields["market_slippage_bps"])
    && (f.remintAfterDeleverage <==> IsTrue(fields, "remint_after_deleverage"))
    && (f.orderKind.Limit? <==> IsLimit(fields, "order_kind"))
    && f.limitPremiumPerUnit == OptionalBigAt(fields, "limit_premium_per_unit")
    && Some(f.placementSlippageBps) == (if Bound(fields, "placement_slippage_bps").GetOr("") == "" then Some(0)
                                        else NumberOf(js, fields["placement_slippage_bps"]))
  }

  lemma MintRefused(js: Numerics, text: string, i: nat)
    requires FirstLine(text) == "leverx:trade:mint:v1" && ParseCommon(js, FieldsOfText(text)).Ok?
    requires i < 7 && !Passes(js, FieldsOfText(text), MINT_CHECKS[i])
    requires forall j :: 0 <= j < i ==> Passes(js, FieldsOfText(text), MINT_CHECKS[j])
    ensures ParseMint(js, text) == Err("invalid_" + MINT_CHECKS[i].0)
  {
    var fields := FieldsOfText(text);
    MintNames();
    ReadsBigNumber(fields, MarginQuoteAtoms, js);
    ReadsBigNumber(fields, LeverageBps, js);
    ReadsBigNumber(fields, Quantity, js);
    ReadsBigNumber(fields, MaxMintCost, js);
    ReadsWholeNumber(js, fields, MarketSlippageBps);
    ReadsBigNumber(fields, LimitPremiumPerUnit, js);
    ReadsWholeNumber(js, fields, PlacementSlippageBps);
    hide Name, WellFormed, ParseCommon, ParseU64Field, ParseOptionalU64, ParseNumberField, ParseOptionalNumber, Split,
         FieldsOf, ParseNat, NumberOf;
    if i > 0 { assert Passes(js, fields, MINT_CHECKS[0]); }
    if i > 1 { assert Passes(js, fields, MINT_CHECKS[1]); }
    if i > 2 { assert Passes(js, fields, MINT_CHECKS[2]); }
    if i > 3 { assert Passes(js, fields, MINT_CHECKS[3]); }
    if i > 4 { assert Passes(js, fields, MINT_CHECKS[4]); }
    if i > 5 { assert Passes(js, fields, MINT_CHECKS[5]); }
  }

  lemma MintAccepted(js: Numerics, text: string)
    requires FirstLine(text) == "leverx:trade:mint:v1" && ParseCommon(js, FieldsOfText(text)).Ok?
    requires PassAll(js, FieldsOfText(text), MINT_CHECKS)
    ensures var r := ParseMint(js, text); var fields := FieldsOfText(text);
            && r.Ok? && MintIsReadOff(js, fields, r.value) && r.value.common == ParseCommon(js, fields).value
  {
    var fields := FieldsOfText(text);
    MintNames();
    ReadsBigNumber(fields, MarginQuoteAtoms, js);
    ReadsBigNumber(fields, LeverageBps, js);
    ReadsBigNumber(fields, Quantity, js);
    ReadsBigNumber(fields, MaxMintCost, js);
    ReadsWholeNumber(js, fields, MarketSlippageBps);
    ReadsBigNumber(fields, LimitPremiumPerUnit, js);
    ReadsWholeNumber(js, fields, PlacementSlippageBps);
    assert Passes(js, fields, MINT_CHECKS[0]) && Passes(js, fields, MINT_CHECKS[1]);
    assert Passes(js, fields, MINT_CHECKS[2]) && Passes(js, fields, MINT_CHECKS[3]);
    assert Passes(js, fields, MINT_CHECKS[4]) && Passes(js, fields, MINT_CHECKS[5]);
    assert Passes(js, fields, MINT_CHECKS[6]);
    hide Name, ParseCommon, ParseU64Field, ParseOptionalU64, ParseNumberField, ParseOptionalNumber, Split, FieldsOf,
         ParseNat, NumberOf, IsDecimal, PassAll;
  }

  /** What a mint text is read as; a missing order kind is a market order. */
  lemma MintIsRead(js: Numerics, text: string)
    ensures var r := ParseMint(js, text); var fields := FieldsOfText(text);
            && Reads(js, text, "leverx:trade:mint:v1", COMMON_CHECKS + MINT_CHECKS, r)
            && (r.Ok? ==>
                  && PassAll(js, fields, COMMON_CHECKS) && CommonIsRead(js, fields, r.value.common)
                  && PassAll(js, fields, MINT_CHECKS) && MintIsReadOff(js, fields, r.value))
  {
    var fields, r := FieldsOfText(text), ParseMint(js, text);
    CommonFields(js, fields);
    MintPrefixAndHead(js, text);
    hide ParseMint, ParseCommon, CommonIsRead, MintIsReadOff, Passes, FieldsOfText, FirstLine;
    if FirstLine(text) == "leverx:trade:mint:v1" && ParseCommon(js, fields).Ok? {
      if PassAll(js, fields, MINT_CHECKS) {
        MintAccepted(js, text);
      } else {
        FirstOf(js, fields, MINT_CHECKS);
        var i: nat :| i < 7 && !Passes(js, fields, MINT_CHECKS[i])
                      && forall j :: 0 <= j < i ==> Passes(js, fields, MINT_CHECKS[j]);
        MintRefused(js, text, i);
        FirstErrorAt(js, fields, MINT_CHECKS, i);
      }
    }
    hide PassAll, FirstError;
    ReadsInParts(js, text, "leverx:trade:mint:v1", MINT_CHECKS, r);
  }

  lemma MintPrefixAndHead(js: Numerics, text: string)
    ensures FirstLine(text) != "leverx:trade:mint:v1" ==> ParseMint(js, text) == Err("invalid_message_prefix")
    ensures FirstLine(text) == "leverx:trade:mint:v1" && ParseCommon(js, FieldsOfText(text)).Err? ==>
              ParseMint(js, text) == Err(ParseCommon(js, FieldsOfText(text)).code)
  {
    hide ParseCommon, ParseU64Field, ParseOptionalU64, ParseNumberField, ParseOptionalNumber, ParseMode, ParseBool,
         Split, FieldsOf;
  }

  /** What a manager request is read as. */
  lemma ManagerCreateIsRead(js: Numerics, text: string)
    ensures var r := ManagerMessage.ParseManagerCreate(js, text); var fields := FieldsOfText(text);
            && Reads(js, text, "leverx:manager:create:v1", MANAGER_CHECKS, r)
            && (r.Ok? ==>
                  && Passes(js, fields, ("address", ObjectId)) && r.value.address == Normalize(fields["address"])
                  && Passes(js, fields, ("expires_ms", WholeNumber))
                  && Some(r.value.expiresAtMs) == NumberOf(js, fields["expires_ms"]))
  {
    var fields := FieldsOfText(text);
    CommonNames();
    ReadsObjectId(fields, Address, js);
    ReadsWholeNumber(js, fields, ExpiresMs);
    hide Name, ParseAddressField, ParseNumberField, Split, FieldsOf, NumberOf, IsHexId, Normalize;
    if !Passes(js, fields, MANAGER_CHECKS[0]) {
      FirstErrorAt(js, fields, MANAGER_CHECKS, 0);
    } else if !Passes(js, fields, MANAGER_CHECKS[1]) {
      FirstErrorAt(js, fields, MANAGER_CHECKS, 1);
    }
  }
}
