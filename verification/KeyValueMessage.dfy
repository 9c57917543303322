/**
 The `key=value` text that a wallet signs: one prefix line, then one line a field.
 trade-message.ts and manager-message.ts each hold a copy of this parser; it is modelled once.
 */
module KeyValueMessage {
  import opened JsBasics
  import opened JsText

  /** Every field name that some message prints. */
  datatype Key =
    | Address | AccountId | PredictManagerId | ExpiresMs
    | OracleId | MarketExpiryMs | Strike | HigherStrike | IsUp | IsRange
    | MarginQuoteAtoms | LeverageBps | Quantity | MaxMintCost
    | MarketSlippageBps | RemintAfterDeleverage | OrderKind
    | LimitPremiumPerUnit | PlacementSlippageBps
    | MinPayout | RedeemMode | MinPremiumPerUnit | ManagerQuoteAtoms

  function Name(k: Key): string {
    match k
    case Address => "address"
    case AccountId => "account_id"
    case PredictManagerId => "predict_manager_id"
    case ExpiresMs => "expires_ms"
    case OracleId => "oracle_id"
    case MarketExpiryMs => "market_expiry_ms"
    case Strike => "strike"
    case HigherStrike => "higher_strike"
    case IsUp => "is_up"
    case IsRange => "is_range"
    case MarginQuoteAtoms => "margin_quote_atoms"
    case LeverageBps => "leverage_bps"
    case Quantity => "quantity"
    case MaxMintCost => "max_mint_cost"
    case MarketSlippageBps => "market_slippage_bps"
    case RemintAfterDeleverage => "remint_after_deleverage"
    case OrderKind => "order_kind"
    case LimitPremiumPerUnit => "limit_premium_per_unit"
    case PlacementSlippageBps => "placement_slippage_bps"
    case MinPayout => "min_payout"
    case RedeemMode => "redeem_mode"
    case MinPremiumPerUnit => "min_premium_per_unit"
    case ManagerQuoteAtoms => "manager_quote_atoms"
  }

  /** Length and fourth letter together tell all field names apart. */
  function Fingerprint(k: Key): (int, char) {
    match k
    case Address => (7, 'r')
    case AccountId => (10, 'o')
    case PredictManagerId => (18, 'd')
    case ExpiresMs => (10, 'i')
    case OracleId => (9, 'c')
    case MarketExpiryMs => (16, 'k')
    case Strike => (6, 'i')
    case HigherStrike => (13, 'h')
    case IsUp => (5, 'u')
    case IsRange => (8, 'r')
    case MarginQuoteAtoms => (18, 'g')
    case LeverageBps => (12, 'e')
    case Quantity => (8, 'n')
    case MaxMintCost => (13, '_')
    case MarketSlippageBps => (19, 'k')
    case RemintAfterDeleverage => (23, 'i')
    case OrderKind => (10, 'e')
    case LimitPremiumPerUnit => (22, 'i')
    case PlacementSlippageBps => (22, 'c')
    case MinPayout => (10, '_')
    case RedeemMode => (11, 'e')
    case MinPremiumPerUnit => (20, '_')
    case ManagerQuoteAtoms => (19, 'a')
  }

  lemma NamesDiffer(j: Key, k: Key)
    requires Name(j) == Name(k)
    ensures j == k
  {
    hide Name;
    NameFingerprint(j);
    NameFingerprint(k);
    assert Fingerprint(j) == Fingerprint(k);
  }

  lemma NameFingerprint(k: Key)
    ensures |Name(k)| > 3
    ensures Fingerprint(k) == (|Name(k)|, Name(k)[3])
  {}

  /** No '=' and no line end. */
  predicate IsPlain(s: string) {
    forall i :: 0 <= i < |s| ==> s[i] != '=' && s[i] != '\n'
  }

  lemma PlainIdentityNames(k: Key)
    requires k.Address? || k.AccountId? || k.PredictManagerId? || k.ExpiresMs?
    ensures IsPlain(Name(k))
  {}

  lemma PlainMarketNames(k: Key)
    requires k.OracleId? || k.MarketExpiryMs? || k.Strike? || k.HigherStrike?
    ensures IsPlain(Name(k))
  {}

  lemma PlainFlagNames(k: Key)
    requires k.IsUp? || k.IsRange? || k.MarginQuoteAtoms? || k.LeverageBps?
    ensures IsPlain(Name(k))
  {}

  lemma PlainAmountNames(k: Key)
    requires k.Quantity? || k.MaxMintCost? || k.MarketSlippageBps? || k.RemintAfterDeleverage?
    ensures IsPlain(Name(k))
  {}

  lemma PlainOrderNames(k: Key)
    requires k.OrderKind? || k.MinPayout?
    ensures IsPlain(Name(k))
  {}

  lemma PlainLimitNames(k: Key)
    requires k.LimitPremiumPerUnit? || k.PlacementSlippageBps?
    ensures IsPlain(Name(k))
  {}

  lemma PlainRedeemNames(k: Key)
    requires k.RedeemMode? || k.MinPremiumPerUnit? || k.ManagerQuoteAtoms?
    ensures IsPlain(Name(k))
  {}

  lemma NameIsPlain(k: Key)
    ensures Name(k) != "" && IsPlain(Name(k))
  {
    if k.Address? || k.AccountId? || k.PredictManagerId? || k.ExpiresMs? {
      PlainIdentityNames(k);
    } else if k.OracleId? || k.MarketExpiryMs? || k.Strike? || k.HigherStrike? {
      PlainMarketNames(k);
    } else if k.IsUp? || k.IsRange? || k.MarginQuoteAtoms? || k.LeverageBps? {
      PlainFlagNames(k);
    } else if k.Quantity? || k.MaxMintCost? || k.MarketSlippageBps? || k.RemintAfterDeleverage? {
      PlainAmountNames(k);
    } else if k.OrderKind? || k.MinPayout? {
      PlainOrderNames(k);
    } else if k.LimitPremiumPerUnit? || k.PlacementSlippageBps? {
      PlainLimitNames(k);
    } else {
      PlainRedeemNames(k);
    }
  }

  // ---- parsing -------------------------------------------------------------

  type Fields = map<string, string>

  /** The line binds a field: it holds '=' and not in first place. */
  predicate Binds(line: string) { 0 < IndexOf(line, '=') < |line| }

  function BoundKey(line: string): string
    requires Binds(line)
  { line[..IndexOf(line, '=')] }

  function BoundValue(line: string): string
    requires Binds(line)
  { line[IndexOf(line, '=') + 1..] }

  /** What the parsing loop collects: lines in order, a later binding over an earlier one. */
  function FieldsOf(lines: seq<string>): Fields {
    if lines == [] then map[]
    else
      var last := lines[|lines| - 1];
      var before := FieldsOf(lines[..|lines| - 1]);
      if Binds(last) then before[BoundKey(last) := BoundValue(last)] else before
  }

  /** `lines[i]` is the last line that binds `key`. */
  ghost predicate LastBinding(lines: seq<string>, i: nat, key: string) {
    && i < |lines|
    && Binds(lines[i]) && BoundKey(lines[i]) == key
    && forall j :: i < j < |lines| && Binds(lines[j]) ==> BoundKey(lines[j]) != key
  }

  /** A field is present exactly when a line binds it, and it holds the value of the last such line. */
  lemma {:induction false} LastBindingWins(lines: seq<string>, key: string)
    ensures key in FieldsOf(lines) <==> exists i: nat :: LastBinding(lines, i, key)
    ensures forall i: nat :: LastBinding(lines, i, key) ==> FieldsOf(lines)[key] == BoundValue(lines[i])
  {
    if lines != [] {
      var n := |lines| - 1;
      var before := lines[..n];
      LastBindingWins(before, key);
      if Binds(lines[n]) && BoundKey(lines[n]) == key {
        assert LastBinding(lines, n, key);
      } else {
        assert forall i: nat :: LastBinding(before, i, key) ==> LastBinding(lines, i, key);
        assert forall i: nat :: LastBinding(lines, i, key) ==> i != n && LastBinding(before, i, key);
      }
    }
  }

  function ParseFields(text: string, expectedPrefix: string): Result<Fields> {
    var lines := Split(text, '\n');
    if lines[0] != expectedPrefix then Err("invalid_message_prefix")
    else Ok(FieldsOf(lines[1..]))
  }

  method ParseKeyValueMessage(text: string, expectedPrefix: string) returns (r: Result<Fields>)
    ensures r == ParseFields(text, expectedPrefix)
  {
    var lines := Split(text, '\n');
    if lines[0] != expectedPrefix {
      return Err("invalid_message_prefix");
    }
    var fields: Fields := map[];
    for i := 1 to |lines|
      invariant fields == FieldsOf(lines[1..i])
    {
      assert lines[1..i + 1][..i - 1] == lines[1..i];
      var eq := IndexOf(lines[i], '=');
      if eq <= 0 || eq == |lines[i]| {
        continue;
      }
      fields := fields[lines[i][..eq] := lines[i][eq + 1..]];
    }
    assert lines[1..|lines|] == lines[1..];
    return Ok(fields);
  }

  // ---- printing ------------------------------------------------------------

  type Bindings = seq<(string, string)>

  function Line(b: (string, string)): string { b.0 + "=" + b.1 }

  function Lines(bindings: Bindings): seq<string> {
    seq(|bindings|, i requires 0 <= i < |bindings| => Line(bindings[i]))
  }

  /** No value holds a line end, every name is plain, no name is printed twice. */
  ghost predicate Printable(bindings: Bindings) {
    && (forall i :: 0 <= i < |bindings| ==>
          bindings[i].0 != "" && IsPlain(bindings[i].0) && '\n' !in bindings[i].1)
    && forall i, j :: 0 <= i < j < |bindings| ==> bindings[i].0 != bindings[j].0
  }

  /** Exactly the printed fields, with the printed values. */
  ghost predicate Carries(fields: Fields, bindings: Bindings) {
    && (forall i :: 0 <= i < |bindings| ==>
          bindings[i].0 in fields && fields[bindings[i].0] == bindings[i].1)
    && forall name :: name in fields ==> exists i :: 0 <= i < |bindings| && bindings[i].0 == name
  }

  lemma LineBinds(b: (string, string))
    requires b.0 != "" && IsPlain(b.0)
    ensures Binds(Line(b)) && BoundKey(Line(b)) == b.0 && BoundValue(Line(b)) == b.1
  {
    var line := Line(b);
    assert line[|b.0|] == '=';
    assert forall j :: 0 <= j < |b.0| ==> line[j] == b.0[j];
  }

  lemma FieldsOfLastLine(bindings: Bindings)
    requires bindings != [] && Printable(bindings)
    ensures var last := bindings[|bindings| - 1];
            FieldsOf(Lines(bindings)) == FieldsOf(Lines(bindings[..|bindings| - 1]))[last.0 := last.1]
  {
    var n := |bindings| - 1;
    assert Lines(bindings)[..n] == Lines(bindings[..n]);
    LineBinds(bindings[n]);
  }

  lemma {:induction false} FieldsOfLines(bindings: Bindings)
    requires Printable(bindings)
    ensures Carries(FieldsOf(Lines(bindings)), bindings)
  {
    if bindings != [] {
      var n := |bindings| - 1;
      var before := bindings[..n];
      FieldsOfLines(before);
      FieldsOfLastLine(bindings);
      CarriesOneMore(FieldsOf(Lines(before)), bindings);
    }
  }

  lemma CarriesOneMore(fields: Fields, bindings: Bindings)
    requires bindings != [] && Printable(bindings)
    requires Carries(fields, bindings[..|bindings| - 1])
    ensures var last := bindings[|bindings| - 1];
            Carries(fields[last.0 := last.1], bindings)
  {
    var n := |bindings| - 1;
    var before := bindings[..n];
    forall name | name in fields ensures exists i :: 0 <= i < |bindings| && bindings[i].0 == name {
      var i :| 0 <= i < n && before[i].0 == name;
      assert bindings[i].0 == name;
    }
    forall i | 0 <= i < n ensures bindings[i].0 in fields && fields[bindings[i].0] == bindings[i].1 {
      assert before[i] == bindings[i];
    }
  }

  /** Parsing a rendered message gives back exactly its fields. */
  lemma ParseBindings(prefix: string, bindings: Bindings)
    requires '\n' !in prefix
    requires Printable(bindings)
    ensures var r := ParseFields(Join([prefix] + Lines(bindings), '\n'), prefix);
            r.Ok? && Carries(r.value, bindings)
  {
    var lines := [prefix] + Lines(bindings);
    forall p | p in lines ensures '\n' !in p {
      if p != prefix {
        var i :| 0 <= i < |bindings| && p == Line(bindings[i]);
      }
    }
    SplitJoin(lines, '\n');
    assert lines[1..] == Lines(bindings);
    FieldsOfLines(bindings);
  }

  type Pairs = seq<(Key, string)>

  function Named(pairs: Pairs): Bindings {
    seq(|pairs|, i requires 0 <= i < |pairs| => (Name(pairs[i].0), pairs[i].1))
  }

  /** `[prefix, ...].join('\n')` */
  function Render(prefix: string, pairs: Pairs): string {
    Join([prefix] + Lines(Named(pairs)), '\n')
  }

  ghost predicate Distinct(pairs: Pairs) {
    forall i, j :: 0 <= i < j < |pairs| ==> pairs[i].0 != pairs[j].0
  }

  ghost predicate Holds(fields: Fields, k: Key, value: string) {
    Name(k) in fields && fields[Name(k)] == value
  }

  /** A rendered message parses, every printed field holds its value, and no other field is present. */
  lemma ParseRendered(prefix: string, pairs: Pairs)
    requires '\n' !in prefix
    requires Distinct(pairs)
    requires forall i :: 0 <= i < |pairs| ==> '\n' !in pairs[i].1
    ensures ParseFields(Render(prefix, pairs), prefix).Ok?
    ensures var fields := ParseFields(Render(prefix, pairs), prefix).value;
            && (forall i :: 0 <= i < |pairs| ==> Holds(fields, pairs[i].0, pairs[i].1))
            && forall k: Key :: Name(k) in fields ==> exists i :: 0 <= i < |pairs| && pairs[i].0 == k
  {
    var named := Named(pairs);
    forall i | 0 <= i < |pairs| ensures named[i].0 != "" && IsPlain(named[i].0) {
      NameIsPlain(pairs[i].0);
    }
    forall i, j | 0 <= i < j < |pairs| ensures named[i].0 != named[j].0 {
      if named[i].0 == named[j].0 { NamesDiffer(pairs[i].0, pairs[j].0); }
    }
    ParseBindings(prefix, named);
    var fields := ParseFields(Render(prefix, pairs), prefix).value;
    forall i | 0 <= i < |pairs| ensures Holds(fields, pairs[i].0, pairs[i].1) {
      assert named[i] == (Name(pairs[i].0), pairs[i].1);
    }
    forall k: Key | Name(k) in fields ensures exists i :: 0 <= i < |pairs| && pairs[i].0 == k {
      var i :| 0 <= i < |named| && named[i].0 == Name(k);
      NamesDiffer(k, pairs[i].0);
    }
  }

  // ---- numbers and single fields -------------------------------------------

  const MAX_SAFE_INTEGER: nat := 0x1F_FFFF_FFFF_FFFF

  /** From here on, JavaScript prints a number with an exponent. */
  const EXPONENT_FROM: nat := 1_000_000_000_000_000_000_000

  /**
   JavaScript's number type beyond the safe integers, for whole numbers that are not negative. `parse` is
   `Number(text)` for texts other than plain decimals of a safe integer (None when the source rejects the outcome),
   `round` is `Number(bigint)`, `show` is `String(number)`; `infinity` stands for Infinity.
   */
  datatype Numerics = Numerics(parse: string -> Option<nat>, round: nat -> nat, show: nat -> string, infinity: nat)

  function NumberOf(js: Numerics, raw: string): Option<nat> {
    if IsDecimal(raw) && ParseNat(raw) <= MAX_SAFE_INTEGER then Some(ParseNat(raw)) else js.parse(raw)
  }

  function FromBigInt(js: Numerics, n: nat): nat {
    if n <= MAX_SAFE_INTEGER then n else js.round(n)
  }

  function NumberText(js: Numerics, n: nat): string {
    if n <= MAX_SAFE_INTEGER then PrintNat(n) else js.show(n)
  }

  /** `n` is the value of a JavaScript number. */
  predicate IsNumber(js: Numerics, n: nat) {
    n <= MAX_SAFE_INTEGER || js.round(n) == n
  }

  predicate IsFinite(js: Numerics, n: nat) { n < js.infinity }

  /** What ECMAScript says of printing and reading a number above the safe integers. */
  ghost predicate PrintsFaithfully(js: Numerics, n: nat) {
    var text := js.show(n);
    && text != "" && '\n' !in text
    && NumberOf(js, text) == (if IsFinite(js, n) then Some(n) else None)
    && (IsDecimal(text) <==> n < EXPONENT_FROM)
    && (n < EXPONENT_FROM ==> FromBigInt(js, ParseNat(text)) == n)
  }

  ghost predicate RoundsFaithfully(js: Numerics, n: nat) {
    var r := js.round(n);
    && MAX_SAFE_INTEGER < r <= js.infinity && js.round(r) == r
    && (EXPONENT_FROM <= n ==> EXPONENT_FROM <= r)
  }

  /** The laws of ECMAScript used below: numbers are what rounding keeps, and printing keeps them. */
  ghost predicate Faithful(js: Numerics) {
    && EXPONENT_FROM <= js.infinity && js.round(EXPONENT_FROM) == EXPONENT_FROM
    && (forall n: nat :: n > MAX_SAFE_INTEGER ==> RoundsFaithfully(js, n))
    && (forall n: nat :: n > MAX_SAFE_INTEGER && IsNumber(js, n) ==> PrintsFaithfully(js, n))
    && (forall text :: NumberOf(js, text).Some? ==>
          IsNumber(js, NumberOf(js, text).value) && IsFinite(js, NumberOf(js, text).value))
  }

  /** Numerics in which every number below 1e21 is exact and all others are infinite. */
  function SampleNumerics(): Numerics {
    Numerics(
      text => if IsDecimal(text) && ParseNat(text) < EXPONENT_FROM then Some(ParseNat(text)) else None,
      (n: nat) => if n < EXPONENT_FROM then n else EXPONENT_FROM,
      (n: nat) => if n < EXPONENT_FROM then PrintNat(n) else "Infinity",
      EXPONENT_FROM)
  }

  lemma SamplePrintsFaithfully(n: nat)
    requires n > MAX_SAFE_INTEGER && IsNumber(SampleNumerics(), n)
    ensures PrintsFaithfully(SampleNumerics(), n)
  {
    ParsePrint(n);
    NotDecimal("Infinity");
    hide IsDecimal, ParseNat, PrintNat;
    assert '\n' !in "Infinity";
    assert SampleNumerics().show(n) == if n < EXPONENT_FROM then PrintNat(n) else "Infinity";
  }

  /** The laws can be met. */
  lemma SampleIsFaithful()
    ensures Faithful(SampleNumerics())
  {
    hide IsDecimal, ParseNat, PrintNat, PrintsFaithfully;
    forall n: nat | n > MAX_SAFE_INTEGER && IsNumber(SampleNumerics(), n)
      ensures PrintsFaithfully(SampleNumerics(), n)
    {
      SamplePrintsFaithfully(n);
    }
  }

  lemma NotDecimal(text: string)
    requires text != "" && !IsDigit(text[0])
    ensures !IsDecimal(text)
  {}

  function Invalid(k: Key): string { "invalid_" + Name(k) }

  function EncodeBool(value: bool): (r: string)
    ensures '\n' !in r
  { if value then "true" else "false" }

  function ParseBool(fields: Fields, k: Key): bool {
    Name(k) in fields && fields[Name(k)] == "true"
  }

  function ParseAddressField(fields: Fields, k: Key): (r: Result<string>)
    ensures r.Ok? ==> IsHexId(r.value)
  {
    if Name(k) in fields && IsHexId(Normalize(fields[Name(k)])) then Ok(Normalize(fields[Name(k)]))
    else Err(Invalid(k))
  }

  function ParseU64Field(fields: Fields, k: Key): Result<nat> {
    if Name(k) in fields && IsDecimal(fields[Name(k)]) then Ok(ParseNat(fields[Name(k)]))
    else Err(Invalid(k))
  }

  function ParseNumberField(js: Numerics, fields: Fields, k: Key): Result<nat> {
    if Name(k) !in fields then Err(Invalid(k))
    else
      match NumberOf(js, fields[Name(k)])
      case Some(n) => Ok(n)
      case None => Err(Invalid(k))
  }

  function ParseOptionalU64(fields: Fields, k: Key): Result<nat> {
    if Name(k) !in fields || fields[Name(k)] == "" then Ok(0) else ParseU64Field(fields, k)
  }

  function ParseOptionalNumber(js: Numerics, fields: Fields, k: Key): Result<nat> {
    if Name(k) !in fields || fields[Name(k)] == "" then Ok(0) else ParseNumberField(js, fields, k)
  }

  /** A printed number reads back as itself, in each of the numeric parsers. */
  lemma ReadNumber(js: Numerics, fields: Fields, k: Key, n: nat)
    requires Holds(fields, k, PrintNat(n))
    ensures ParseU64Field(fields, k) == ParseOptionalU64(fields, k) == Ok(n)
    ensures n <= 9_007_199_254_740_991 ==>
              ParseNumberField(js, fields, k) == ParseOptionalNumber(js, fields, k) == Ok(n)
  {
    ParsePrint(n);
  }

  /** A number reads back while it is finite, in a bigint field while it is printed without an exponent. */
  lemma ReadJsNumber(js: Numerics, fields: Fields, k: Key, n: nat)
    requires Faithful(js) && IsNumber(js, n) && Holds(fields, k, NumberText(js, n))
    ensures ParseNumberField(js, fields, k) == ParseOptionalNumber(js, fields, k)
         == if IsFinite(js, n) then Ok(n) else Err(Invalid(k))
    ensures ParseU64Field(fields, k).Ok? <==> n < EXPONENT_FROM
    ensures n < EXPONENT_FROM ==> FromBigInt(js, ParseU64Field(fields, k).value) == n
  {
    ParsePrint(n);
    assert n > MAX_SAFE_INTEGER ==> PrintsFaithfully(js, n);
  }

  /** Different numbers are printed differently. */
  lemma NumberTextIsInjective(js: Numerics, m: nat, n: nat)
    requires Faithful(js) && IsNumber(js, m) && IsNumber(js, n) && NumberText(js, m) == NumberText(js, n)
    ensures m == n
  {
    ParsePrint(m);
    ParsePrint(n);
    assert m > MAX_SAFE_INTEGER ==> PrintsFaithfully(js, m) && RoundsFaithfully(js, m);
    assert n > MAX_SAFE_INTEGER ==> PrintsFaithfully(js, n) && RoundsFaithfully(js, n);
    assert NumberOf(js, NumberText(js, m)) == NumberOf(js, NumberText(js, n));
  }

  lemma NumberTextIsOneLine(js: Numerics, n: nat)
    requires Faithful(js) && IsNumber(js, n)
    ensures '\n' !in NumberText(js, n)
  {
    assert n > MAX_SAFE_INTEGER ==> PrintsFaithfully(js, n);
  }

  /** Whatever is read into a number field is a finite number. */
  lemma ReadIsNumber(js: Numerics, fields: Fields, k: Key)
    requires Faithful(js)
    ensures ParseNumberField(js, fields, k).Ok? ==>
              IsNumber(js, ParseNumberField(js, fields, k).value) && IsFinite(js, ParseNumberField(js, fields, k).value)
    ensures ParseOptionalNumber(js, fields, k).Ok? ==>
              && IsNumber(js, ParseOptionalNumber(js, fields, k).value)
              && IsFinite(js, ParseOptionalNumber(js, fields, k).value)
    ensures forall n: nat :: IsNumber(js, FromBigInt(js, n))
  {
    forall n: nat ensures IsNumber(js, FromBigInt(js, n)) {
      assert n > MAX_SAFE_INTEGER ==> RoundsFaithfully(js, n);
    }
  }

  /** A printed object id reads back normalised. */
  lemma ReadAddress(fields: Fields, k: Key, id: string)
    requires Holds(fields, k, Normalize(id)) && IsHexId(Normalize(id))
    ensures ParseAddressField(fields, k) == Ok(Normalize(id))
  {
    HexIdIsPlain(Normalize(id));
  }
}
