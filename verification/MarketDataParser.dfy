/** The CSV market-data parser: symbol, bid price, bid size, ask price, ask size, timestamp. */
module MarketDataParser {
  import opened Messages
  import opened Text

  datatype ParseStatus = ParseOk | EmptyInput | WrongFieldCount | InvalidNumber | InvalidMarket

  datatype ParseResult = ParseResult(status: ParseStatus, update: MarketDataUpdate)

  const EXPECTED_FIELD_COUNT := 6

  const LIMIT32 := 0x1_0000_0000
  const LIMIT64 := 0x1_0000_0000_0000_0000

  /** The platform's decimal-to-double conversion of a whole field; None when it does not consume it all. */
  type PriceCodec = string -> Option<Price>

  const NO_UPDATE := MarketDataUpdate("", ZERO, 0, ZERO, 0, 0)

  // ---------- fields ----------

  function ParseDouble(codec: PriceCodec, value: string): Option<Price>
  {
    if value == "" then None else codec(value)
  }

  /** std::from_chars must succeed and consume the whole field. */
  function ParseUnsigned(value: string, limit: nat): (r: Option<nat>)
    ensures r.Some? ==> r.value < limit
  {
    if value == "" then None
    else
      var parsed := FromCharsUnsigned(value, limit);
      if parsed.error == NoError && parsed.consumed == |value| then Some(parsed.value) else None
  }

  /** A field is a number exactly when it is a non-empty digit string whose value fits. */
  lemma UnsignedExactly(value: string, limit: nat)
    ensures ParseUnsigned(value, limit)
            == if value != "" && AllDigits(value) && DecimalValue(value) < limit
               then Some(DecimalValue(value)) else None
  {
    var n := DigitPrefix(value);
    if n == |value| {
      assert value[..n] == value;
    }
  }

  /** Removes one carriage return at the end, and nothing else. */
  function StripTrailingCarriageReturn(line: string): (stripped: string)
    ensures line == stripped || line == stripped + "\r"
    ensures line == stripped <==> line == "" || line[|line| - 1] != '\r'
  {
    if line != "" && line[|line| - 1] == '\r' then line[..|line| - 1] else line
  }

  // ---------- splitting ----------

  /** std::string_view::find: the first position at or after `start` that holds c, or |s|. */
  function FindFrom(s: string, c: char, start: nat): (p: nat)
    requires start <= |s|
    ensures start <= p <= |s|
    ensures c !in s[start..p]
    ensures p < |s| ==> s[p] == c
    decreases |s| - start
  {
    if start == |s| || s[start] == c then start
    else
      var p := FindFrom(s, c, start + 1);
      assert s[start..p] == [s[start]] + s[start + 1..p];
      p
  }

  lemma NextPiece(line: string, start: nat, comma: nat)
    requires start <= comma <= |line| && ',' !in line[start..comma]
    requires comma < |line| ==> line[comma] == ','
    ensures Split(line[start..], ',')
            == if comma == |line| then [line[start..]] else [line[start..comma]] + Split(line[comma + 1..], ',')
  {
    if comma == |line| {
      assert line[start..] == line[start..comma];
      SplitOfFree(line[start..], ',');
    } else {
      assert line[start..] == line[start..comma] + [','] + line[comma + 1..];
      SplitAtFirst(line[start..comma], line[comma + 1..], ',');
    }
  }

  lemma Reassociate(found: seq<string>, piece: string, rest: seq<string>)
    ensures found + ([piece] + rest) == found + [piece] + rest
  {
  }

  /** Succeeds exactly on lines with five commas, and then delivers the six pieces between them. */
  method SplitCsvLine(line: string, fields: array?<string>) returns (ok: bool)
    requires fields != null ==> fields.Length == EXPECTED_FIELD_COUNT
    modifies fields
    ensures ok <==> fields != null && Occurrences(line, ',') == EXPECTED_FIELD_COUNT - 1
    ensures ok ==> fields[..] == Split(line, ',')
  {
    hide Split, Occurrences, Join, FindFrom;
    if fields == null {
      return false;
    }
    JoinOfSplit(line, ',');
    var fieldIndex, start := 0, 0;
    assert line[0..] == line;
    while true
      invariant fieldIndex <= EXPECTED_FIELD_COUNT && start <= |line|
      invariant Split(line, ',') == fields[..fieldIndex] + Split(line[start..], ',')
      decreases |line| - start
    {
      if fieldIndex >= EXPECTED_FIELD_COUNT {
        return false;
      }
      ghost var found := fields[..fieldIndex];
      var comma := FindFrom(line, ',', start);
      NextPiece(line, start, comma);
      if comma == |line| {
        fields[fieldIndex] := line[start..];
        fieldIndex := fieldIndex + 1;
        assert fields[..fieldIndex] == found + [line[start..]];
        break;
      }
      fields[fieldIndex] := line[start..comma];
      fieldIndex := fieldIndex + 1;
      assert fields[..fieldIndex] == found + [line[start..comma]];
      Reassociate(found, line[start..comma], Split(line[comma + 1..], ','));
      start := comma + 1;
    }
    ok := fieldIndex == EXPECTED_FIELD_COUNT;
    assert fields[..fieldIndex] == Split(line, ',');
  }

  // ---------- whole lines ----------

  /** The market condition, with the unordered comparisons of binary64. */
  predicate InvalidQuote(u: MarketDataUpdate)
  {
    AtMost(u.bidPrice, ZERO) || AtMost(u.askPrice, ZERO) || Above(u.bidPrice, u.askPrice)
    || u.bidSize == 0 || u.askSize == 0
  }

  function ParseFields(codec: PriceCodec, fields: seq<string>): ParseResult
    requires |fields| == EXPECTED_FIELD_COUNT
  {
    var bid, bidSize := ParseDouble(codec, fields[1]), ParseUnsigned(fields[2], LIMIT32);
    var ask, askSize := ParseDouble(codec, fields[3]), ParseUnsigned(fields[4], LIMIT32);
    var time := ParseUnsigned(fields[5], LIMIT64);
    if fields[0] == "" then ParseResult(WrongFieldCount, NO_UPDATE)
    else if bid.None? || bidSize.None? || ask.None? || askSize.None? || time.None? then
      ParseResult(InvalidNumber, NO_UPDATE)
    else
      var update := MarketDataUpdate(fields[0], bid.value, bidSize.value, ask.value, askSize.value, time.value);
      if InvalidQuote(update) then ParseResult(InvalidMarket, NO_UPDATE) else ParseResult(ParseOk, update)
  }

  /** The result as a function of the line alone. */
  function ParsedLine(codec: PriceCodec, line: string): ParseResult
  {
    var stripped := StripTrailingCarriageReturn(line);
    var fields := Split(stripped, ',');
    if stripped == "" then ParseResult(EmptyInput, NO_UPDATE)
    else if |fields| != EXPECTED_FIELD_COUNT then ParseResult(WrongFieldCount, NO_UPDATE)
    else ParseFields(codec, fields)
  }

  method ParseMarketDataLine(codec: PriceCodec, line: string) returns (result: ParseResult)
    ensures result == ParsedLine(codec, line)
  {
    var stripped := StripTrailingCarriageReturn(line);
    if stripped == "" {
      return ParseResult(EmptyInput, NO_UPDATE);
    }
    var fields := new string[EXPECTED_FIELD_COUNT](_ => "");
    var split := SplitCsvLine(stripped, fields);
    JoinOfSplit(stripped, ',');
    if !split {
      return ParseResult(WrongFieldCount, NO_UPDATE);
    }
    if fields[0] == "" {
      return ParseResult(WrongFieldCount, NO_UPDATE);
    }
    var bidPrice := ParseDouble(codec, fields[1]);
    if bidPrice.None? {
      return ParseResult(InvalidNumber, NO_UPDATE);
    }
    var bidSize := ParseUnsigned(fields[2], LIMIT32);
    if bidSize.None? {
      return ParseResult(InvalidNumber, NO_UPDATE);
    }
    var askPrice := ParseDouble(codec, fields[3]);
    if askPrice.None? {
      return ParseResult(InvalidNumber, NO_UPDATE);
    }
    var askSize := ParseUnsigned(fields[4], LIMIT32);
    if askSize.None? {
      return ParseResult(InvalidNumber, NO_UPDATE);
    }
    var time := ParseUnsigned(fields[5], LIMIT64);
    if time.None? {
      return ParseResult(InvalidNumber, NO_UPDATE);
    }
    var update := MarketDataUpdate(fields[0], bidPrice.value, bidSize.value, askPrice.value, askSize.value, time.value);
    if AtMost(update.bidPrice, ZERO) || AtMost(update.askPrice, ZERO) || Above(update.bidPrice, update.askPrice)
       || update.bidSize == 0 || update.askSize == 0 {
      return ParseResult(InvalidMarket, NO_UPDATE);
    }
    result := ParseResult(ParseOk, update);
  }

  // ---------- printing and reading back ----------

  function FieldsOf(priceText: Price -> string, u: MarketDataUpdate): (fields: seq<string>)
    ensures |fields| == EXPECTED_FIELD_COUNT
  {
    [u.symbol, priceText(u.bidPrice), Decimal(u.bidSize), priceText(u.askPrice), Decimal(u.askSize),
     Decimal(u.exchangeTsNs)]
  }

  function PrintUpdate(priceText: Price -> string, u: MarketDataUpdate): string
  {
    Join(FieldsOf(priceText, u), ',')
  }

  /** The price text is non-empty, holds no comma and reads back as the price. */
  predicate RoundTrips(codec: PriceCodec, priceText: Price -> string, p: Price)
  {
    priceText(p) != "" && ',' !in priceText(p) && codec(priceText(p)) == Some(p)
  }

  lemma DigitsHaveNoComma(s: string)
    requires AllDigits(s)
    ensures ',' !in s && '\r' !in s
  {
  }

  lemma DecimalField(n: nat, limit: nat)
    requires n < limit
    ensures ParseUnsigned(Decimal(n), limit) == Some(n)
    ensures ',' !in Decimal(n) && '\r' !in Decimal(n)
  {
    DecimalRoundTrip(n);
    UnsignedExactly(Decimal(n), limit);
    DigitsHaveNoComma(Decimal(n));
  }

  /** Every update the parser could deliver is recovered from its printed line, with or without one
      trailing carriage return. */
  lemma ParseInvertsPrint(codec: PriceCodec, priceText: Price -> string, u: MarketDataUpdate)
    requires u.symbol != "" && ',' !in u.symbol && !InvalidQuote(u)
    requires RoundTrips(codec, priceText, u.bidPrice) && RoundTrips(codec, priceText, u.askPrice)
    ensures ParsedLine(codec, PrintUpdate(priceText, u)) == ParseResult(ParseOk, u)
    ensures ParsedLine(codec, PrintUpdate(priceText, u) + "\r") == ParseResult(ParseOk, u)
  {
    var fields := FieldsOf(priceText, u);
    var line := PrintUpdate(priceText, u);
    DecimalField(u.bidSize, LIMIT32);
    DecimalField(u.askSize, LIMIT32);
    DecimalField(u.exchangeTsNs, LIMIT64);
    SplitOfJoin(fields, ',');
    JoinEndsInLast(fields, ',');
    assert StripTrailingCarriageReturn(line) == line;
    assert StripTrailingCarriageReturn(line + "\r") == line;
  }

  lemma {:induction false} JoinEndsInLast(pieces: seq<string>, c: char)
    requires |pieces| >= 1 && pieces[|pieces| - 1] != ""
    ensures var s, last := Join(pieces, c), pieces[|pieces| - 1];
            |s| >= |last| && s[|s| - 1] == last[|last| - 1]
  {
    if |pieces| > 1 {
      JoinEndsInLast(pieces[1..], c);
    }
  }

  predicate IsNumber(field: string, limit: nat)
  {
    field != "" && AllDigits(field) && DecimalValue(field) < limit
  }

  predicate IsPrice(codec: PriceCodec, field: string)
  {
    field != "" && codec(field).Some?
  }

  predicate AllNumeric(codec: PriceCodec, fields: seq<string>)
    requires |fields| == EXPECTED_FIELD_COUNT
  {
    && IsPrice(codec, fields[1]) && IsNumber(fields[2], LIMIT32)
    && IsPrice(codec, fields[3]) && IsNumber(fields[4], LIMIT32)
    && IsNumber(fields[5], LIMIT64)
  }

  /** The update that six numeric fields spell. */
  function Spelled(codec: PriceCodec, fields: seq<string>): MarketDataUpdate
    requires |fields| == EXPECTED_FIELD_COUNT && AllNumeric(codec, fields)
  {
    MarketDataUpdate(fields[0], codec(fields[1]).value, DecimalValue(fields[2]),
                     codec(fields[3]).value, DecimalValue(fields[4]), DecimalValue(fields[5]))
  }

  /** Exactly when each status is reported, and with what update a line is accepted. */
  lemma StatusExplained(codec: PriceCodec, line: string)
    ensures var stripped := StripTrailingCarriageReturn(line);
            var fields := Split(stripped, ',');
            var result := ParsedLine(codec, line);
            && (result.status == EmptyInput <==> stripped == "")
            && (result.status == WrongFieldCount
                <==> stripped != "" && (Occurrences(stripped, ',') != EXPECTED_FIELD_COUNT - 1 || fields[0] == ""))
            && (result.status in {InvalidNumber, InvalidMarket, ParseOk} ==> |fields| == EXPECTED_FIELD_COUNT)
            && (result.status == InvalidNumber
                <==> |fields| == EXPECTED_FIELD_COUNT && fields[0] != "" && !AllNumeric(codec, fields))
            && (result.status == InvalidMarket
                <==> |fields| == EXPECTED_FIELD_COUNT && fields[0] != "" && AllNumeric(codec, fields)
                     && InvalidQuote(Spelled(codec, fields)))
            && (result.status == ParseOk
                <==> |fields| == EXPECTED_FIELD_COUNT && fields[0] != "" && AllNumeric(codec, fields)
                     && !InvalidQuote(Spelled(codec, fields)))
            && result.update == if result.status == ParseOk then Spelled(codec, fields) else NO_UPDATE
  {
    hide Split, Occurrences, Join, FromCharsUnsigned;
    var stripped := StripTrailingCarriageReturn(line);
    var fields := Split(stripped, ',');
    JoinOfSplit(stripped, ',');
    if |fields| == EXPECTED_FIELD_COUNT {
      UnsignedExactly(fields[2], LIMIT32);
      UnsignedExactly(fields[4], LIMIT32);
      UnsignedExactly(fields[5], LIMIT64);
    }
    assert stripped == "" ==> fields == [""] by {
      SplitOfFree("", ',');
    }
  }

  /** Joining the pieces of an accepted line gives the line back, and its symbol holds no comma. */
  lemma AcceptedLine(codec: PriceCodec, line: string)
    requires ParsedLine(codec, line).status == ParseOk
    ensures var u := ParsedLine(codec, line).update;
            var fields := Split(StripTrailingCarriageReturn(line), ',');
            && |fields| == EXPECTED_FIELD_COUNT && AllNumeric(codec, fields)
            && Join(fields, ',') == StripTrailingCarriageReturn(line)
            && u == Spelled(codec, fields)
            && u.symbol != "" && ',' !in u.symbol && !InvalidQuote(u)
  {
    StatusExplained(codec, line);
    JoinOfSplit(StripTrailingCarriageReturn(line), ',');
  }

  // ---------- finiteness ----------

  predicate HasFinitePrices(u: MarketDataUpdate)
  {
    u.bidPrice.Finite? && u.askPrice.Finite?
  }

  /** The pairs of prices, not both finite, in which no comparison finds a fault. */
  predicate SlipsThrough(bid: Price, ask: Price)
  {
    || (bid.NaN? && (ask.NaN? || ask.PosInf? || Positive(ask)))
    || (ask.NaN? && (bid.PosInf? || Positive(bid)))
    || (ask.PosInf? && (bid.PosInf? || Positive(bid)))
  }

  /** Both prices finite, positive and in order. */
  predicate Ordered(bid: Price, ask: Price)
  {
    bid.Finite? && ask.Finite? && 0.0 < bid.value <= ask.value
  }

  /** Which lines are accepted: six fields, a symbol, numbers everywhere, positive sizes, and prices that are
      in order or slip through. */
  lemma AcceptedIff(codec: PriceCodec, line: string)
    ensures var fields := Split(StripTrailingCarriageReturn(line), ',');
            ParsedLine(codec, line).status == ParseOk
            <==> && |fields| == EXPECTED_FIELD_COUNT && fields[0] != "" && AllNumeric(codec, fields)
                 && DecimalValue(fields[2]) > 0 && DecimalValue(fields[4]) > 0
                 && var bid, ask := codec(fields[1]).value, codec(fields[3]).value;
                    Ordered(bid, ask) || SlipsThrough(bid, ask)
  {
    hide Split, ParsedLine, StripTrailingCarriageReturn;
    StatusExplained(codec, line);
  }

  /** The market check compares with `<=` and `>` only. Exactly these lines are accepted although a price
      is not finite; on an accepted line that means a NaN, or an ask of positive infinity. */
  lemma NonFiniteIsAcceptedIff(codec: PriceCodec, line: string)
    ensures var fields, result := Split(StripTrailingCarriageReturn(line), ','), ParsedLine(codec, line);
            && (result.status == ParseOk && !HasFinitePrices(result.update)
                <==> && |fields| == EXPECTED_FIELD_COUNT && fields[0] != "" && AllNumeric(codec, fields)
                     && DecimalValue(fields[2]) > 0 && DecimalValue(fields[4]) > 0
                     && SlipsThrough(codec(fields[1]).value, codec(fields[3]).value))
            && (result.status == ParseOk ==>
                  (!HasFinitePrices(result.update)
                   <==> result.update.bidPrice.NaN? || result.update.askPrice.NaN? || result.update.askPrice.PosInf?))
  {
    hide Split, ParsedLine, StripTrailingCarriageReturn;
    StatusExplained(codec, line);
  }

  /** The documented promise: an accepted update carries finite prices. */
  ghost predicate AcceptsOnlyFinite(codec: PriceCodec)
  {
    forall line :: ParsedLine(codec, line).status == ParseOk ==> HasFinitePrices(ParsedLine(codec, line).update)
  }

  /** Whether some text between commas reads as infinity or as not-a-number. */
  ghost predicate ReadsNonFinite(codec: PriceCodec)
  {
    exists field: string :: field != "" && ',' !in field && codec(field) in {Some(PosInf), Some(NaN)}
  }

  function WitnessLine(field: string): string
  {
    Join(["A", field, "1", field, "1", "1"], ',')
  }

  lemma WitnessIsAccepted(codec: PriceCodec, field: string)
    requires field != "" && ',' !in field && codec(field) in {Some(PosInf), Some(NaN)}
    ensures ParsedLine(codec, WitnessLine(field))
            == ParseResult(ParseOk, MarketDataUpdate("A", codec(field).value, 1, codec(field).value, 1, 1))
  {
    hide Split, Join, ParsedLine;
    var fields := ["A", field, "1", field, "1", "1"];
    SplitOfJoin(fields, ',');
    JoinEndsInLast(fields, ',');
    assert AllDigits("1") && DecimalValue("1") == 1;
    StatusExplained(codec, WitnessLine(field));
  }

  /** So the promise holds for every line exactly when the number conversion never yields positive infinity
      or NaN. */
  lemma FinitePromiseIffCodecIsFinite(codec: PriceCodec)
    ensures AcceptsOnlyFinite(codec) <==> !ReadsNonFinite(codec)
  {
    if ReadsNonFinite(codec) {
      var field: string :| field != "" && ',' !in field && codec(field) in {Some(PosInf), Some(NaN)};
      WitnessIsAccepted(codec, field);
      assert ParsedLine(codec, WitnessLine(field)).status == ParseOk;
    } else {
      forall line | ParsedLine(codec, line).status == ParseOk
        ensures HasFinitePrices(ParsedLine(codec, line).update)
      {
        NonFiniteIsAcceptedIff(codec, line);
        AcceptedLine(codec, line);
        var fields := Split(StripTrailingCarriageReturn(line), ',');
        JoinOfSplit(StripTrailingCarriageReturn(line), ',');
        assert ',' !in fields[1] && ',' !in fields[3];
        assert fields[1] != "" && fields[3] != "";
      }
    }
  }
}
