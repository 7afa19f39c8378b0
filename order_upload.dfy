/** `order_upload` and the import `handler`: the per-cell cleaning of numeric columns, the elapsed
    time text, the time-of-day branch, the one status line each call appends to `error_list`, the
    conditional write-back of the lookup tabs, and the per-record loop, which always uploads to one
    fixed client. */
module OrderUpload {
  import opened Wrappers
  import opened Text
  import opened Registry
  import opened WriteBack
  import opened Dispatch

  // ---------------------------------------------------------------------------------------------
  // Per-cell cleaning of the numeric order columns

  /** An order cell after reading: a string, or `NaN`. */
  datatype Cell = Missing | Str(s: string)

  /** `replace("", np.NaN)`: exactly the empty string becomes `NaN`. */
  function BlankToMissing(c: Cell): Cell {
    if c == Str("") then Missing else c
  }

  /** `s.replace(ch, '')`: every occurrence of `ch` removed. */
  function RemoveChar(s: string, ch: char): (r: string)
    ensures ch !in r
    ensures |r| <= |s|
  {
    if s == [] then [] else (if s[0] == ch then [] else [s[0]]) + RemoveChar(s[1..], ch)
  }

  /** `x.replace(',', '').replace("$", "")`. */
  function StripNumber(s: string): string {
    RemoveChar(RemoveChar(s, ','), '$')
  }

  /** A reference for the two replacements: one pass keeping, in order, every character that is
      neither a comma nor a dollar sign. */
  function WithoutSeparators(s: string): (r: string)
    ensures ',' !in r && '$' !in r
  {
    if s == [] then []
    else (if s[0] == ',' || s[0] == '$' then [] else [s[0]]) + WithoutSeparators(s[1..])
  }

  lemma {:induction false} RemoveCharAppend(a: string, b: string, ch: char)
    ensures RemoveChar(a + b, ch) == RemoveChar(a, ch) + RemoveChar(b, ch)
  {
    if a != [] {
      assert (a + b)[1..] == a[1..] + b;
      RemoveCharAppend(a[1..], b, ch);
    } else {
      assert a + b == b;
    }
  }

  /** The two replacements remove exactly the commas and dollar signs and keep everything else in
      order; the result contains neither character. */
  lemma {:induction false} StripNumberKeepsOthers(s: string)
    ensures StripNumber(s) == WithoutSeparators(s)
    ensures ',' !in StripNumber(s) && '$' !in StripNumber(s)
  {
    if s != [] {
      StripNumberKeepsOthers(s[1..]);
      var head := if s[0] == ',' then [] else [s[0]];
      RemoveCharAppend(head, RemoveChar(s[1..], ','), '$');
    }
  }

  lemma {:induction false} RemoveAbsent(s: string, ch: char)
    requires ch !in s
    ensures RemoveChar(s, ch) == s
  {
    if s != [] {
      RemoveAbsent(s[1..], ch);
    }
  }

  /** Stripping twice is stripping once. */
  lemma StripNumberIdempotent(s: string)
    ensures StripNumber(StripNumber(s)) == StripNumber(s)
  {
    var t := StripNumber(s);
    StripNumberKeepsOthers(s);
    RemoveAbsent(t, ',');
    RemoveAbsent(t, '$');
  }

  /** The column lambda: a string is stripped, anything else (`NaN`) stays `NaN`. */
  function CleanNumeric(c: Cell): Cell {
    match c
    case Str(s) => Str(StripNumber(s))
    case Missing => Missing
  }

  /** What happens to one cell of a numeric order column: blank to `NaN`, then the lambda. */
  function CleanCell(c: Cell): Cell {
    CleanNumeric(BlankToMissing(c))
  }

  /** A blank cell becomes `NaN`; any other string is stripped of its commas and dollar signs; the
      per-column lambda is idempotent. A cleaned string may itself be "" (for "$"), and cleaning that
      again gives `NaN`, so the whole per-cell step is not idempotent. */
  lemma CleanCellCases(c: Cell)
    ensures CleanCell(Str("")) == Missing
    ensures c.Str? && c.s != "" ==> CleanCell(c) == Str(WithoutSeparators(c.s))
    ensures CleanCell(c).Str? ==> ',' !in CleanCell(c).s && '$' !in CleanCell(c).s
    ensures CleanNumeric(CleanNumeric(c)) == CleanNumeric(c)
    ensures CleanCell(Str("$")) == Str("") && CleanCell(CleanCell(Str("$"))) == Missing
  {
    if c.Str? {
      StripNumberKeepsOthers(c.s);
      StripNumberIdempotent(c.s);
    }
    assert RemoveChar("$", ',') == "$";
    assert RemoveChar("$", '$') == "";
  }

  // ---------------------------------------------------------------------------------------------
  // Elapsed time text

  /** A one-character seconds string gets a leading "0"; longer ones are kept. */
  function PadSeconds(seconds: string): string {
    if |seconds| == 1 then "0" + seconds else seconds
  }

  /** `minutes + ":"` followed by the padded seconds. */
  function TotalTime(minutes: string, seconds: string): string {
    minutes + ":" + PadSeconds(seconds)
  }

  /** The seconds of any whole count below a minute render as exactly two digits that read back as
      that count. */
  lemma PaddedSeconds(n: nat)
    requires n < 60
    ensures |PadSeconds(NatToString(n))| == 2 && IsDigits(PadSeconds(NatToString(n)))
    ensures DigitsValue(PadSeconds(NatToString(n))) == n
  {
    var p := PadSeconds(NatToString(n));
    if n < 10 {
      assert p == "0" + [Digit(n)];
      assert p[..1] == "0";
      assert DigitsValue("0") == 0 by { assert "0"[..0] == []; }
    } else {
      assert NatToString(n) == NatToString(n / 10) + [Digit(n % 10)];
      DigitsValueOfNatToString(n);
    }
  }

  /** Python's `round` of `num / den` to a whole number: nearest, ties to the even neighbour. */
  function RoundHalfEven(num: nat, den: nat): nat
    requires den > 0
  {
    var q, r := num / den, num % den;
    if 2 * r > den then q + 1
    else if 2 * r < den then q
    else if q % 2 == 0 then q else q + 1
  }

  /** The elapsed time text as written, for `e` whole seconds: minutes are `round(e / 60)`. */
  function ElapsedAsWritten(e: nat): string {
    TotalTime(NatToString(RoundHalfEven(e, 60)), NatToString(e % 60))
  }

  /** The elapsed time text with whole minutes, `e // 60`. */
  function Elapsed(e: nat): string {
    TotalTime(NatToString(e / 60), NatToString(e % 60))
  }

  /** The number of seconds an "M:SS" text denotes. */
  function ClockSeconds(t: string): Option<nat> {
    if |t| >= 4 && t[|t| - 3] == ':' && IsDigits(t[..|t| - 3]) && IsDigits(t[|t| - 2..])
    then Some(60 * DigitsValue(t[..|t| - 3]) + DigitsValue(t[|t| - 2..]))
    else None
  }

  /** The corrected text reads back as the elapsed time. */
  lemma ElapsedRoundTrip(e: nat)
    ensures ClockSeconds(Elapsed(e)) == Some(e)
  {
    var m, p := NatToString(e / 60), PadSeconds(NatToString(e % 60));
    PaddedSeconds(e % 60);
    DigitsValueOfNatToString(e / 60);
    ClockSecondsOf(m, p);
  }

  lemma ClockSecondsOf(m: string, p: string)
    requires |m| >= 1 && IsDigits(m) && |p| == 2 && IsDigits(p)
    ensures ClockSeconds(m + ":" + p) == Some(60 * DigitsValue(m) + DigitsValue(p))
  {
    var t := m + ":" + p;
    assert t[..|t| - 3] == m;
    assert t[|t| - 2..] == p;
  }

  /** As written, 45 seconds is reported as "1:45", which reads as 105 seconds. */
  lemma ElapsedAsWrittenOverstates()
    ensures ElapsedAsWritten(45) == "1:45"
    ensures ClockSeconds(ElapsedAsWritten(45)) == Some(105)
  {
    assert NatToString(45) == NatToString(4) + [Digit(5)];
    assert NatToString(1) == "1";
    var t := ElapsedAsWritten(45);
    assert t[..1] == "1";
    assert t[2..] == "45";
    assert DigitsValue("1") == 1 by { assert "1"[..0] == []; }
    assert DigitsValue("45") == 45 by { assert "45"[..1] == "4"; assert "4"[..0] == []; }
  }

  // ---------------------------------------------------------------------------------------------
  // Branch selection

  /** The three ways out of the `if`/`elif` on the hour. */
  datatype Branch = FullReload | DaytimeReload | NoReload

  /** `if hour < 100: ... elif hour < 20 and active_client == True: ...`. */
  function SelectBranch(hour: int, activeClient: bool): Branch {
    if hour < 100 then FullReload
    else if hour < 20 && activeClient then DaytimeReload
    else NoReload
  }

  /** Every clock hour takes the first branch. */
  lemma ClockHourSelectsFullReload(hour: int, activeClient: bool)
    requires 0 <= hour <= 23
    ensures SelectBranch(hour, activeClient) == FullReload
  {
  }

  /** The `elif` branch is unreachable for every hour and every client flag. */
  lemma DaytimeReloadUnreachable(hour: int, activeClient: bool)
    ensures SelectBranch(hour, activeClient) != DaytimeReload
  {
  }

  // ---------------------------------------------------------------------------------------------
  // Status lines

  /** What the extract-transform-load steps of a branch come to: the promo code rows and the rows
      missing a vendor id, or the text of the exception one of the steps raised. */
  datatype EtlOutcome = Loaded(promoCodes: nat, missingVendorIds: nat) | Raised(error: string)

  /** What one call meets: the clock hour, the outcome of its load steps, and what the
      recommendation step returns when the client asks for it. */
  datatype Call = Call(hour: int, etl: EtlOutcome, recommendation: Result<nat, string>)

  function SuccessLine(tableName: string, missingNumber: string, missingVendorId: string,
                       totalNumber: string, orderUrl: string): string
  {
    tableName + " completed successfully \n " + "Number of New Promo Codes: " + missingNumber + "\n"
      + "Number of Missing Vendor ID's: " + missingVendorId + " out of " + totalNumber + "\n" + orderUrl
  }

  function ErrorLine(tableName: string, error: string, orderUrl: string): string {
    tableName + " has errored: " + error + "\n" + orderUrl
  }

  /** The call gets past every step that can raise. */
  predicate Reached(target: ClientConfig, call: Call) {
    call.etl.Loaded? && (!target.recomendation || call.recommendation.Ok?)
  }

  /** The line a reload branch appends to `error_list`. */
  function Status(target: ClientConfig, call: Call): string {
    match call.etl
    case Raised(e) => ErrorLine(target.tableName, e, target.orderUrl)
    case Loaded(promo, missing) =>
      if !target.recomendation then
        SuccessLine(target.tableName, "recomendations needed", NatToString(missing), NatToString(promo), target.orderUrl)
      else
        match call.recommendation
        case Err(e) => ErrorLine(target.tableName, e, target.orderUrl)
        case Ok(added) =>
          SuccessLine(target.tableName, NatToString(added), NatToString(missing + added),
                      NatToString(promo + added), target.orderUrl)
  }

  predicate StartsWith(s: string, prefix: string) {
    |prefix| <= |s| && s[..|prefix|] == prefix
  }

  /** A status line starts with "<table> completed successfully" exactly when the call got past
      every step that can raise, and with "<table> has errored: " followed by the exception's text
      otherwise; every line ends with the sheet's URL. */
  lemma StatusReportsOutcome(target: ClientConfig, call: Call)
    ensures StartsWith(Status(target, call), target.tableName + " completed successfully") <==> Reached(target, call)
    ensures !Reached(target, call) ==> StartsWith(Status(target, call), target.tableName + " has errored: ")
    ensures call.etl.Raised? ==> Status(target, call) == ErrorLine(target.tableName, call.etl.error, target.orderUrl)
    ensures |target.orderUrl| <= |Status(target, call)|
    ensures Status(target, call)[|Status(target, call)| - |target.orderUrl|..] == target.orderUrl
  {
    var t := target.tableName;
    var s := Status(target, call);
    var ok := t + " completed successfully";
    if Reached(target, call) {
      assert s[..|ok|] == ok;
    } else {
      var bad := t + " has errored: ";
      assert s[..|bad|] == bad;
      assert s[|t| + 1] == 'h' != ok[|t| + 1];
    }
  }

  // ---------------------------------------------------------------------------------------------
  // The importer

  /** The upload target the handler uses for every record. */
  const FIXED_TARGET := ClientConfig(
    "https://docs.google.com/spreadsheets/d/1hM6lPySowvOrnbKgQWtJrFjUFw0zkVcldWdZM9ghxLk/edit#gid=2096436519",
    true, "fitbod", "Fitbod", "client_order_data", false)

  /** The lines the record loop appends for `calls` against `target`, one per call, in order. */
  function UploadLines(target: ClientConfig, calls: seq<Call>): seq<string>
  {
    if calls == [] then [] else UploadLines(target, calls[..|calls| - 1]) + [Status(target, calls[|calls| - 1])]
  }

  /** One line per call, and the `k`-th line is the status of the `k`-th call against the target. */
  lemma {:induction false} UploadLinesAt(target: ClientConfig, calls: seq<Call>)
    ensures |UploadLines(target, calls)| == |calls|
    ensures forall k :: 0 <= k < |calls| ==> UploadLines(target, calls)[k] == Status(target, calls[k])
  {
    if calls != [] {
      var n := |calls| - 1;
      UploadLinesAt(target, calls[..n]);
      assert forall k :: 0 <= k < n ==> calls[..n][k] == calls[k];
    }
  }

  /** Some call among `calls` got past every step that can raise. */
  predicate AnyReached(target: ClientConfig, calls: seq<Call>) {
    calls != [] && (AnyReached(target, calls[..|calls| - 1]) || Reached(target, calls[|calls| - 1]))
  }

  /** `AnyReached` holds exactly when some call of the sequence gets past every step that can raise. */
  lemma {:induction false} AnyReachedSome(target: ClientConfig, calls: seq<Call>)
    ensures AnyReached(target, calls) <==> exists k :: 0 <= k < |calls| && Reached(target, calls[k])
  {
    if calls != [] {
      var n := |calls| - 1;
      AnyReachedSome(target, calls[..n]);
      assert forall k :: 0 <= k < n ==> calls[..n][k] == calls[k];
    }
  }

  /** One more call appends its status line, also after whatever `error_list` held before. */
  lemma AppendCall(prior: seq<string>, target: ClientConfig, calls: seq<Call>, i: nat)
    requires i < |calls|
    ensures UploadLines(target, calls[..i + 1]) == UploadLines(target, calls[..i]) + [Status(target, calls[i])]
    ensures prior + UploadLines(target, calls[..i + 1]) == (prior + UploadLines(target, calls[..i])) + [Status(target, calls[i])]
    ensures AnyReached(target, calls[..i + 1]) == (AnyReached(target, calls[..i]) || Reached(target, calls[i]))
  {
    assert calls[..i + 1][..i] == calls[..i];
  }

  /** The number of leading records whose three attributes are all present. */
  function ReadablePrefix(records: seq<Message>): (n: nat)
    ensures n <= |records|
    ensures forall k :: 0 <= k < n ==> ReadAttributes(records[k]).Some?
    ensures n < |records| ==> ReadAttributes(records[n]).None?
  {
    if records == [] || ReadAttributes(records[0]).None? then 0
    else
      var n := 1 + ReadablePrefix(records[1..]);
      assert forall k :: 1 <= k < n ==> records[k] == records[1..][k - 1];
      n
  }

  /** The import side: the shared lookup tables and the status log. */
  class Importer {
    const tables: LookupTables
    var errorList: seq<string>

    ghost predicate Valid()
      reads tables
    {
      tables.Valid()
    }

    constructor (tables: LookupTables)
      requires tables.Valid()
      ensures Valid() && this.tables == tables && errorList == []
    {
      this.tables := tables;
      errorList := [];
    }

    /** The two write-backs: each lookup tab whose table has rows gets that table's flattened list. */
    method WriteBackTabs(marketInfo: Worksheet, localRadio: Worksheet)
      requires Valid() && marketInfo != localRadio
      modifies marketInfo, localRadio
      ensures marketInfo.contents == if |tables.nonLocalRadioIds| > 0 then tables.dfAsList2 else old(marketInfo.contents)
      ensures localRadio.contents == if |tables.localRadioIds| > 0 then tables.dfAsList else old(localRadio.contents)
    {
      if |tables.nonLocalRadioIds| > 0 {
        WriteBackFits(MARKET_INFO_COLUMNS, tables.nonLocalRadioIds);
        var _ := marketInfo.Update(tables.rangeString2, tables.dfAsList2);
      }
      if |tables.localRadioIds| > 0 {
        WriteBackFits(LOCAL_RADIO_COLUMNS, tables.localRadioIds);
        var _ := localRadio.Update(tables.rangeString, tables.dfAsList);
      }
    }

    /** The body of one reload branch: the load steps, the optional recommendation step, the
        write-back of each lookup tab whose table has rows, then the success line; an exception
        in the load or recommendation steps appends the error line instead. */
    method Reload(target: ClientConfig, call: Call, marketInfo: Worksheet, localRadio: Worksheet)
      requires Valid() && marketInfo != localRadio
      modifies this, marketInfo, localRadio
      ensures Valid()
      ensures errorList == old(errorList) + [Status(target, call)]
      ensures marketInfo.contents ==
        if Reached(target, call) && |tables.nonLocalRadioIds| > 0 then tables.dfAsList2 else old(marketInfo.contents)
      ensures localRadio.contents ==
        if Reached(target, call) && |tables.localRadioIds| > 0 then tables.dfAsList else old(localRadio.contents)
    {
      match call.etl {
        case Raised(e) =>
          errorList := errorList + [ErrorLine(target.tableName, e, target.orderUrl)];
        case Loaded(promo, missing) =>
          var missingVendorId := NatToString(missing);
          var totalNumber := NatToString(promo);
          var missingNumber := "recomendations needed";
          if target.recomendation {
            match call.recommendation {
              case Err(e) =>
                errorList := errorList + [ErrorLine(target.tableName, e, target.orderUrl)];
                return;
              case Ok(added) =>
                missingNumber := NatToString(added);
                totalNumber := NatToString(promo + added);
                missingVendorId := NatToString(missing + added);
            }
          }
          WriteBackTabs(marketInfo, localRadio);
          errorList := errorList + [SuccessLine(target.tableName, missingNumber, missingVendorId, totalNumber, target.orderUrl)];
      }
    }

    /** `order_upload`: picks the branch by the hour; a reload branch appends exactly one line. */
    method OrderUpload(target: ClientConfig, call: Call, marketInfo: Worksheet, localRadio: Worksheet)
      requires Valid() && marketInfo != localRadio
      modifies this, marketInfo, localRadio
      ensures Valid()
      ensures errorList == old(errorList) + (if SelectBranch(call.hour, target.activeClient) != NoReload then [Status(target, call)] else [])
      ensures marketInfo.contents ==
        if SelectBranch(call.hour, target.activeClient) != NoReload && Reached(target, call) && |tables.nonLocalRadioIds| > 0
        then tables.dfAsList2 else old(marketInfo.contents)
      ensures localRadio.contents ==
        if SelectBranch(call.hour, target.activeClient) != NoReload && Reached(target, call) && |tables.localRadioIds| > 0
        then tables.dfAsList else old(localRadio.contents)
    {
      var branch := SelectBranch(call.hour, target.activeClient);
      if branch != NoReload {
        // Both reload branches run the same steps here. They differ in where the historical
        // orders are read from and in which rows the blank-to-NaN and numeric cleaning covers;
        // both differences are part of the load steps' outcome.
        Reload(target, call, marketInfo, localRadio);
      }
    }

    /** The loop of `handler`: for each record, read its attributes and call `order_upload` with
        the fixed target. A record missing an attribute raises `KeyError`, which ends the loop
        (false) before that record's call. */
    method UploadRecords(target: ClientConfig, records: seq<Message>, calls: seq<Call>, marketInfo: Worksheet, localRadio: Worksheet)
      returns (ok: bool)
      requires Valid() && marketInfo != localRadio
      requires |calls| == |records|
      requires forall k :: 0 <= k < |calls| ==> 0 <= calls[k].hour <= 23
      modifies this, marketInfo, localRadio
      ensures Valid()
      ensures ok <==> ReadablePrefix(records) == |records|
      ensures var done := calls[..ReadablePrefix(records)];
        && errorList == old(errorList) + UploadLines(target, done)
        && marketInfo.contents ==
          (if AnyReached(target, done) && |tables.nonLocalRadioIds| > 0 then tables.dfAsList2 else old(marketInfo.contents))
        && localRadio.contents ==
          (if AnyReached(target, done) && |tables.localRadioIds| > 0 then tables.dfAsList else old(localRadio.contents))
    {
      var n := ReadablePrefix(records);
      for i := 0 to |records|
        invariant Valid()
        invariant i <= n
        invariant errorList == old(errorList) + UploadLines(target, calls[..i])
        invariant marketInfo.contents ==
          (if AnyReached(target, calls[..i]) && |tables.nonLocalRadioIds| > 0 then tables.dfAsList2 else old(marketInfo.contents))
        invariant localRadio.contents ==
          (if AnyReached(target, calls[..i]) && |tables.localRadioIds| > 0 then tables.dfAsList else old(localRadio.contents))
      {
        var attributes := ReadAttributes(records[i]);
        if attributes.None? {
          assert i == n;
          return false;
        }
        assert i < n;
        ghost var before := errorList;
        ClockHourSelectsFullReload(calls[i].hour, target.activeClient);
        OrderUpload(target, calls[i], marketInfo, localRadio);
        assert errorList == before + [Status(target, calls[i])];
        AppendCall(old(errorList), target, calls, i);
      }
      assert n == |records| && calls[..n] == calls[..|records|];
      ok := true;
    }

    /** `handler`: rebuilds the lookup tables from the two query results, then runs the record loop. */
    method Handler(localRows: seq<seq<DbValue>>, marketRows: seq<seq<DbValue>>, records: seq<Message>,
                   calls: seq<Call>, marketInfo: Worksheet, localRadio: Worksheet) returns (ok: bool)
      requires Valid() && marketInfo != localRadio
      requires Rectangular(localRows, 4) && Rectangular(marketRows, 13)
      requires |calls| == |records|
      requires forall k :: 0 <= k < |calls| ==> 0 <= calls[k].hour <= 23
      modifies this, tables, marketInfo, localRadio
      ensures Valid()
      ensures tables.localRadioIds == localRows && tables.nonLocalRadioIds == marketRows
      ensures tables.dfAsList == Flattened(LOCAL_RADIO_COLUMNS, localRows)
      ensures tables.dfAsList2 == Flattened(MARKET_INFO_COLUMNS, marketRows)
      ensures tables.rangeString == RangeString(4, |localRows|) && tables.rangeString2 == RangeString(13, |marketRows|)
      ensures ok <==> ReadablePrefix(records) == |records|
      ensures var done := calls[..ReadablePrefix(records)];
        && errorList == old(errorList) + UploadLines(FIXED_TARGET, done)
        && marketInfo.contents ==
          (if AnyReached(FIXED_TARGET, done) && |marketRows| > 0 then Flattened(MARKET_INFO_COLUMNS, marketRows) else old(marketInfo.contents))
        && localRadio.contents ==
          (if AnyReached(FIXED_TARGET, done) && |localRows| > 0 then Flattened(LOCAL_RADIO_COLUMNS, localRows) else old(localRadio.contents))
    {
      tables.Rebuild(localRows, marketRows);
      ok := UploadRecords(FIXED_TARGET, records, calls, marketInfo, localRadio);
    }
  }
}
