// Bulk signal import from CSV bytes. The tokenizer is a small subset of the
// format of RFC 4180 section 2 without quoting: ',' separates fields and either
// CR or LF ends a record. Every data row (after the header) is checked field by
// field; the import only counts accepted and rejected rows.

module CsvImport {
  import opened Base
  import RegistryTypes

  const MAX_BATCH_SIZE: nat := 100
  const MAX_RATIONALE_LEN: nat := 500
  const MAX_EXPIRY_HOURS: int := 720

  const TAB: Byte := 9
  const LF: Byte := 10
  const CR: Byte := 13
  const SPACE: Byte := 32
  const COMMA: Byte := 44
  const MINUS: Byte := 45
  const DOT: Byte := 46
  const SLASH: Byte := 47

  datatype ImportError = InvalidFormat | InvalidAssetPair | InvalidAction | InvalidPrice | InvalidRationale | InvalidExpiry

  datatype ImportResult = ImportResult(successCount: nat, errorCount: nat)

  type Field = seq<Byte>
  type Record = seq<Field>

  predicate IsEol(b: Byte) { b == LF || b == CR }

  predicate IsSeparator(b: Byte) { IsEol(b) || b == COMMA }

  predicate IsBlank(b: Byte) { b == SPACE || b == TAB }

  // ---------------------------------------------------------------------------
  // Tokenizer specification

  /** The tokenizer's buffers: finished records, the record being read, the field being read. */
  datatype Scanner = Scanner(lines: seq<Record>, line: Record, field: Field)

  /** One input byte. At CR/LF a record that has any content is closed, together with
      its last field even when that field is empty. */
  function Step(t: Scanner, b: Byte): Scanner
  {
    if IsEol(b) then
      if t.field != [] || t.line != [] then Scanner(t.lines + [t.line + [t.field]], [], []) else t
    else if b == COMMA then Scanner(t.lines, t.line + [t.field], [])
    else Scanner(t.lines, t.line, t.field + [b])
  }

  function Scan(data: seq<Byte>): Scanner
  {
    if data == [] then Scanner([], [], []) else Step(Scan(data[..|data| - 1]), data[|data| - 1])
  }

  /** End of input: a trailing field is kept only if it is non-empty. */
  function Finish(t: Scanner): seq<Record>
  {
    var line := if t.field != [] then t.line + [t.field] else t.line;
    if line != [] then t.lines + [line] else t.lines
  }

  /** The records of `parse_csv_lines`. */
  function CsvLines(data: seq<Byte>): seq<Record>
  {
    Finish(Scan(data))
  }

  /** Bytes that are neither separators nor line ends, in input order. */
  function Kept(data: seq<Byte>): seq<Byte>
  {
    if data == [] then []
    else Kept(data[..|data| - 1]) + (if IsSeparator(data[|data| - 1]) then [] else [data[|data| - 1]])
  }

  function FlatRecord(r: Record): seq<Byte>
  {
    if r == [] then [] else FlatRecord(r[..|r| - 1]) + r[|r| - 1]
  }

  function Flat(ls: seq<Record>): seq<Byte>
  {
    if ls == [] then [] else Flat(ls[..|ls| - 1]) + FlatRecord(ls[|ls| - 1])
  }

  predicate Clean(f: Field)
  {
    forall i :: 0 <= i < |f| ==> !IsSeparator(f[i])
  }

  predicate CleanRecord(r: Record)
  {
    forall j :: 0 <= j < |r| ==> Clean(r[j])
  }

  predicate WellFormed(ls: seq<Record>)
  {
    forall k :: 0 <= k < |ls| ==> ls[k] != [] && CleanRecord(ls[k])
  }

  // ---------------------------------------------------------------------------
  // Field parsing specification

  /** Leading spaces and tabs dropped. */
  function TrimLeft(d: seq<Byte>): (r: seq<Byte>)
    ensures |r| <= |d|
  {
    if d != [] && IsBlank(d[0]) then TrimLeft(d[1..]) else d
  }

  /** Trailing spaces and tabs dropped. */
  function TrimRight(d: seq<Byte>): (r: seq<Byte>)
    ensures |r| <= |d|
  {
    if d != [] && IsBlank(d[|d| - 1]) then TrimRight(d[..|d| - 1]) else d
  }

  /** `trim_bytes`. */
  function Trim(d: seq<Byte>): seq<Byte>
  {
    TrimRight(TrimLeft(d))
  }

  function ToUpper(b: Byte): Byte
  {
    if 97 <= b <= 122 then b - 32 else b
  }

  function Upper(s: seq<Byte>): (u: seq<Byte>)
    ensures |u| == |s| && forall i :: 0 <= i < |s| ==> u[i] == ToUpper(s[i])
  {
    seq(|s|, i requires 0 <= i < |s| => ToUpper(s[i]))
  }

  const BUY: seq<Byte> := [66, 85, 89]
  const SELL: seq<Byte> := [83, 69, 76, 76]

  /** `validate_action`. */
  function ValidateAction(data: seq<Byte>): Result<RegistryTypes.SignalAction, ImportError>
  {
    var t := Trim(data);
    if |t| == 3 && Upper(t) == BUY then Ok(RegistryTypes.Buy)
    else if |t| == 4 && Upper(t) == SELL then Ok(RegistryTypes.Sell)
    else Err(InvalidAction)
  }

  /** The value once the scan has stopped: nothing numeric seen is an error. */
  function Parsed(acc: int, negative: bool, started: bool): Result<int, ImportError>
  {
    if !started then Err(InvalidPrice) else Ok(if negative then -acc else acc)
  }

  /** The digit scan of `parse_i128_from_bytes` from the given accumulator state:
      one leading '-', digits accumulate, '.' stops, spaces are skipped. */
  function ParseFrom(t: seq<Byte>, acc: int, negative: bool, started: bool): Result<int, ImportError>
    decreases |t|
  {
    if t == [] then Parsed(acc, negative, started)
    else if t[0] == MINUS && !started then ParseFrom(t[1..], acc, true, true)
    else if IsDigit(t[0]) then ParseFrom(t[1..], acc * 10 + (t[0] - 48), negative, true)
    else if t[0] == DOT then Parsed(acc, negative, started)
    else if t[0] != SPACE then Err(InvalidPrice)
    else ParseFrom(t[1..], acc, negative, started)
  }

  /** `parse_i128_from_bytes`. */
  function ParseI128(data: seq<Byte>): Result<int, ImportError>
  {
    var t := Trim(data);
    if t == [] then Err(InvalidPrice) else ParseFrom(t, 0, false, false)
  }

  /** `parse_u32_from_bytes`. */
  function ParseU32(data: seq<Byte>): (r: Result<int, ImportError>)
    ensures r.Ok? ==> 0 <= r.value <= U32_MAX
  {
    match ParseI128(data)
    case Err(e) => Err(e)
    case Ok(v) => if v < 0 || v > U32_MAX then Err(InvalidFormat) else Ok(v)
  }

  /** `validate_csv_line`: the first failing check decides the error. */
  function ValidateCsvLine(fields: seq<Field>): Result<(), ImportError>
  {
    if |fields| < 5 then Err(InvalidFormat)
    else if SLASH !in fields[0] then Err(InvalidAssetPair)
    else if ValidateAction(fields[1]).Err? then Err(ValidateAction(fields[1]).error)
    else match ParseI128(fields[2])
      case Err(e) => Err(e)
      case Ok(price) =>
        if price <= 0 then Err(InvalidPrice)
        else if fields[3] == [] || |fields[3]| > MAX_RATIONALE_LEN then Err(InvalidRationale)
        else match ParseU32(fields[4])
          case Err(e) => Err(e)
          case Ok(expiry) => if expiry == 0 || expiry > MAX_EXPIRY_HOURS then Err(InvalidExpiry) else Ok(())
  }

  /** The data rows examined: the header is skipped and at most 100 rows follow it. */
  function Examined(lines: seq<Record>): seq<Record>
    requires lines != []
  {
    lines[1..Min(|lines|, MAX_BATCH_SIZE + 1)]
  }

  /** The counters over the examined rows; in validate-only mode accepted rows are not counted. */
  function Tally(rows: seq<Record>, validateOnly: bool): ImportResult
  {
    if rows == [] then ImportResult(0, 0)
    else
      var r := Tally(rows[..|rows| - 1], validateOnly);
      if ValidateCsvLine(rows[|rows| - 1]).Ok? then
        (if validateOnly then r else r.(successCount := r.successCount + 1))
      else r.(errorCount := r.errorCount + 1)
  }

  /** `import_signals_csv`: no record at all counts as one error. */
  function ImportCsv(data: seq<Byte>, validateOnly: bool): ImportResult
  {
    var lines := CsvLines(data);
    if lines == [] then ImportResult(0, 1) else Tally(Examined(lines), validateOnly)
  }

  // ---------------------------------------------------------------------------
  // Implementation

  /** `parse_csv_lines`. */
  method ParseCsvLines(data: seq<Byte>) returns (lines: seq<Record>)
    ensures lines == CsvLines(data)
  {
    lines := [];
    var currentLine: Record := [];
    var currentField: Field := [];
    var i := 0;
    while i < |data|
      invariant 0 <= i <= |data|
      invariant Scanner(lines, currentLine, currentField) == Scan(data[..i])
    {
      var b := data[i];
      if b == LF || b == CR {
        if currentField != [] || currentLine != [] {
          currentLine := currentLine + [currentField];
          currentField := [];
        }
        if currentLine != [] {
          lines := lines + [currentLine];
          currentLine := [];
        }
      } else if b == COMMA {
        currentLine := currentLine + [currentField];
        currentField := [];
      } else {
        currentField := currentField + [b];
      }
      assert data[..i + 1][..i] == data[..i];
      i := i + 1;
    }
    assert data[..i] == data;
    if currentField != [] {
      currentLine := currentLine + [currentField];
    }
    if currentLine != [] {
      lines := lines + [currentLine];
    }
  }

  /** `trim_bytes`: the bounds move inwards over spaces and tabs. */
  method TrimBytes(data: seq<Byte>) returns (r: seq<Byte>)
    ensures r == Trim(data)
  {
    var start := SkipLeading(data);
    var end := SkipTrailing(data, start);
    r := data[start..end];
  }

  /** The first loop of `trim_bytes`: the start moves past leading blanks. */
  method SkipLeading(data: seq<Byte>) returns (start: nat)
    ensures start <= |data| && data[start..] == TrimLeft(data)
  {
    start := 0;
    while start < |data| && (data[start] == SPACE || data[start] == TAB)
      invariant 0 <= start <= |data|
      invariant TrimLeft(data[start..]) == TrimLeft(data)
    {
      assert data[start..][1..] == data[start + 1..];
      start := start + 1;
    }
  }

  /** The second loop of `trim_bytes`: the end moves back over trailing blanks,
      never past the start. */
  method SkipTrailing(data: seq<Byte>, start: nat) returns (end: nat)
    requires start <= |data|
    ensures start <= end <= |data| && data[start..end] == TrimRight(data[start..])
  {
    end := |data|;
    assert data[start..end] == data[start..];
    while end > start && (data[end - 1] == SPACE || data[end - 1] == TAB)
      invariant start <= end <= |data|
      invariant TrimRight(data[start..end]) == TrimRight(data[start..])
    {
      assert data[start..end][..end - 1 - start] == data[start..end - 1];
      end := end - 1;
    }
  }

  /** `parse_i128_from_bytes`. */
  method ParseI128FromBytes(data: seq<Byte>) returns (r: Result<int, ImportError>)
    ensures r == ParseI128(data)
  {
    var trimmed := TrimBytes(data);
    if trimmed == [] {
      return Err(InvalidPrice);
    }
    var result: int, negative, started := 0, false, false;
    var i := 0;
    while i < |trimmed|
      invariant 0 <= i <= |trimmed|
      invariant ParseFrom(trimmed[i..], result, negative, started) == ParseI128(data)
    {
      var b := trimmed[i];
      assert trimmed[i..][1..] == trimmed[i + 1..];
      if b == MINUS && !started {
        negative, started := true, true;
      } else if 48 <= b <= 57 {
        result := result * 10 + (b - 48);
        started := true;
      } else if b == DOT {
        break;
      } else if b != SPACE {
        return Err(InvalidPrice);
      }
      i := i + 1;
    }
    if !started {
      return Err(InvalidPrice);
    }
    r := Ok(if negative then -result else result);
  }

  /** `import_signals_csv`. */
  method ImportSignalsCsv(data: seq<Byte>, validateOnly: bool) returns (r: ImportResult)
    ensures r == ImportCsv(data, validateOnly)
  {
    var lines := ParseCsvLines(data);
    if lines == [] {
      return ImportResult(0, 1);
    }
    var n := Min(|lines|, MAX_BATCH_SIZE + 1);
    var successCount, errorCount := TallyRows(lines, n, validateOnly);
    r := ImportResult(successCount, errorCount);
  }

  /** The row loop of `import_signals_csv` over the rows after the header, up to `n`. */
  method TallyRows(lines: seq<Record>, n: nat, validateOnly: bool) returns (successCount: nat, errorCount: nat)
    requires 1 <= n <= |lines| && n <= MAX_BATCH_SIZE + 1
    ensures ImportResult(successCount, errorCount) == Tally(lines[1..n], validateOnly)
  {
    successCount, errorCount := 0, 0;
    var i := 1;
    while i < n
      invariant 1 <= i <= n
      invariant ImportResult(successCount, errorCount) == Tally(lines[1..i], validateOnly)
      invariant successCount <= i - 1
    {
      if successCount >= MAX_BATCH_SIZE {
        // The batch guard cannot fire: at most 99 rows precede this one.
        assert false;
      }
      TallyPrefix(lines, i, validateOnly);
      if ValidateCsvLine(lines[i]).Ok? {
        if !validateOnly {
          successCount := successCount + 1;
        }
      } else {
        errorCount := errorCount + 1;
      }
      i := i + 1;
    }
  }

  /** One more row after the header extends the tally by that row's verdict. */
  lemma TallyPrefix(lines: seq<Record>, i: nat, validateOnly: bool)
    requires 1 <= i < |lines|
    ensures var r := Tally(lines[1..i], validateOnly);
            Tally(lines[1..i + 1], validateOnly) ==
              if ValidateCsvLine(lines[i]).Ok? then (if validateOnly then r else r.(successCount := r.successCount + 1))
              else r.(errorCount := r.errorCount + 1)
  {
    assert lines[1..i + 1][..i - 1] == lines[1..i];
    assert lines[1..i + 1][i - 1] == lines[i];
  }

  // ---------------------------------------------------------------------------
  // Tokenizer properties

  lemma FlatRecordAppend(r: Record, f: Field)
    ensures FlatRecord(r + [f]) == FlatRecord(r) + f
  {
    assert (r + [f])[..|r|] == r;
  }

  lemma FlatAppend(ls: seq<Record>, r: Record)
    ensures Flat(ls + [r]) == Flat(ls) + FlatRecord(r)
  {
    assert (ls + [r])[..|ls|] == ls;
  }

  /** The scanner's buffers hold exactly the bytes `kept`, in order, and every
      closed record is non-empty with separator-free fields. */
  predicate ScanInv(t: Scanner, kept: seq<Byte>)
  {
    && Flat(t.lines) + FlatRecord(t.line) + t.field == kept
    && WellFormed(t.lines) && CleanRecord(t.line) && Clean(t.field)
  }

  lemma AppendClean(f: Field, b: Byte)
    requires Clean(f) && !IsSeparator(b)
    ensures Clean(f + [b])
  {
  }

  lemma AppendCleanRecord(r: Record, f: Field)
    requires CleanRecord(r) && Clean(f)
    ensures CleanRecord(r + [f])
  {
  }

  lemma AppendWellFormed(ls: seq<Record>, r: Record)
    requires WellFormed(ls) && r != [] && CleanRecord(r)
    ensures WellFormed(ls + [r])
  {
  }

  lemma StepInv(t: Scanner, kept: seq<Byte>, b: Byte)
    requires ScanInv(t, kept)
    ensures ScanInv(Step(t, b), kept + (if IsSeparator(b) then [] else [b]))
  {
    if IsEol(b) {
      assert kept + [] == kept;
      if t.field != [] || t.line != [] {
        CloseLineInv(t, kept);
      }
    } else if b == COMMA {
      assert kept + [] == kept;
      CloseFieldInv(t, kept);
    } else {
      AppendClean(t.field, b);
      assert Flat(t.lines) + FlatRecord(t.line) + (t.field + [b]) == kept + [b];
    }
  }

  /** An end of line closes the current record. */
  lemma CloseLineInv(t: Scanner, kept: seq<Byte>)
    requires ScanInv(t, kept)
    ensures ScanInv(Scanner(t.lines + [t.line + [t.field]], [], []), kept)
  {
    var r := t.line + [t.field];
    AppendCleanRecord(t.line, t.field);
    AppendWellFormed(t.lines, r);
    FlatRecordAppend(t.line, t.field);
    FlatAppend(t.lines, r);
    assert Flat(t.lines + [r]) == Flat(t.lines) + FlatRecord(t.line) + t.field;
    assert FlatRecord([]) == [];
  }

  /** A comma closes the current field. */
  lemma CloseFieldInv(t: Scanner, kept: seq<Byte>)
    requires ScanInv(t, kept)
    ensures ScanInv(Scanner(t.lines, t.line + [t.field], []), kept)
  {
    AppendCleanRecord(t.line, t.field);
    FlatRecordAppend(t.line, t.field);
  }

  lemma {:induction false} ScanInvariant(data: seq<Byte>)
    ensures ScanInv(Scan(data), Kept(data))
  {
    if data != [] {
      ScanInvariant(data[..|data| - 1]);
      StepInv(Scan(data[..|data| - 1]), Kept(data[..|data| - 1]), data[|data| - 1]);
    }
  }

  /** No record is empty, no field contains ',', CR or LF, and no byte other than
      those separators is lost or reordered. */
  lemma FinishInv(t: Scanner, kept: seq<Byte>)
    requires ScanInv(t, kept)
    ensures WellFormed(Finish(t)) && Flat(Finish(t)) == kept
  {
    var line := if t.field != [] then t.line + [t.field] else t.line;
    if t.field != [] {
      FlatRecordAppend(t.line, t.field);
      AppendCleanRecord(t.line, t.field);
    }
    assert FlatRecord(line) == FlatRecord(t.line) + t.field;
    if line != [] {
      FlatAppend(t.lines, line);
      AppendWellFormed(t.lines, line);
    }
  }

  lemma CsvLinesMeaning(data: seq<Byte>)
    ensures WellFormed(CsvLines(data))
    ensures Flat(CsvLines(data)) == Kept(data)
  {
    ScanInvariant(data);
    FinishInv(Scan(data), Kept(data));
  }

  /** A trailing empty field is kept before a line end and dropped at the end of input;
      CR and LF both end a record and blank lines vanish. */
  lemma TokenizerExamples()
    ensures CsvLines([97, COMMA, LF]) == [[[97], []]]
    ensures CsvLines([97, COMMA]) == [[[97]]]
    ensures CsvLines([97, CR, LF, 98]) == [[[97]], [[98]]]
    ensures CsvLines([LF, CR]) == []
  {
    TrailingCommaKept();
    TrailingCommaDropped();
    CrLfSeparates();
    BlankLinesVanish();
  }

  /** Scanning one more byte is one more step. */
  lemma ScanSnoc(data: seq<Byte>, b: Byte)
    ensures Scan(data + [b]) == Step(Scan(data), b)
  {
    assert (data + [b])[..|data|] == data;
  }

  lemma TrailingCommaKept()
    ensures CsvLines([97, COMMA, LF]) == [[[97], []]]
  {
    var a: Field, e: Field, noRecord: Record := [97], [], [];
    ScanAfterA();
    ScanSnoc([97], COMMA);
    ScanSnoc([97, COMMA], LF);
    assert [97] + [COMMA] == [97, COMMA] && [97, COMMA] + [LF] == [97, COMMA, LF];
    assert Scan([97, COMMA]) == Scanner([], [a], e) by { assert noRecord + [a] == [a]; }
    assert Scan([97, COMMA, LF]) == Scanner([[a, e]], [], []) by { assert [a] + [e] == [a, e]; }
  }

  lemma TrailingCommaDropped()
    ensures CsvLines([97, COMMA]) == [[[97]]]
  {
    var a: Field, e: Field, noRecord: Record := [97], [], [];
    ScanAfterA();
    ScanSnoc([97], COMMA);
    assert [97] + [COMMA] == [97, COMMA];
    assert Scan([97, COMMA]) == Scanner([], [a], e) by { assert noRecord + [a] == [a]; }
  }

  lemma CrLfSeparates()
    ensures CsvLines([97, CR, LF, 98]) == [[[97]], [[98]]]
  {
    var a: Field, b: Field, noRecord: Record, noLines: seq<Record> := [97], [98], [], [];
    ScanAfterA();
    ScanSnoc([97], CR);
    ScanSnoc([97, CR], LF);
    ScanSnoc([97, CR, LF], 98);
    assert [97] + [CR] == [97, CR] && [97, CR] + [LF] == [97, CR, LF] && [97, CR, LF] + [98] == [97, CR, LF, 98];
    assert Scan([97, CR]) == Scanner([[a]], [], []) by { assert noRecord + [a] == [a] && noLines + [[a]] == [[a]]; }
    assert Scan([97, CR, LF, 98]) == Scanner([[a]], [], b);
    assert Finish(Scanner([[a]], [], b)) == [[a], [b]] by { assert noRecord + [b] == [b]; }
  }

  lemma BlankLinesVanish()
    ensures CsvLines([LF, CR]) == []
  {
    ScanSnoc([], LF);
    ScanSnoc([LF], CR);
    assert [LF] + [CR] == [LF, CR];
  }

  lemma ScanAfterA()
    ensures Scan([97]) == Scanner([], [], [97])
  {
    ScanSnoc([], 97);
    assert [] + [97] == [97];
  }

  // ---------------------------------------------------------------------------
  // Field parsing properties

  lemma {:induction false} TrimLeftSuffix(d: seq<Byte>)
    ensures TrimLeft(d) == d[|d| - |TrimLeft(d)|..]
    ensures forall i :: 0 <= i < |d| - |TrimLeft(d)| ==> IsBlank(d[i])
    ensures TrimLeft(d) != [] ==> !IsBlank(TrimLeft(d)[0])
  {
    if d != [] && IsBlank(d[0]) {
      TrimLeftSuffix(d[1..]);
    }
  }

  lemma {:induction false} TrimRightPrefix(d: seq<Byte>)
    ensures TrimRight(d) == d[..|TrimRight(d)|]
    ensures forall i :: |TrimRight(d)| <= i < |d| ==> IsBlank(d[i])
    ensures TrimRight(d) != [] ==> !IsBlank(TrimRight(d)[|TrimRight(d)| - 1])
  {
    if d != [] && IsBlank(d[|d| - 1]) {
      TrimRightPrefix(d[..|d| - 1]);
    }
  }

  lemma TrimRightKeepsFront(d: seq<Byte>)
    requires d != [] && !IsBlank(d[0])
    ensures TrimRight(d) != [] && TrimRight(d)[0] == d[0]
  {
    TrimRightPrefix(d);
  }

  /** Where the trimmed bytes start in the input. */
  function TrimOffset(d: seq<Byte>): nat
  {
    |d| - |TrimLeft(d)|
  }

  /** The trimmed bytes are a contiguous slice of the input; everything cut off on
      either side is a space or a tab, and what remains neither starts nor ends with one. */
  lemma TrimMeaning(d: seq<Byte>)
    ensures var r, s := Trim(d), TrimOffset(d);
            && s + |r| <= |d| && r == d[s..s + |r|]
            && (forall i :: 0 <= i < s ==> IsBlank(d[i]))
            && (forall i :: s + |r| <= i < |d| ==> IsBlank(d[i]))
    ensures var r := Trim(d); r != [] ==> !IsBlank(r[0]) && !IsBlank(r[|r| - 1])
  {
    var l := TrimLeft(d);
    TrimLeftSuffix(d);
    TrimRightPrefix(l);
    var s := |d| - |l|;
    var r := Trim(d);
    assert r == d[s..s + |r|];
    forall i | s + |r| <= i < |d|
      ensures IsBlank(d[i])
    {
      assert d[i] == l[i - s];
    }
    if r != [] {
      TrimRightKeepsFront(l);
    }
  }

  /** An action is accepted exactly when, trimmed, it is "buy" or "sell" in any mix of cases. */
  lemma ActionMeaning(data: seq<Byte>)
    ensures var t := Trim(data);
            ValidateAction(data) == Ok(RegistryTypes.Buy) <==>
              |t| == 3 && t[0] in {66, 98} && t[1] in {85, 117} && t[2] in {89, 121}
    ensures var t := Trim(data);
            ValidateAction(data) == Ok(RegistryTypes.Sell) <==>
              |t| == 4 && t[0] in {83, 115} && t[1] in {69, 101} && t[2] in {76, 108} && t[3] in {76, 108}
    ensures ValidateAction(data).Err? ==> ValidateAction(data).error == InvalidAction
  {
    var t := Trim(data);
    if |t| == 3 {
      assert Upper(t) == BUY <==> Upper(t)[0] == 66 && Upper(t)[1] == 85 && Upper(t)[2] == 89;
    }
    if |t| == 4 {
      assert Upper(t) == SELL <==> Upper(t)[0] == 83 && Upper(t)[1] == 69 && Upper(t)[2] == 76 && Upper(t)[3] == 76;
    }
  }

  lemma {:induction false} NumeralCons(d: Byte, u: seq<Byte>)
    requires IsDigit(d) && AllDigits(u)
    ensures AllDigits([d] + u)
    ensures NumeralValue([d] + u) == (d - 48) * Pow10(|u|) + NumeralValue(u)
  {
    var du := [d] + u;
    assert AllDigits(du);
    if u != [] {
      var u', e := u[..|u| - 1], u[|u| - 1];
      assert AllDigits(u');
      assert du[..|u|] == [d] + u';
      assert du[|du| - 1] == e;
      NumeralCons(d, u');
      var x, p, v := d - 48, Pow10(|u'|), NumeralValue(u');
      assert NumeralValue([d] + u') == x * p + v;
      assert NumeralValue(du) == NumeralValue([d] + u') * 10 + (e - 48);
      assert NumeralValue(u) == v * 10 + (e - 48);
      assert Pow10(|u|) == 10 * p;
      ShiftLeft(x, p, v);
    }
  }

  lemma ShiftLeft(x: int, p: int, v: int)
    ensures (x * p + v) * 10 == x * (10 * p) + v * 10
  {
  }

  /** Scanning digits shifts the accumulator left by one decimal place per digit. */
  lemma {:induction false} ParseDigits(t: seq<Byte>, acc: int, negative: bool, started: bool)
    requires AllDigits(t)
    ensures ParseFrom(t, acc, negative, started) == Parsed(acc * Pow10(|t|) + NumeralValue(t), negative, started || t != [])
  {
    if t != [] {
      var d, u := t[0], t[1..];
      assert t == [d] + u;
      assert IsDigit(d) && AllDigits(u);
      var next := acc * 10 + (d - 48);
      assert ParseFrom(t, acc, negative, started) == ParseFrom(u, next, negative, true);
      ParseDigits(u, next, negative, true);
      NumeralCons(d, u);
      var p := Pow10(|u|);
      assert Pow10(|t|) == 10 * p;
      ShiftRight(acc, d - 48, p);
      assert acc * Pow10(|t|) + NumeralValue(t) == next * p + NumeralValue(u);
    }
  }

  lemma ShiftRight(a: int, y: int, p: int)
    ensures (a * 10 + y) * p == a * (10 * p) + y * p
  {
  }

  lemma NoBlankTrim(t: seq<Byte>)
    requires forall i :: 0 <= i < |t| ==> !IsBlank(t[i])
    ensures Trim(t) == t
  {
  }

  /** A numeral parses to its value, and with a leading '-' to the negated value
      (a lone "-" parses as 0). */
  lemma NumeralParses(t: seq<Byte>)
    requires AllDigits(t)
    ensures t != [] ==> ParseI128(t) == Ok(NumeralValue(t))
    ensures ParseI128([MINUS] + t) == Ok(-(NumeralValue(t) as int))
  {
    ParseDigits(t, 0, false, false);
    ParseDigits(t, 0, true, true);
    NoBlankTrim(t);
    NoBlankTrim([MINUS] + t);
    assert ([MINUS] + t)[1..] == t;
  }

  /** Everything from the first '.' on is ignored. */
  lemma {:induction false} DecimalIgnored(t: seq<Byte>, rest: seq<Byte>, acc: int, negative: bool, started: bool)
    requires DOT !in t
    ensures ParseFrom(t + [DOT] + rest, acc, negative, started) == ParseFrom(t, acc, negative, started)
  {
    if t != [] {
      assert (t + [DOT] + rest)[1..] == t[1..] + [DOT] + rest;
      if t[0] == MINUS && !started {
        DecimalIgnored(t[1..], rest, acc, true, true);
      } else if IsDigit(t[0]) {
        DecimalIgnored(t[1..], rest, acc * 10 + (t[0] - 48), negative, true);
      } else if t[0] == SPACE {
        DecimalIgnored(t[1..], rest, acc, negative, started);
      }
    }
  }

  /** Parsing fails only with InvalidPrice; the u32 parse adds InvalidFormat for values
      outside 0..u32::MAX and otherwise agrees. */
  lemma {:induction false} ParseErrors(t: seq<Byte>, acc: int, negative: bool, started: bool)
    ensures ParseFrom(t, acc, negative, started).Err? ==> ParseFrom(t, acc, negative, started).error == InvalidPrice
    decreases |t|
  {
    if t != [] {
      ParseErrors(t[1..], if IsDigit(t[0]) then acc * 10 + (t[0] - 48) else acc,
                  if t[0] == MINUS && !started then true else negative, started || t[0] == MINUS || IsDigit(t[0]));
    }
  }

  lemma ParseU32Meaning(data: seq<Byte>)
    ensures ParseI128(data).Err? ==> ParseU32(data) == ParseI128(data) && ParseU32(data).error == InvalidPrice
    ensures ParseI128(data).Ok? ==>
              (ParseU32(data).Ok? <==> 0 <= ParseI128(data).value <= U32_MAX)
              && (ParseU32(data).Ok? ==> ParseU32(data).value == ParseI128(data).value)
              && (ParseU32(data).Err? ==> ParseU32(data).error == InvalidFormat)
  {
    if Trim(data) != [] {
      ParseErrors(Trim(data), 0, false, false);
    }
  }

  /** The parse examples: a quantity, a negative price and an expiry. */
  lemma QuantityExample()
    ensures ParseI128([49, 50, 48, 48, 48, 48]) == Ok(120000)
  {
    var a: seq<Byte> := [49];
    assert a[..0] == [];
    NumeralSnoc(a, 50);
    var b := a + [50];
    NumeralSnoc(b, 48);
    var c := b + [48];
    NumeralSnoc(c, 48);
    var d := c + [48];
    NumeralSnoc(d, 48);
    var e := d + [48];
    NumeralSnoc(e, 48);
    var n := e + [48];
    assert NumeralValue(n) == 120000;
    NumeralParses(n);
    assert n == [49, 50, 48, 48, 48, 48];
  }

  lemma NegativeExample()
    ensures ParseI128([MINUS, 52, 53, 48, 48, 48]) == Ok(-45000)
  {
    var a: seq<Byte> := [52];
    assert a[..0] == [];
    NumeralSnoc(a, 53);
    var b := a + [53];
    NumeralSnoc(b, 48);
    var c := b + [48];
    NumeralSnoc(c, 48);
    var d := c + [48];
    NumeralSnoc(d, 48);
    var m := d + [48];
    assert NumeralValue(m) == 45000;
    NumeralParses(m);
    assert [MINUS] + m == [MINUS, 52, 53, 48, 48, 48];
  }

  /** Appending a digit shifts the value one decimal place. */
  lemma NumeralSnoc(t: seq<Byte>, d: Byte)
    requires AllDigits(t) && IsDigit(d)
    ensures AllDigits(t + [d]) && NumeralValue(t + [d]) == NumeralValue(t) * 10 + (d - 48)
  {
    assert (t + [d])[..|t|] == t;
  }

  lemma ExpiryExample()
    ensures ParseI128([50, 52]) == Ok(24)
  {
    var e := [50, 52];
    NumeralParses(e);
    assert e[..1] == [50];
  }

  /** Surrounding blanks are trimmed and the decimal part is dropped: " 12.5\t" is 12. */
  lemma DecimalExample()
    ensures ParseI128([SPACE, 49, 50, DOT, 53, TAB]) == Ok(12)
  {
    var d := [SPACE, 49, 50, DOT, 53, TAB];
    assert TrimLeft(d) == d[1..];
    assert d[1..][..4] == [49, 50, DOT, 53];
    assert TrimRight([49, 50, DOT, 53]) == [49, 50, DOT, 53];
    assert TrimRight(d[1..]) == TrimRight(d[1..][..4]);
    assert Trim(d) == [49, 50, DOT, 53];
    DecimalIgnored([49, 50], [53], 0, false, false);
    assert [49, 50] + [DOT] + [53] == [49, 50, DOT, 53];
    NumeralParses([49, 50]);
    assert [49, 50][..1] == [49];
  }

  /** An interior space is skipped, a '-' after a digit is rejected. */
  lemma InteriorExamples()
    ensures ParseI128([49, SPACE, 50]) == Ok(12)
    ensures ParseI128([49, MINUS, 50]) == Err(InvalidPrice)
  {
    NoBlankTrim([49, MINUS, 50]);
    var t := [49, SPACE, 50];
    assert TrimLeft(t) == t;
    assert TrimRight(t) == t;
    assert t[1..] == [SPACE, 50] && t[1..][1..] == [50] && [50][1..] == [];
    assert ParseFrom([50], 1, false, true) == Ok(12);
    assert ParseFrom([SPACE, 50], 1, false, true) == Ok(12);
    assert ParseFrom(t, 0, false, false) == ParseFrom(t[1..], 1, false, true);
    var u := [49, MINUS, 50];
    assert ParseFrom(u, 0, false, false) == ParseFrom(u[1..], 1, false, true);
    assert u[1..] == [MINUS, 50];
  }

  /** Nothing but blanks, or a decimal part alone, is not a number. */
  lemma EmptyNumberExamples()
    ensures ParseI128([SPACE, TAB]) == Err(InvalidPrice)
    ensures ParseI128([DOT, 53]) == Err(InvalidPrice)
  {
    assert [SPACE, TAB][1..] == [TAB] && [TAB][1..] == [];
    assert TrimLeft([SPACE, TAB]) == [];
    assert Trim([SPACE, TAB]) == [];
    NoBlankTrim([DOT, 53]);
  }

  // ---------------------------------------------------------------------------
  // Line validation and import properties

  /** A line is accepted exactly when every field check passes; a short line is a format
      error and an asset pair without '/' is rejected before any other field is read. */
  lemma LineMeaning(fields: seq<Field>)
    ensures ValidateCsvLine(fields).Ok? <==>
              && |fields| >= 5
              && SLASH in fields[0]
              && ValidateAction(fields[1]).Ok?
              && ParseI128(fields[2]).Ok? && ParseI128(fields[2]).value > 0
              && 1 <= |fields[3]| <= MAX_RATIONALE_LEN
              && ParseI128(fields[4]).Ok? && 1 <= ParseI128(fields[4]).value <= MAX_EXPIRY_HOURS
    ensures |fields| < 5 ==> ValidateCsvLine(fields) == Err(InvalidFormat)
    ensures |fields| >= 5 && SLASH !in fields[0] ==> ValidateCsvLine(fields) == Err(InvalidAssetPair)
    ensures |fields| >= 5 && SLASH in fields[0] && ValidateAction(fields[1]).Err? ==> ValidateCsvLine(fields) == Err(InvalidAction)
  {
    if |fields| >= 5 {
      ActionMeaning(fields[1]);
      ParseU32Meaning(fields[4]);
    }
  }

  /** Each examined row adds to exactly one counter, except that in validate-only mode
      accepted rows add to neither; validate-only changes nothing about rejected rows. */
  lemma {:induction false} TallyMeaning(rows: seq<Record>)
    ensures Tally(rows, false).successCount + Tally(rows, false).errorCount == |rows|
    ensures Tally(rows, true).successCount == 0
    ensures Tally(rows, true).errorCount == Tally(rows, false).errorCount
  {
    if rows != [] {
      TallyMeaning(rows[..|rows| - 1]);
    }
  }

  /** Empty input is one error, a header alone is nothing, at most 100 data rows are
      examined, and whatever follows them has no effect. */
  lemma ImportMeaning(data: seq<Byte>, validateOnly: bool)
    ensures CsvLines(data) == [] ==> ImportCsv(data, validateOnly) == ImportResult(0, 1)
    ensures |CsvLines(data)| == 1 ==> ImportCsv(data, validateOnly) == ImportResult(0, 0)
    ensures CsvLines(data) != [] ==>
              var rows := Examined(CsvLines(data));
              && |rows| <= MAX_BATCH_SIZE
              && |rows| == Min(|CsvLines(data)|, MAX_BATCH_SIZE + 1) - 1
              && rows == CsvLines(data)[1..1 + |rows|]
    ensures !validateOnly ==> ImportCsv(data, validateOnly).successCount <= MAX_BATCH_SIZE
  {
    var lines := CsvLines(data);
    if lines != [] {
      TallyMeaning(Examined(lines));
    }
  }

  lemma ImportIgnoresTail(lines: seq<Record>, tail: seq<Record>, validateOnly: bool)
    requires |lines| >= MAX_BATCH_SIZE + 1
    ensures Tally(Examined(lines + tail), validateOnly) == Tally(Examined(lines), validateOnly)
  {
    assert Examined(lines + tail) == Examined(lines);
  }

  /** The valid row of the import tests is accepted. */
  lemma RowExamples()
    ensures var good := [Ascii("XLM/USDC"), Ascii("BUY"), Ascii("120000"), Ascii("Test signal"), Ascii("24")];
            ValidateCsvLine(good) == Ok(())
  {
    var good := [Ascii("XLM/USDC"), Ascii("BUY"), Ascii("120000"), Ascii("Test signal"), Ascii("24")];
    assert good[0] == [88, 76, 77, 47, 85, 83, 68, 67];
    assert SLASH in good[0] by { assert good[0][3] == SLASH; }
    assert good[1] == [66, 85, 89];
    assert Trim(good[1]) == good[1];
    assert Upper(good[1]) == BUY;
    assert good[2] == [49, 50, 48, 48, 48, 48];
    QuantityExample();
    ExpiryExample();
    assert good[4] == [50, 52];
    assert |good[3]| == 11;
  }

  /** A row of three fields is InvalidFormat. */
  lemma ShortRowRejected()
    ensures ValidateCsvLine([Ascii("XLM/USDC"), Ascii("BUY"), Ascii("120000")]) == Err(InvalidFormat)
  {
  }

  /** A pair without '/' is InvalidAssetPair. */
  lemma PairWithoutSlashRejected()
    ensures ValidateCsvLine([Ascii("XLMUSDC"), Ascii("BUY"), Ascii("120000"), Ascii("Missing slash"), Ascii("24")])
              == Err(InvalidAssetPair)
  {
    assert Ascii("XLMUSDC") == [88, 76, 77, 85, 83, 68, 67];
  }

  /** The action HOLD is InvalidAction. */
  lemma HoldRejected()
    ensures ValidateCsvLine([Ascii("XLM/USDC"), Ascii("HOLD"), Ascii("120000"), Ascii("Invalid action"), Ascii("24")])
              == Err(InvalidAction)
  {
    var hold := Ascii("HOLD");
    assert hold == [72, 79, 76, 68];
    assert Trim(hold) == hold;
    assert Upper(hold) != SELL by { assert Upper(hold)[0] == 72; }
    assert Ascii("XLM/USDC")[3] == SLASH;
  }

  /** A negative price is InvalidPrice. */
  lemma NegativePriceRejected()
    ensures ValidateCsvLine([Ascii("BTC/USDC"), Ascii("SELL"), Ascii("-45000"), Ascii("Invalid negative price"), Ascii("48")])
              == Err(InvalidPrice)
  {
    var f := [Ascii("BTC/USDC"), Ascii("SELL"), Ascii("-45000"), Ascii("Invalid negative price"), Ascii("48")];
    assert f[0][3] == SLASH;
    SellAccepted();
    assert f[2] == [MINUS, 52, 53, 48, 48, 48];
    NegativeExample();
    NonPositivePrice(f, -45000);
  }

  lemma SellAccepted()
    ensures ValidateAction(Ascii("SELL")).Ok?
  {
    var sell := Ascii("SELL");
    assert sell == SELL && Trim(sell) == sell && Upper(sell) == SELL;
  }

  /** A row whose pair and action pass but whose price parses to zero or less is InvalidPrice. */
  lemma NonPositivePrice(fields: seq<Field>, price: int)
    requires |fields| >= 5 && SLASH in fields[0] && ValidateAction(fields[1]).Ok?
    requires ParseI128(fields[2]) == Ok(price) && price <= 0
    ensures ValidateCsvLine(fields) == Err(InvalidPrice)
  {
  }

  /** A batch with one bad row among good ones: two accepted, one rejected. */
  lemma TallyExample(good: Record, bad: Record)
    requires ValidateCsvLine(good).Ok? && ValidateCsvLine(bad).Err?
    ensures Tally([good, bad, good], false) == ImportResult(2, 1)
    ensures Tally([good, bad, good], true) == ImportResult(0, 1)
  {
    var rows := [good, bad, good];
    assert rows[..2] == [good, bad] && rows[..2][..1] == [good] && [good][..0] == [];
    assert Tally([good], false) == ImportResult(1, 0) && Tally([good], true) == ImportResult(0, 0);
    assert Tally([good, bad], false) == ImportResult(1, 1) && Tally([good, bad], true) == ImportResult(0, 1);
  }
}
