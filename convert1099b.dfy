/**
 * convert-1099B-2022.py: a scan over the lines of a Schwab 1099-B statement.
 * A `Box B checked` or `Box E checked` line sets the Form 8949 category; a
 * line that is exactly a registered CUSIP starts a record of three or four
 * lines; each record adds to the totals of its category and is written as a
 * TXF record; the first malformed record ends the run.
 *
 * The scan is specified by the function `ScanFrom`; the method `Convert` is
 * the script's loop, with its cursor, its category variable, its totals
 * dictionary and the output it writes record by record.
 */
module Convert1099B {
  import opened Wrappers
  import opened Text
  import opened Numbers
  import opened Dates
  import opened Patterns

  /** `_CUSIPS`: the CUSIP of each share class. */
  const Cusips: map<string, string> := map["GOOGL" := "02079K305", "GOOG" := "02079K107"]

  /** `_TXF_CATEGORIES`: the TXF reference number of each Form 8949 box. */
  const Categories: map<char, nat> := map['B' := 711, 'E' := 713]

  /** A key of `Categories`: the letters the marker pattern accepts. */
  type Category = c: char | c == 'B' || c == 'E' witness 'B'

  /** An amount as the statement spells it, `[\d,]+(?:\.\d+)`. */
  type Amount = t: string | IsAmountText(t) witness "0.0"

  /** Why a run stops early (each is a `sys.exit` or an uncaught exception). */
  datatype Failure =
    | NoCategory                                   // a CUSIP before any marker
    | Truncated                                    // fewer than three lines left at a CUSIP
    | BadLine(number: nat)                         // 1-based number of the line no pattern accepts
    | SymbolMismatch(symbol: string, cusip: string) // the description names the other share class
    | MissingLine                                  // the sale line of a four-line record is past the end

  /**
   * One record: the index of its CUSIP line, the category in force, whether
   * description and amounts share a line, and the texts it read.
   */
  datatype Entry = Entry(start: nat, category: Category, joined: bool, cusip: string, symbol: string,
                         description: string, acquired: string, proceeds: Amount, basis: Amount,
                         wash: Option<Amount>, sold: string)

  /** The number of lines a record occupies. */
  function Span(e: Entry): nat {
    if e.joined then 3 else 4
  }

  /** The wash amount of a date line, when it has one. */
  function WashOf(l: DateLine): Option<Amount>
    requires HasAmounts(l)
  {
    if l.wash.Some? then Some(l.wash.value.word) else None
  }

  /** The sale line `MM/DD/YYYY GROSS` at index `k`, or why there is none. */
  function SaleAt(lines: seq<string>, k: nat): Result<string, Failure> {
    if k >= |lines| then Err(MissingLine)
    else
      match MatchSaleLine(lines[k])
      case None => Err(BadLine(k + 1))
      case Some(date) => Ok(date)
  }

  /**
   * The record whose CUSIP line is at index `i`: the joined layout is tried
   * first, then a description line followed by a date line; the symbol must
   * be the one registered for the CUSIP, and a sale line ends the record.
   */
  function ReadRecordAt(lines: seq<string>, i: nat, cat: Category): (r: Result<Entry, Failure>)
    requires i < |lines|
    ensures r.Ok? ==> r.value.start == i && r.value.category == cat && i + Span(r.value) <= |lines|
  {
    if |lines| < i + 3 then Err(Truncated)
    else
      var cusip := lines[i];
      var joined := MatchCombined(lines[i + 1]);
      if joined.Some? then
        var (d, l) := joined.value;
        if Cusips[d.symbol] != cusip then Err(SymbolMismatch(d.symbol, cusip))
        else
          var sale := SaleAt(lines, i + 2);
          if sale.Err? then Err(sale.error)
          else Ok(Entry(i, cat, true, cusip, d.symbol, lines[i + 1], l.acquired, l.proceeds.word, l.basis.word, WashOf(l), sale.value))
      else
        var description := MatchDescription(lines[i + 1]);
        if description.None? then Err(BadLine(i + 2))
        else
          var d := description.value;
          if Cusips[d.symbol] != cusip then Err(SymbolMismatch(d.symbol, cusip))
          else
            var dateLine := MatchDateLine(lines[i + 2]);
            if dateLine.None? then Err(BadLine(i + 3))
            else
              var l := dateLine.value;
              var sale := SaleAt(lines, i + 3);
              if sale.Err? then Err(sale.error)
              else Ok(Entry(i, cat, false, cusip, d.symbol, lines[i + 1], l.acquired, l.proceeds.word, l.basis.word, WashOf(l), sale.value))
  }

  /** The records read and, when the run stops early, why. */
  datatype Scan = Scan(entries: seq<Entry>, failure: Option<Failure>)

  /**
   * The scan from line `i` with category `cat` in force: a marker line sets
   * the category, any other line that is not a CUSIP is skipped, a CUSIP
   * line with no category stops the run, and a CUSIP line otherwise starts a
   * record and the scan goes on after it.
   */
  function ScanFrom(lines: seq<string>, i: nat, cat: Option<Category>): Scan
    decreases |lines| - i
  {
    if i >= |lines| then Scan([], None)
    else
      var marker := FindMarker(lines[i]);
      if marker.Some? then ScanFrom(lines, i + 1, Some(marker.value))
      else if lines[i] !in Cusips.Values then ScanFrom(lines, i + 1, cat)
      else if cat.None? then Scan([], Some(NoCategory))
      else
        match ReadRecordAt(lines, i, cat.value)
        case Err(f) => Scan([], Some(f))
        case Ok(e) =>
          var rest := ScanFrom(lines, i + Span(e), cat);
          Scan([e] + rest.entries, rest.failure)
  }

  /** The records of a whole statement. */
  function ScanLines(lines: seq<string>): Scan {
    ScanFrom(lines, 0, None)
  }

  /* ---------------------------------------------------------------- totals */

  /** One category's sums; `Totals()` starts each at zero. */
  datatype Totals = Totals(proceeds: real, basis: real, wash: real)

  /** The value of a decimal. */
  function Value(d: Decimal): real {
    (Scaled(d) as real) / (Pow10(d.scale) as real)
  }

  /** The decimal an amount denotes once its commas are dropped. */
  function AmountDecimal(t: Amount): Decimal {
    var p := IndexOf(t, '.');
    var whole, frac := Remove(t[..p], ','), t[p + 1..];
    WholeDigits(t[..p]);
    AllDigitsAppend(whole, frac);
    Decimal(false, DigitsValue(whole + frac), |frac|)
  }

  lemma WholeDigits(s: string)
    requires forall k :: 0 <= k < |s| ==> IsDigit(s[k]) || s[k] == ','
    ensures AllDigits(Remove(s, ','))
  {
    var r := Remove(s, ',');
    forall k | 0 <= k < |r|
      ensures IsDigit(r[k])
    {
      assert r[k] in s && r[k] != ',';
    }
  }

  /** `Decimal(t.replace(',', ''))` as a number. */
  function AmountValue(t: Amount): real {
    Value(AmountDecimal(t))
  }

  function WashValue(w: Option<Amount>): real {
    if w.Some? then AmountValue(w.value) else 0.0
  }

  /** `totals[c]` of the `defaultdict`: a fresh zero `Totals` for a category not yet seen. */
  function Get(totals: map<Category, Totals>, c: Category): Totals {
    if c in totals then totals[c] else Totals(0.0, 0.0, 0.0)
  }

  /** The totals after one record of category `e.category`. */
  function AddEntry(totals: map<Category, Totals>, e: Entry): map<Category, Totals> {
    var t := Get(totals, e.category);
    totals[e.category := Totals(t.proceeds + AmountValue(e.proceeds), t.basis + AmountValue(e.basis),
                                t.wash + WashValue(e.wash))]
  }

  /** The totals after the records `es`, in order. */
  function TotalsOf(es: seq<Entry>): map<Category, Totals> {
    if |es| == 0 then map[] else AddEntry(TotalsOf(es[..|es| - 1]), es[|es| - 1])
  }

  /** The records of category `c`, in order. */
  function InCategory(es: seq<Entry>, c: Category): seq<Entry> {
    if |es| == 0 then []
    else InCategory(es[..|es| - 1], c) + (if es[|es| - 1].category == c then [es[|es| - 1]] else [])
  }

  function ProceedsSum(es: seq<Entry>): real {
    if |es| == 0 then 0.0 else ProceedsSum(es[..|es| - 1]) + AmountValue(es[|es| - 1].proceeds)
  }

  function BasisSum(es: seq<Entry>): real {
    if |es| == 0 then 0.0 else BasisSum(es[..|es| - 1]) + AmountValue(es[|es| - 1].basis)
  }

  /** The sum of the wash amounts present; a record without one adds nothing. */
  function WashSum(es: seq<Entry>): real {
    if |es| == 0 then 0.0 else WashSum(es[..|es| - 1]) + WashValue(es[|es| - 1].wash)
  }

  /* ---------------------------------------------------------------- output */

  /** Each field as its op followed by its value (`'%s%s' % field`). */
  function FieldLines(fields: seq<(string, string)>): seq<string> {
    if |fields| == 0 then [] else FieldLines(fields[..|fields| - 1]) + [fields[|fields| - 1].0 + fields[|fields| - 1].1]
  }

  /** `TxfRecord.__str__`: the field lines and `^`, joined with newlines. */
  function RecordText(fields: seq<(string, string)>): string {
    JoinOn(FieldLines(fields) + ["^"], '\n')
  }

  /** A TXF record under construction: its fields, in the order they were added. */
  class TxfRecord {
    var fields: seq<(string, string)>

    constructor ()
      ensures fields == []
    {
      fields := [];
    }

    method AddField(op: string, value: string)
      modifies this
      ensures fields == old(fields) + [(op, value)]
    {
      fields := fields + [(op, value)];
    }

    function Text(): string
      reads this
    {
      RecordText(fields)
    }
  }

  /** The fields of the TXF header. */
  function HeaderFields(today: Date): seq<(string, string)> {
    [("V", "042"), ("A", "Self"), ("D", RenderDate(today))]
  }

  /** The fields of a record's TXF block; the category's reference number is printed in decimal. */
  function EntryFields(e: Entry): seq<(string, string)> {
    OpeningFields(e) + ClosingFields(e)
  }

  /** Record type, reference number, description and acquisition date. */
  function OpeningFields(e: Entry): seq<(string, string)> {
    [("T", "D"), ("N", NatToString(Categories[e.category])), ("P", e.description), ("D", e.acquired)]
  }

  /** Sale date, cost basis, proceeds and, when there is one, the wash amount. */
  function ClosingFields(e: Entry): seq<(string, string)> {
    [("D", e.sold), ("$", e.basis), ("$", e.proceeds)] + (if e.wash.Some? then [("$", e.wash.value)] else [])
  }

  function Texts(es: seq<Entry>): seq<string> {
    if |es| == 0 then [] else Texts(es[..|es| - 1]) + [RecordText(EntryFields(es[|es| - 1]))]
  }

  /** The output file after the records `es`: the header, then each record, each printed on its own. */
  function Output(today: Date, es: seq<Entry>): string {
    Terminated([RecordText(HeaderFields(today))] + Texts(es))
  }

  /* --------------------------------------------------------------- methods */

  /** Builds and prints the TXF header. */
  method WriteHeader(today: Date) returns (text: string)
    ensures text == RecordText(HeaderFields(today))
  {
    var header := new TxfRecord();
    header.AddField("V", "042");
    header.AddField("A", "Self");
    header.AddField("D", RenderDate(today));
    assert header.fields == HeaderFields(today);
    text := header.Text();
  }

  /** Builds and prints the TXF record of one entry. */
  method EmitRecord(e: Entry) returns (text: string)
    ensures text == RecordText(EntryFields(e))
  {
    var item := new TxfRecord();
    AddOpening(item, e);
    AddClosing(item, e);
    assert [] + OpeningFields(e) + ClosingFields(e) == EntryFields(e);
    text := item.Text();
  }

  method AddOpening(item: TxfRecord, e: Entry)
    modifies item
    ensures item.fields == old(item.fields) + OpeningFields(e)
  {
    item.AddField("T", "D");
    item.AddField("N", NatToString(Categories[e.category]));
    item.AddField("P", e.description);
    item.AddField("D", e.acquired);
  }

  method AddClosing(item: TxfRecord, e: Entry)
    modifies item
    ensures item.fields == old(item.fields) + ClosingFields(e)
  {
    item.AddField("D", e.sold);
    item.AddField("$", e.basis);
    item.AddField("$", e.proceeds);
    if e.wash.Some? {
      item.AddField("$", e.wash.value);
    }
  }

  /** Reads the record whose CUSIP line is at `start`, moving a cursor line by line. */
  method ReadRecord(lines: seq<string>, start: nat, cat: Category) returns (r: Result<Entry, Failure>)
    requires start < |lines|
    ensures r == ReadRecordAt(lines, start, cat)
  {
    if |lines| < start + 3 {
      return Err(Truncated);
    }
    var cusip := lines[start];
    var inputLine := start + 1;
    var line := lines[inputLine];
    var joined := MatchCombined(line);
    var symbol, description, dateLine;
    if joined.Some? {
      symbol := joined.value.0.symbol;
      if Cusips[symbol] != cusip {
        return Err(SymbolMismatch(symbol, cusip));
      }
      description := line;
      dateLine := joined.value.1;
    } else {
      var m := MatchDescription(line);
      if m.None? {
        return Err(BadLine(inputLine + 1));
      }
      symbol := m.value.symbol;
      if Cusips[symbol] != cusip {
        return Err(SymbolMismatch(symbol, cusip));
      }
      description := line;
      inputLine := inputLine + 1;
      line := lines[inputLine];
      var l := MatchDateLine(line);
      if l.None? {
        return Err(BadLine(inputLine + 1));
      }
      dateLine := l.value;
    }
    inputLine := inputLine + 1;
    if inputLine >= |lines| {
      return Err(MissingLine);
    }
    line := lines[inputLine];
    var sale := MatchSaleLine(line);
    if sale.None? {
      return Err(BadLine(inputLine + 1));
    }
    return Ok(Entry(start, cat, joined.Some?, cusip, symbol, description, dateLine.acquired,
                    dateLine.proceeds.word, dateLine.basis.word, WashOf(dateLine), sale.value));
  }

  /** Adds a record's amounts to the totals of its category, field by field. */
  method AddToTotals(totals: map<Category, Totals>, e: Entry) returns (updated: map<Category, Totals>)
    ensures updated == AddEntry(totals, e)
  {
    var t := Get(totals, e.category);
    t := t.(proceeds := t.proceeds + AmountValue(e.proceeds));
    t := t.(basis := t.basis + AmountValue(e.basis));
    if e.wash.Some? {
      t := t.(wash := t.wash + AmountValue(e.wash.value));
    }
    updated := totals[e.category := t];
  }

  /** The scan `s` after the records `done`. */
  function After(done: seq<Entry>, s: Scan): Scan {
    Scan(done + s.entries, s.failure)
  }

  /**
   * The script's main loop over the statement's lines: the output file it
   * writes (kept up to the point where it stops), why it stopped early if it
   * did, and the totals of each category.
   */
  method Convert(lines: seq<string>, today: Date) returns (output: string, failure: Option<Failure>, totals: map<Category, Totals>)
    ensures failure == ScanLines(lines).failure
    ensures output == Output(today, ScanLines(lines).entries)
    ensures totals == TotalsOf(ScanLines(lines).entries)
  {
    var header := WriteHeader(today);
    output := header + "\n";
    totals := map[];
    failure := None;
    var inputLine := 0;
    var category: Option<Category> := None;
    ghost var done: seq<Entry> := [];
    assert Output(today, done) == header + "\n" + Terminated([]);
    while inputLine < |lines|
      invariant ScanLines(lines) == After(done, ScanFrom(lines, inputLine, category))
      invariant output == Output(today, done)
      invariant totals == TotalsOf(done)
      decreases |lines| - inputLine
    {
      var line := lines[inputLine];
      var marker := FindMarker(line);
      if marker.Some? {
        MarkerStep(lines, inputLine, category, done, marker.value);
        category := Some(marker.value);
        inputLine := inputLine + 1;
        continue;
      }
      if line !in Cusips.Values {
        SkipStep(lines, inputLine, category, done);
        inputLine := inputLine + 1;
        continue;
      }
      if category.None? {
        StopStep(lines, inputLine, category, done, NoCategory);
        failure := Some(NoCategory);
        return;
      }
      var r := ReadRecord(lines, inputLine, category.value);
      if r.Err? {
        StopStep(lines, inputLine, category, done, r.error);
        failure := Some(r.error);
        return;
      }
      var e := r.value;
      ScanStep(lines, inputLine, category, done, e);
      inputLine := inputLine + Span(e);
      output, totals := Record(today, done, e, output, totals);
      done := done + [e];
    }
    EndStep(lines, inputLine, category, done);
  }

  /** One record read: its amounts go into the totals and its TXF text into the output. */
  method Record(today: Date, ghost done: seq<Entry>, e: Entry, output: string, totals: map<Category, Totals>)
    returns (output': string, totals': map<Category, Totals>)
    requires output == Output(today, done) && totals == TotalsOf(done)
    ensures output' == Output(today, done + [e]) && totals' == TotalsOf(done + [e])
  {
    TotalsSnoc(done, e);
    totals' := AddToTotals(totals, e);
    var text := EmitRecord(e);
    OutputSnoc(today, done, e);
    output' := output + text + "\n";
  }

  /** A marker line sets the category. */
  lemma MarkerStep(lines: seq<string>, i: nat, cat: Option<Category>, done: seq<Entry>, c: Category)
    requires i < |lines| && FindMarker(lines[i]) == Some(c)
    ensures After(done, ScanFrom(lines, i, cat)) == After(done, ScanFrom(lines, i + 1, Some(c)))
  {
  }

  /** A line that is neither a marker nor a CUSIP is skipped. */
  lemma SkipStep(lines: seq<string>, i: nat, cat: Option<Category>, done: seq<Entry>)
    requires i < |lines| && FindMarker(lines[i]).None? && lines[i] !in Cusips.Values
    ensures After(done, ScanFrom(lines, i, cat)) == After(done, ScanFrom(lines, i + 1, cat))
  {
  }

  /** Past the last line the scan adds nothing. */
  lemma EndStep(lines: seq<string>, i: nat, cat: Option<Category>, done: seq<Entry>)
    requires i >= |lines|
    ensures After(done, ScanFrom(lines, i, cat)) == Scan(done, None)
  {
    assert done + [] == done;
  }

  /** A CUSIP line where the scan stops: nothing after `done` is read. */
  lemma StopStep(lines: seq<string>, i: nat, cat: Option<Category>, done: seq<Entry>, f: Failure)
    requires i < |lines| && FindMarker(lines[i]).None? && lines[i] in Cusips.Values
    requires if cat.None? then f == NoCategory else ReadRecordAt(lines, i, cat.value) == Err(f)
    ensures After(done, ScanFrom(lines, i, cat)) == Scan(done, Some(f))
  {
    assert done + [] == done;
  }

  lemma ScanStep(lines: seq<string>, i: nat, cat: Option<Category>, done: seq<Entry>, e: Entry)
    requires i < |lines| && FindMarker(lines[i]).None? && lines[i] in Cusips.Values && cat.Some?
    requires ReadRecordAt(lines, i, cat.value) == Ok(e)
    ensures After(done, ScanFrom(lines, i, cat)) == After(done + [e], ScanFrom(lines, i + Span(e), cat))
  {
    var rest := ScanFrom(lines, i + Span(e), cat);
    ScanRecord(lines, i, cat, e);
    AfterCons(done, e, rest);
  }

  lemma ScanRecord(lines: seq<string>, i: nat, cat: Option<Category>, e: Entry)
    requires i < |lines| && FindMarker(lines[i]).None? && lines[i] in Cusips.Values && cat.Some?
    requires ReadRecordAt(lines, i, cat.value) == Ok(e)
    ensures ScanFrom(lines, i, cat) == Scan([e] + ScanFrom(lines, i + Span(e), cat).entries, ScanFrom(lines, i + Span(e), cat).failure)
  {
  }

  lemma AfterCons(done: seq<Entry>, e: Entry, rest: Scan)
    ensures After(done, Scan([e] + rest.entries, rest.failure)) == After(done + [e], rest)
  {
    assert done + ([e] + rest.entries) == done + [e] + rest.entries;
  }

  lemma TotalsSnoc(done: seq<Entry>, e: Entry)
    ensures TotalsOf(done + [e]) == AddEntry(TotalsOf(done), e)
  {
    var n := done + [e];
    assert n[..|n| - 1] == done && n[|n| - 1] == e;
  }

  lemma OutputSnoc(today: Date, done: seq<Entry>, e: Entry)
    ensures Output(today, done + [e]) == Output(today, done) + RecordText(EntryFields(e)) + "\n"
  {
    var ts := [RecordText(HeaderFields(today))] + Texts(done);
    var t := RecordText(EntryFields(e));
    assert (done + [e])[..|done + [e]| - 1] == done;
    assert [RecordText(HeaderFields(today))] + Texts(done + [e]) == ts + [t];
    TerminatedAppend(ts, [t]);
    assert Terminated([t]) == t + "\n" + Terminated([]);
  }

  /* ------------------------------------------------------- category marker */

  /** The category set by the last marker line before index `k`, if any. */
  function CategoryAt(lines: seq<string>, k: nat): Option<Category>
    requires k <= |lines|
  {
    if k == 0 then None
    else
      var marker := FindMarker(lines[k - 1]);
      if marker.Some? then Some(marker.value) else CategoryAt(lines, k - 1)
  }

  /** A registered CUSIP is too short to hold a marker. */
  lemma CusipHasNoMarker(line: string)
    requires line in Cusips.Values
    ensures FindMarker(line).None?
  {
    FindMarkerLeftmost(line, 0);
  }

  /** A record carries the symbol of its description and the date and amounts of its date line. */
  predicate Carries(e: Entry, d: Description, l: DateLine) {
    e.symbol == d.symbol && e.acquired == l.acquired && e.proceeds == l.proceeds.word && e.basis == l.basis.word
    && (e.wash.Some? <==> l.wash.Some?) && (l.wash.Some? ==> e.wash.value == l.wash.value.word)
  }

  /** What a record read at `i` rests on: the CUSIP, the lines its patterns matched, and the sale line. */
  lemma RecordMatches(lines: seq<string>, i: nat, cat: Category)
    requires i < |lines| && ReadRecordAt(lines, i, cat).Ok?
    ensures var e := ReadRecordAt(lines, i, cat).value;
            e.cusip == lines[i] && e.description == lines[i + 1] && Cusips[e.symbol] == e.cusip
            && MatchSaleLine(lines[i + Span(e) - 1]) == Some(e.sold)
            && (e.joined <==> MatchCombined(lines[i + 1]).Some?)
            && (e.joined ==> Carries(e, MatchCombined(lines[i + 1]).value.0, MatchCombined(lines[i + 1]).value.1))
            && (!e.joined ==> MatchDescription(lines[i + 1]).Some? && MatchDateLine(lines[i + 2]).Some?
                              && Carries(e, MatchDescription(lines[i + 1]).value, MatchDateLine(lines[i + 2]).value))
  {
  }

  /** The lines of a record read at `i` hold no marker. */
  lemma RecordHasNoMarker(lines: seq<string>, i: nat, cat: Category)
    requires i < |lines| && lines[i] in Cusips.Values && ReadRecordAt(lines, i, cat).Ok?
    ensures var e := ReadRecordAt(lines, i, cat).value;
            FindMarker(lines[i]).None? && FindMarker(lines[i + 1]).None? && FindMarker(lines[i + 2]).None?
            && (!e.joined ==> FindMarker(lines[i + 3]).None?)
  {
    var e := ReadRecordAt(lines, i, cat).value;
    CusipHasNoMarker(lines[i]);
    RecordMatches(lines, i, cat);
    RecordLinesHaveNoMarker(lines[i + 1]);
    RecordLinesHaveNoMarker(lines[i + 2]);
    if !e.joined {
      RecordLinesHaveNoMarker(lines[i + 3]);
    }
  }

  /** The category after a record is the one before it. */
  lemma CategoryAcross(lines: seq<string>, i: nat, cat: Category)
    requires i < |lines| && lines[i] in Cusips.Values && ReadRecordAt(lines, i, cat).Ok?
    ensures CategoryAt(lines, i + Span(ReadRecordAt(lines, i, cat).value)) == CategoryAt(lines, i)
  {
    var e := ReadRecordAt(lines, i, cat).value;
    RecordHasNoMarker(lines, i, cat);
    NoMarkerSpan(lines, i, Span(e));
    CategorySkips(lines, i, i + Span(e));
  }

  /** The three or four lines of a record, none of which holds a marker. */
  lemma NoMarkerSpan(lines: seq<string>, i: nat, n: nat)
    requires (n == 3 || n == 4) && i + n <= |lines|
    requires FindMarker(lines[i]).None? && FindMarker(lines[i + 1]).None? && FindMarker(lines[i + 2]).None?
    requires n == 4 ==> FindMarker(lines[i + 3]).None?
    ensures forall k :: i <= k < i + n ==> FindMarker(lines[k]).None?
  {
  }

  /** Lines without a marker leave the category as it was. */
  lemma {:induction false} CategorySkips(lines: seq<string>, i: nat, j: nat)
    requires i <= j <= |lines| && forall k :: i <= k < j ==> FindMarker(lines[k]).None?
    ensures CategoryAt(lines, j) == CategoryAt(lines, i)
    decreases j - i
  {
    if i < j {
      CategorySkips(lines, i, j - 1);
    }
  }

  /** Each record is filed under the category of the last marker line above its CUSIP line. */
  predicate FiledUnderMarkers(lines: seq<string>, es: seq<Entry>) {
    forall k :: 0 <= k < |es| ==> es[k].start < |lines| && CategoryAt(lines, es[k].start) == Some(es[k].category)
  }

  /**
   * A marker sets the category and it stays in force until the next marker:
   * every record is filed under the letter of the last marker line above
   * its CUSIP line.
   */
  lemma {:induction false} CategoryPersists(lines: seq<string>, i: nat, cat: Option<Category>)
    requires i <= |lines| && cat == CategoryAt(lines, i)
    ensures FiledUnderMarkers(lines, ScanFrom(lines, i, cat).entries)
    decreases |lines| - i
  {
    if i < |lines| {
      var marker := FindMarker(lines[i]);
      if marker.Some? {
        CategoryPersists(lines, i + 1, Some(marker.value));
      } else if lines[i] !in Cusips.Values {
        CategoryPersists(lines, i + 1, cat);
      } else if cat.Some? && ReadRecordAt(lines, i, cat.value).Ok? {
        var e := ReadRecordAt(lines, i, cat.value).value;
        CategoryAcross(lines, i, cat.value);
        CategoryPersists(lines, i + Span(e), cat);
        ScanRecord(lines, i, cat, e);
        assert e.start == i && Some(e.category) == cat;
        FiledCons(lines, e, ScanFrom(lines, i + Span(e), cat).entries);
      }
    }
  }

  lemma FiledCons(lines: seq<string>, e: Entry, rest: seq<Entry>)
    requires e.start < |lines| && CategoryAt(lines, e.start) == Some(e.category)
    requires FiledUnderMarkers(lines, rest)
    ensures FiledUnderMarkers(lines, [e] + rest)
  {
    var es := [e] + rest;
    forall k | 0 <= k < |es|
      ensures es[k].start < |lines| && CategoryAt(lines, es[k].start) == Some(es[k].category)
    {
      if k > 0 {
        assert es[k] == rest[k - 1];
      }
    }
  }

  /** Over a whole statement: every record is filed under the last marker above it. */
  lemma CategoryOfRecords(lines: seq<string>)
    ensures FiledUnderMarkers(lines, ScanLines(lines).entries)
  {
    CategoryPersists(lines, 0, None);
  }

  /** A CUSIP line with no marker above it stops the run before any record is read. */
  lemma UncategorisedCusip(lines: seq<string>, k: nat)
    requires k < |lines| && lines[k] in Cusips.Values && CategoryAt(lines, k).None?
    ensures ScanLines(lines) == Scan([], Some(NoCategory))
  {
    NoCategoryBefore(lines, 0, k);
  }

  lemma {:induction false} NoCategoryBefore(lines: seq<string>, i: nat, k: nat)
    requires i <= k < |lines| && lines[k] in Cusips.Values && CategoryAt(lines, k).None?
    ensures ScanFrom(lines, i, None) == Scan([], Some(NoCategory))
    decreases k - i
  {
    CusipHasNoMarker(lines[k]);
    if i < k {
      NoMarkerBefore(lines, k, i);
    }
    if i < k && lines[i] !in Cusips.Values {
      NoCategoryBefore(lines, i + 1, k);
    }
  }

  lemma {:induction false} NoMarkerBefore(lines: seq<string>, k: nat, i: nat)
    requires i < k <= |lines| && CategoryAt(lines, k).None?
    ensures FindMarker(lines[i]).None?
    decreases k - i
  {
    if i < k - 1 {
      NoMarkerBefore(lines, k - 1, i);
    }
  }

  /* ------------------------------------------------------------ CUSIP gate */

  /** The registered CUSIPs. */
  lemma CusipValues()
    ensures Cusips.Values == {"02079K305", "02079K107"}
  {
    assert Cusips["GOOGL"] == "02079K305" && Cusips["GOOG"] == "02079K107";
  }

  /** A CUSIP line matches none of the record patterns. */
  lemma CusipIsNoRecordLine(line: string)
    requires line in Cusips.Values
    ensures MatchCombined(line).None? && MatchDescription(line).None? && MatchDateLine(line).None?
            && MatchSaleLine(line).None?
  {
    CusipValues();
    NoSpaceNoHead(line);
  }

  lemma NoSpaceNoHead(line: string)
    requires ' ' !in line
    ensures MatchDescriptionHead(line).None?
  {
    assert IndexOf(line, ' ') == |line|;
  }

  /** The lines of a record after its CUSIP line are not CUSIPs. */
  lemma RecordLinesAreNotCusips(lines: seq<string>, i: nat, cat: Category)
    requires i < |lines| && ReadRecordAt(lines, i, cat).Ok?
    ensures var e := ReadRecordAt(lines, i, cat).value;
            lines[i + 1] !in Cusips.Values && lines[i + 2] !in Cusips.Values
            && (!e.joined ==> lines[i + 3] !in Cusips.Values)
  {
    var e := ReadRecordAt(lines, i, cat).value;
    RecordMatches(lines, i, cat);
    if lines[i + 1] in Cusips.Values {
      CusipIsNoRecordLine(lines[i + 1]);
    }
    if lines[i + 2] in Cusips.Values {
      CusipIsNoRecordLine(lines[i + 2]);
    }
    if !e.joined && lines[i + 3] in Cusips.Values {
      CusipIsNoRecordLine(lines[i + 3]);
    }
  }

  /** The CUSIP line of each record, in order. */
  function Starts(es: seq<Entry>): seq<nat> {
    if |es| == 0 then [] else [es[0].start] + Starts(es[1..])
  }

  /** Every record starts at a CUSIP line at or after `i`. */
  predicate StartAtCusips(lines: seq<string>, i: nat, es: seq<Entry>) {
    forall k :: 0 <= k < |es| ==> i <= es[k].start < |lines| && lines[es[k].start] in Cusips.Values
  }

  /** Every CUSIP line at or after `i` starts a record. */
  predicate CoversCusips(lines: seq<string>, i: nat, es: seq<Entry>) {
    forall j :: i <= j < |lines| && lines[j] in Cusips.Values ==> j in Starts(es)
  }

  /**
   * Only a line that is exactly a registered CUSIP starts a record, and when
   * the run does not stop early every such line starts one: no CUSIP line is
   * skipped or swallowed by the record above it.
   */
  lemma {:induction false} CusipGate(lines: seq<string>, i: nat, cat: Option<Category>)
    requires i <= |lines|
    ensures StartAtCusips(lines, i, ScanFrom(lines, i, cat).entries)
    ensures ScanFrom(lines, i, cat).failure.None? ==> CoversCusips(lines, i, ScanFrom(lines, i, cat).entries)
    decreases |lines| - i
  {
    if i < |lines| {
      var marker := FindMarker(lines[i]);
      if marker.Some? || lines[i] !in Cusips.Values {
        var next := if marker.Some? then Some(marker.value) else cat;
        CusipGate(lines, i + 1, next);
        if lines[i] in Cusips.Values {
          CusipHasNoMarker(lines[i]);
        }
        assert ScanFrom(lines, i, cat) == ScanFrom(lines, i + 1, next);
      } else if cat.Some? && ReadRecordAt(lines, i, cat.value).Ok? {
        var e := ReadRecordAt(lines, i, cat.value).value;
        CusipGate(lines, i + Span(e), cat);
        RecordLinesAreNotCusips(lines, i, cat.value);
        ScanRecord(lines, i, cat, e);
        GateStep(lines, i, e, ScanFrom(lines, i + Span(e), cat).entries);
      }
    }
  }

  /** A record at a CUSIP line, followed by records that keep the gate, keeps the gate. */
  lemma GateStep(lines: seq<string>, i: nat, e: Entry, rest: seq<Entry>)
    requires e.start == i && i + Span(e) <= |lines| && lines[i] in Cusips.Values
    requires lines[i + 1] !in Cusips.Values && lines[i + 2] !in Cusips.Values
             && (!e.joined ==> lines[i + 3] !in Cusips.Values)
    requires StartAtCusips(lines, i + Span(e), rest)
    ensures StartAtCusips(lines, i, [e] + rest)
    ensures CoversCusips(lines, i + Span(e), rest) ==> CoversCusips(lines, i, [e] + rest)
  {
    var es := [e] + rest;
    assert Starts(es) == [i] + Starts(rest) by {
      assert es[1..] == rest;
    }
    forall k | 0 <= k < |es|
      ensures i <= es[k].start < |lines| && lines[es[k].start] in Cusips.Values
    {
      if k > 0 {
        assert es[k] == rest[k - 1];
      }
    }
  }

  /** Over a whole statement: the records start exactly at the CUSIP lines, unless the run stops early. */
  lemma RecordsAtCusips(lines: seq<string>)
    ensures StartAtCusips(lines, 0, ScanLines(lines).entries)
    ensures ScanLines(lines).failure.None? ==>
              forall j :: 0 <= j < |lines| ==> (lines[j] in Cusips.Values <==> j in Starts(ScanLines(lines).entries))
  {
    CusipGate(lines, 0, None);
    var es := ScanLines(lines).entries;
    forall j | 0 <= j < |lines| && j in Starts(es)
      ensures lines[j] in Cusips.Values
    {
      StartsOf(es, j);
    }
  }

  lemma {:induction false} StartsOf(es: seq<Entry>, j: nat)
    requires j in Starts(es)
    ensures exists k :: 0 <= k < |es| && es[k].start == j
  {
    if es[0].start != j {
      StartsOf(es[1..], j);
      var k :| 0 <= k < |es[1..]| && es[1..][k].start == j;
      assert es[k + 1].start == j;
    }
  }

  /* --------------------------------------------------------- record layout */

  /** A well-formed description of the share class registered for `cusip`. */
  predicate Registered(d: Description, cusip: string) {
    WellFormedDescription(d) && Cusips[d.symbol] == cusip
  }

  /** The description and the date line joined on the line after the CUSIP line at `i`. */
  predicate JoinedText(lines: seq<string>, i: nat, d: Description, l: DateLine) {
    i + 3 <= |lines| && WellFormedDateLine(l) && lines[i + 1] == DescriptionText(d) + " " + DateLineText(l)
  }

  /** The description and the date line each on its own line after the CUSIP line at `i`. */
  predicate SplitText(lines: seq<string>, i: nat, d: Description, l: DateLine) {
    i + 4 <= |lines| && WellFormedDateLine(l) && lines[i + 1] == DescriptionText(d) && lines[i + 2] == DateLineText(l)
  }

  /** `MM/DD/YYYY`, one whitespace character, `GROSS`. */
  predicate SaleText(line: string, date: string) {
    IsDateText(date) && |line| == 16 && IsSpace(line[10]) && line == date + [line[10]] + "GROSS"
  }

  /**
   * A record in the joined layout is read: a CUSIP line, one line holding a
   * description of the share class registered for that CUSIP, a space and a
   * date line, then the sale line.  The whole joined line becomes the
   * description.
   */
  lemma JoinedRecordRead(lines: seq<string>, i: nat, cat: Category, d: Description, l: DateLine, sold: string)
    requires JoinedText(lines, i, d, l) && Registered(d, lines[i]) && SaleText(lines[i + 2], sold)
    ensures ReadRecordAt(lines, i, cat)
            == Ok(Entry(i, cat, true, lines[i], d.symbol, lines[i + 1], l.acquired, l.proceeds.word, l.basis.word, WashOf(l), sold))
  {
    MatchCombinedComplete(d, l);
    MatchSaleLineExact(lines[i + 2], sold);
  }

  /**
   * A record in the four-line layout is read: a CUSIP line, a description
   * alone on its line, a date line, then the sale line.
   */
  lemma SplitRecordRead(lines: seq<string>, i: nat, cat: Category, d: Description, l: DateLine, sold: string)
    requires SplitText(lines, i, d, l) && Registered(d, lines[i]) && SaleText(lines[i + 3], sold)
    ensures ReadRecordAt(lines, i, cat)
            == Ok(Entry(i, cat, false, lines[i], d.symbol, lines[i + 1], l.acquired, l.proceeds.word, l.basis.word, WashOf(l), sold))
  {
    MatchDescriptionHeadComplete(d, "");
    assert DescriptionText(d) + "" == lines[i + 1];
    MatchDescriptionExact(lines[i + 1], d);
    MatchDateLineComplete(l);
    MatchSaleLineExact(lines[i + 3], sold);
  }

  /**
   * A record read keeps its CUSIP line and its description line as they
   * are, and its last line is the sale line of its sale date.
   */
  lemma RecordReadSound(lines: seq<string>, i: nat, cat: Category)
    requires i < |lines| && ReadRecordAt(lines, i, cat).Ok?
    ensures var e := ReadRecordAt(lines, i, cat).value;
            e.cusip == lines[i] && e.description == lines[i + 1] && SaleText(lines[i + Span(e) - 1], e.sold)
  {
    var e := ReadRecordAt(lines, i, cat).value;
    RecordBasics(lines, i, cat);
    SaleTextOf(lines[i + Span(e) - 1], e.sold);
  }

  /** The CUSIP, description and sale lines a record read at `i` rests on. */
  lemma RecordBasics(lines: seq<string>, i: nat, cat: Category)
    requires i < |lines| && ReadRecordAt(lines, i, cat).Ok?
    ensures var e := ReadRecordAt(lines, i, cat).value;
            e.cusip == lines[i] && e.description == lines[i + 1] && MatchSaleLine(lines[i + Span(e) - 1]) == Some(e.sold)
  {
  }

  lemma SaleTextOf(line: string, date: string)
    requires MatchSaleLine(line) == Some(date)
    ensures SaleText(line, date)
  {
    MatchSaleLineExact(line, date);
  }

  /**
   * Every record read is one of the two layouts above: its lines are
   * spelled out by well-formed trees whose symbol is registered for the
   * CUSIP line, and the record carries their symbol, date and amounts.
   */
  lemma RecordLayout(lines: seq<string>, i: nat, cat: Category)
    requires i < |lines| && ReadRecordAt(lines, i, cat).Ok?
    ensures var e := ReadRecordAt(lines, i, cat).value;
            exists d: Description, l: DateLine ::
              Registered(d, lines[i]) && Carries(e, d, l)
              && if e.joined then JoinedText(lines, i, d, l) else SplitText(lines, i, d, l)
  {
    var e := ReadRecordAt(lines, i, cat).value;
    RecordMatches(lines, i, cat);
    if e.joined {
      MatchCombinedSound(lines[i + 1]);
      var (d, l) := MatchCombined(lines[i + 1]).value;
      assert Registered(d, lines[i]) && Carries(e, d, l) && JoinedText(lines, i, d, l);
    } else {
      var d := MatchDescription(lines[i + 1]).value;
      var l := MatchDateLine(lines[i + 2]).value;
      MatchDescriptionExact(lines[i + 1], d);
      MatchDateLineSound(lines[i + 2]);
      assert Registered(d, lines[i]) && Carries(e, d, l) && SplitText(lines, i, d, l);
    }
  }

  /**
   * The symbol check: a description naming the share class not registered
   * for the CUSIP above it stops the run, in either layout.
   */
  lemma SymbolMismatchStops(lines: seq<string>, i: nat, cat: Category, d: Description, l: DateLine)
    requires i + 3 <= |lines| && WellFormedDescription(d) && Cusips[d.symbol] != lines[i]
    requires lines[i + 1] == DescriptionText(d) || JoinedText(lines, i, d, l)
    ensures ReadRecordAt(lines, i, cat) == Err(SymbolMismatch(d.symbol, lines[i]))
  {
    if lines[i + 1] == DescriptionText(d) {
      MatchDescriptionHeadComplete(d, "");
      assert DescriptionText(d) + "" == lines[i + 1];
      MatchDescriptionExact(lines[i + 1], d);
    } else {
      MatchCombinedComplete(d, l);
    }
  }

  /**
   * Where each early stop of a record comes from: too few lines at the
   * CUSIP, a line no pattern accepts (numbered from 1, one of the record's
   * lines), a symbol not registered for the CUSIP, or a four-line record cut
   * off before its sale line.
   */
  lemma RecordErrors(lines: seq<string>, i: nat, cat: Category)
    requires i < |lines| && ReadRecordAt(lines, i, cat).Err?
    ensures var f := ReadRecordAt(lines, i, cat).error;
            (f == Truncated <==> |lines| < i + 3)
            && (f.BadLine? ==> i + 2 <= f.number <= i + 4 && f.number <= |lines|)
            && (f.SymbolMismatch? ==> f.cusip == lines[i] && f.symbol in Cusips && Cusips[f.symbol] != lines[i])
            && (f == MissingLine ==> |lines| == i + 3 && MatchCombined(lines[i + 1]).None?)
            && f != NoCategory
  {
  }

  /* ---------------------------------------------------------------- totals */

  /** The amount read with its commas dropped is the decimal `Decimal()` makes of it. */
  lemma AmountParses(t: Amount)
    ensures ParseDecimal(Remove(t, ',')) == Some(AmountDecimal(t))
  {
    var p := IndexOf(t, '.');
    var head, frac := t[..p], t[p + 1..];
    assert Digits(frac);
    var whole := Remove(head, ',');
    WholeDigits(head);
    FractionDigits(frac);
    DropCommas(t, head, frac);
    PointedParses(whole, frac);
    UnsignedText(whole + "." + frac, DigitsValue(whole + frac), |frac|);
  }

  /** Text that starts with a digit or the point reads as an unsigned decimal. */
  lemma UnsignedText(text: string, m: nat, scale: nat)
    requires |text| > 0 && (text[0] == '.' || IsDigit(text[0]))
    requires ParseUnsigned(text) == Some((m, scale))
    ensures ParseDecimal(text) == Some(Decimal(false, m, scale))
  {
  }

  /** Dropping the commas of `head.frac` leaves the point and the fraction alone. */
  lemma DropCommas(t: string, head: string, frac: string)
    requires t == head + "." + frac && ',' !in frac
    ensures Remove(t, ',') == Remove(head, ',') + "." + frac
  {
    RemoveAppend(head + ".", frac, ',');
    RemoveAppend(head, ".", ',');
    RemoveAbsent(".", ',');
    RemoveAbsent(frac, ',');
  }

  lemma FractionDigits(frac: string)
    requires AllDigits(frac)
    ensures ',' !in frac
  {
    assert forall k :: 0 <= k < |frac| ==> IsDigit(frac[k]);
  }

  /**
   * The totals of each category are the sums over that category's records,
   * in order: proceeds and basis of every record, the wash amount only of
   * those that have one.
   */
  lemma {:induction false} TotalsByCategory(es: seq<Entry>, c: Category)
    ensures Get(TotalsOf(es), c) == SumsOf(InCategory(es, c))
  {
    if |es| > 0 {
      var init, e := es[..|es| - 1], es[|es| - 1];
      TotalsByCategory(init, c);
      assert TotalsOf(es) == AddEntry(TotalsOf(init), e);
      assert InCategory(es, c) == InCategory(init, c) + (if e.category == c then [e] else []);
      TotalsStep(TotalsOf(init), InCategory(init, c), e, c);
    }
  }

  /** The proceeds, basis and wash sums of `es`, as one `Totals`. */
  function SumsOf(es: seq<Entry>): Totals {
    Totals(ProceedsSum(es), BasisSum(es), WashSum(es))
  }

  /** One more record changes the totals of its own category only, by its amounts. */
  lemma TotalsStep(totals: map<Category, Totals>, s: seq<Entry>, e: Entry, c: Category)
    requires Get(totals, c) == SumsOf(s)
    ensures Get(AddEntry(totals, e), c) == SumsOf(s + (if e.category == c then [e] else []))
  {
    if e.category == c {
      SumsSnoc(s, e);
    } else {
      assert s + [] == s;
    }
  }

  lemma SumsSnoc(s: seq<Entry>, e: Entry)
    ensures ProceedsSum(s + [e]) == ProceedsSum(s) + AmountValue(e.proceeds)
    ensures BasisSum(s + [e]) == BasisSum(s) + AmountValue(e.basis)
    ensures WashSum(s + [e]) == WashSum(s) + WashValue(e.wash)
  {
    assert (s + [e])[..|s|] == s;
  }

  /** A category has totals exactly when one of its records was read. */
  lemma {:induction false} TotalsKeys(es: seq<Entry>, c: Category)
    ensures c in TotalsOf(es) <==> |InCategory(es, c)| > 0
  {
    if |es| > 0 {
      TotalsKeys(es[..|es| - 1], c);
    }
  }

  /** Over a whole statement: the totals written beside the output are the per-category sums. */
  lemma ConvertTotals(lines: seq<string>, c: Category)
    ensures var es := ScanLines(lines).entries;
            (c in TotalsOf(es) <==> |InCategory(es, c)| > 0) && Get(TotalsOf(es), c) == SumsOf(InCategory(es, c))
  {
    TotalsKeys(ScanLines(lines).entries, c);
    TotalsByCategory(ScanLines(lines).entries, c);
  }

  /* ----------------------------------------------------------- output lines */

  /** None of a record's text fields holds a line break. */
  predicate OneLine(e: Entry) {
    '\n' !in e.description && '\n' !in e.acquired && '\n' !in e.sold
  }

  /** The header as it appears in the output file, line by line. */
  function HeaderLines(today: Date): seq<string> {
    ["V042", "ASelf", "D" + RenderDate(today), "^"]
  }

  /** A record's TXF block as it appears in the output file, line by line. */
  function EntryLines(e: Entry): seq<string> {
    ["TD", "N" + NatToString(Categories[e.category]), "P" + e.description, "D" + e.acquired, "D" + e.sold,
     "$" + e.basis, "$" + e.proceeds]
    + (if e.wash.Some? then ["$" + e.wash.value] else []) + ["^"]
  }

  /** The blocks of the records `es`, in order. */
  function Blocks(es: seq<Entry>): seq<seq<string>> {
    if |es| == 0 then [] else Blocks(es[..|es| - 1]) + [EntryLines(es[|es| - 1])]
  }

  lemma FieldLinesSnoc(fields: seq<(string, string)>, f: (string, string))
    ensures FieldLines(fields + [f]) == FieldLines(fields) + [f.0 + f.1]
  {
    assert (fields + [f])[..|fields|] == fields;
  }

  lemma AmountOneLine(t: Amount)
    ensures '\n' !in t
  {
    var p := IndexOf(t, '.');
    forall k | 0 <= k < |t|
      ensures t[k] != '\n'
    {
      if k > p {
        assert t[k] == t[p + 1..][k - p - 1];
      }
    }
  }

  lemma DigitsOneLine(s: string)
    requires AllDigits(s)
    ensures '\n' !in s
  {
    assert forall k :: 0 <= k < |s| ==> IsDigit(s[k]);
  }

  lemma DateOneLine(d: Date)
    ensures '\n' !in RenderDate(d)
  {
    DigitsOneLine(ZeroPad(NatToString(d.month), 2));
    DigitsOneLine(ZeroPad(NatToString(d.day), 2));
    DigitsOneLine(ZeroPad(NatToString(d.year), 4));
  }

  /** Fields `fs` print as `lines` when each field's op and value make its line. */
  lemma FieldLinesOfEach(fs: seq<(string, string)>, lines: seq<string>)
    requires |fs| == |lines| && forall k :: 0 <= k < |fs| ==> lines[k] == fs[k].0 + fs[k].1
    ensures FieldLines(fs) == lines
    decreases |fs|
  {
    if |fs| > 0 {
      FieldLinesOfEach(fs[..|fs| - 1], lines[..|lines| - 1]);
      assert lines == lines[..|lines| - 1] + [lines[|lines| - 1]];
    }
  }

  /** The header record prints as its four lines. */
  lemma HeaderText(today: Date)
    ensures Framed([RecordText(HeaderFields(today))], [HeaderLines(today)])
  {
    var fs := HeaderFields(today);
    var ls := HeaderLines(today)[..3];
    assert "V" + "042" == "V042" && "A" + "Self" == "ASelf";
    FieldLinesOfEach(fs, ls);
    assert FieldLines(fs) + ["^"] == HeaderLines(today);
    DateOneLine(today);
    FramedRecord(fs, HeaderLines(today));
  }

  /** A record prints as its block of lines, one field per line and `^` last. */
  lemma EntryText(e: Entry)
    requires OneLine(e)
    ensures Framed([RecordText(EntryFields(e))], [EntryLines(e)])
  {
    EntryFieldLines(e);
    EntryLinesOneLine(e);
    FramedRecord(EntryFields(e), EntryLines(e));
  }

  /** The field lines of a record, then `^`, are its block. */
  lemma EntryFieldLines(e: Entry)
    ensures FieldLines(EntryFields(e)) + ["^"] == EntryLines(e)
  {
    var fs := EntryFields(e);
    var ls := EntryLines(e)[..|EntryLines(e)| - 1];
    assert |fs| == |ls|;
    FieldLinesOfEach(fs, ls);
  }

  /** No line of a record's block holds a newline. */
  lemma EntryLinesOneLine(e: Entry)
    requires OneLine(e)
    ensures forall j :: 0 <= j < |EntryLines(e)| ==> '\n' !in EntryLines(e)[j]
  {
    DigitsOneLine(NatToString(Categories[e.category]));
    AmountOneLine(e.basis);
    AmountOneLine(e.proceeds);
    if e.wash.Some? {
      AmountOneLine(e.wash.value);
    }
  }

  /** Fields whose lines, then `^`, make `ls`, none holding a newline, print as the block `ls`. */
  lemma FramedRecord(fs: seq<(string, string)>, ls: seq<string>)
    requires FieldLines(fs) + ["^"] == ls
    requires forall j :: 0 <= j < |ls| ==> '\n' !in ls[j]
    ensures Framed([RecordText(fs)], [ls])
  {
  }

  lemma {:induction false} TextsFramed(es: seq<Entry>)
    requires forall k :: 0 <= k < |es| ==> OneLine(es[k])
    ensures Framed(Texts(es), Blocks(es))
  {
    if |es| > 0 {
      var init, e := es[..|es| - 1], es[|es| - 1];
      TextsFramed(init);
      EntryText(e);
      FramedAppend(Texts(init), Blocks(init), [RecordText(EntryFields(e))], [EntryLines(e)]);
    }
  }

  /**
   * The output file read back line by line: the header's lines, then each
   * record's block in the order the records were read, and nothing after
   * the final newline.
   */
  lemma OutputLines(today: Date, es: seq<Entry>)
    requires forall k :: 0 <= k < |es| ==> OneLine(es[k])
    ensures SplitOn(Output(today, es), '\n') == HeaderLines(today) + Concat(Blocks(es)) + [""]
  {
    HeaderText(today);
    TextsFramed(es);
    var ls, blocks := [RecordText(HeaderFields(today))] + Texts(es), [HeaderLines(today)] + Blocks(es);
    FramedAppend([RecordText(HeaderFields(today))], [HeaderLines(today)], Texts(es), Blocks(es));
    SplitTerminatedBlocks(ls, blocks);
    assert blocks[1..] == Blocks(es);
  }

  lemma DateTextOneLine(t: string)
    requires IsDateText(t)
    ensures '\n' !in t
  {
    assert forall k :: 0 <= k < 10 && k != 2 && k != 5 ==> IsDigit(t[k]);
  }

  /** A record read from lines without line breaks has none in its fields. */
  lemma RecordOneLine(lines: seq<string>, i: nat, cat: Category)
    requires i < |lines| && ReadRecordAt(lines, i, cat).Ok?
    requires forall k :: 0 <= k < |lines| ==> '\n' !in lines[k]
    ensures OneLine(ReadRecordAt(lines, i, cat).value)
  {
    var e := ReadRecordAt(lines, i, cat).value;
    RecordMatches(lines, i, cat);
    if e.joined {
      assert IsDateText(MatchCombined(lines[i + 1]).value.1.acquired);
    } else {
      assert IsDateText(MatchDateLine(lines[i + 2]).value.acquired);
    }
    SoldDate(lines[i + Span(e) - 1], e.sold);
    DateTextOneLine(e.acquired);
    DateTextOneLine(e.sold);
  }

  lemma SoldDate(line: string, date: string)
    requires MatchSaleLine(line) == Some(date)
    ensures IsDateText(date)
  {
  }

  lemma {:induction false} ScanOneLine(lines: seq<string>, i: nat, cat: Option<Category>)
    requires forall k :: 0 <= k < |lines| ==> '\n' !in lines[k]
    ensures forall k :: 0 <= k < |ScanFrom(lines, i, cat).entries| ==> OneLine(ScanFrom(lines, i, cat).entries[k])
    decreases |lines| - i
  {
    if i < |lines| {
      var marker := FindMarker(lines[i]);
      if marker.Some? {
        ScanOneLine(lines, i + 1, Some(marker.value));
      } else if lines[i] !in Cusips.Values {
        ScanOneLine(lines, i + 1, cat);
      } else if cat.Some? && ReadRecordAt(lines, i, cat.value).Ok? {
        var e := ReadRecordAt(lines, i, cat.value).value;
        RecordOneLine(lines, i, cat.value);
        ScanOneLine(lines, i + Span(e), cat);
        ScanRecord(lines, i, cat, e);
        OneLineCons(e, ScanFrom(lines, i + Span(e), cat).entries);
      }
    }
  }

  lemma OneLineCons(e: Entry, rest: seq<Entry>)
    requires OneLine(e) && forall k :: 0 <= k < |rest| ==> OneLine(rest[k])
    ensures forall k :: 0 <= k < |[e] + rest| ==> OneLine(([e] + rest)[k])
  {
    forall k | 0 <= k < |[e] + rest|
      ensures OneLine(([e] + rest)[k])
    {
      if k > 0 {
        assert ([e] + rest)[k] == rest[k - 1];
      }
    }
  }

  /**
   * Over a whole statement split into lines: the output file reads back as
   * the header's lines followed by the block of each record read, in order.
   */
  lemma ConvertOutputLines(lines: seq<string>, today: Date)
    requires forall k :: 0 <= k < |lines| ==> '\n' !in lines[k]
    ensures SplitOn(Output(today, ScanLines(lines).entries), '\n')
            == HeaderLines(today) + Concat(Blocks(ScanLines(lines).entries)) + [""]
  {
    ScanOneLine(lines, 0, None);
    OutputLines(today, ScanLines(lines).entries);
  }
}
