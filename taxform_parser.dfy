/**
 * `parse1099Form` of taxform_parser.py: the record grammar read off the
 * tokenizer, the conversion of a record's words to values, and the running
 * totals.
 */
module TaxformParser {
  import opened Wrappers
  import opened Text
  import opened Numbers
  import opened Dates
  import opened Tokenizer

  /** One sale of a tax lot; amounts in cents, `wash` absent when the statement gives none. */
  datatype Record = Record(quantity: Quantity, symbol: string, cusip: string,
                           acquisitionDate: Date, saleDate: Date,
                           proceeds: int, basis: int, wash: Option<int>)

  /**
   * Why a statement is refused: a record that does not follow the grammar
   * (`ParseException`), a date `strptime` refuses, an amount `Decimal`
   * refuses, or (for the program as a whole) no record at all.
   */
  datatype ParseError = Malformed | BadDate | BadAmount | NoRecords

  /** The words of one record, as the grammar picks them out. */
  datatype Fields = Fields(quantity: Quantity, symbol: string, acquired: string,
                           proceeds: string, basis: string, wash: string, sold: string)

  predicate IsSymbol(t: Option<string>) {
    t == Some("GOOG") || t == Some("GOOGL")
  }

  /** `quantity SHARES OF symbol`: the quantity (a positive numeral) and the symbol. */
  function MatchHead(ts: seq<Tok>): (r: Option<(Quantity, string)>)
    ensures r.Some? <==> |ts| >= 4 && ts[1].text == "SHARES" && ts[2].text == "OF"
                         && ParseQuantity(ts[0].text).Some? && IsSymbol(Some(ts[3].text))
    ensures r.Some? ==> r.value == (ParseQuantity(ts[0].text).value, ts[3].text)
    ensures r.Some? ==> r.value.0.mantissa > 0
  {
    if TextAt(ts, 1) != Some("SHARES") || TextAt(ts, 2) != Some("OF") then None
    else
      var quantity := ParseQuantity(ts[0].text);
      if quantity.None? || !IsSymbol(TextAt(ts, 3)) then None
      else Some((quantity.value, ts[3].text))
  }

  /** The words from the acquisition date to the noncovered flag `X`, and how many there are. */
  datatype Covered = Covered(acquired: string, proceeds: string, basis: string, wash: string, used: nat)

  /**
   * `acquired proceeds basis X` or `acquired proceeds basis wash X`: when the
   * word after the basis is `X` there is no wash, otherwise it is the wash
   * and the next word must be `X`.
   */
  function MatchCovered(ts: seq<Tok>): (r: Option<Covered>)
    ensures r.Some? <==> TextAt(ts, 3) == Some("X") || TextAt(ts, 4) == Some("X")
    ensures r.Some? ==> r.value.used in {4, 5} && r.value.used <= |ts| && ts[r.value.used - 1].text == "X"
    ensures r.Some? ==> r.value.acquired == ts[0].text && r.value.proceeds == ts[1].text
                        && r.value.basis == ts[2].text
    ensures r.Some? ==> (r.value.used == 4 <==> ts[3].text == "X")
    ensures r.Some? ==> r.value.wash == if r.value.used == 4 then "" else ts[3].text
  {
    if TextAt(ts, 3) == Some("X") then Some(Covered(ts[0].text, ts[1].text, ts[2].text, "", 4))
    else if TextAt(ts, 4) == Some("X") then Some(Covered(ts[0].text, ts[1].text, ts[2].text, ts[3].text, 5))
    else None
  }

  /** The sale date, a wash given after it, and how many words there are. */
  datatype Sale = Sale(sold: string, wash: Option<string>, used: nat)

  /** `sold GROSS` or `sold wash GROSS`. */
  function MatchSale(ts: seq<Tok>): (r: Option<Sale>)
    ensures r.Some? <==> TextAt(ts, 1) == Some("GROSS") || TextAt(ts, 2) == Some("GROSS")
    ensures r.Some? ==> r.value.used in {2, 3} && r.value.used <= |ts|
    ensures r.Some? ==> ts[r.value.used - 1].text == "GROSS"
    ensures r.Some? ==> r.value.sold == ts[0].text && (r.value.used == 2 <==> ts[1].text == "GROSS")
    ensures r.Some? ==> r.value.wash == if r.value.used == 2 then None else Some(ts[1].text)
  {
    if TextAt(ts, 1) == Some("GROSS") then Some(Sale(ts[0].text, None, 2))
    else if TextAt(ts, 2) == Some("GROSS") then Some(Sale(ts[0].text, Some(ts[1].text), 3))
    else None
  }

  /**
   * The record grammar over the words following a CUSIP line:
   *   quantity SHARES OF symbol acquired proceeds basis [wash] X sold [wash] GROSS
   * where a wash after the sale date replaces one before it, and the word
   * GROSS must end its line.  Returns the fields and the number of words used.
   */
  function MatchRecord(ts: seq<Tok>): (r: Option<(Fields, nat)>)
    ensures r.Some? ==> IsSymbol(Some(r.value.0.symbol)) && r.value.0.quantity.mantissa > 0
    ensures r.Some? ==> 10 <= r.value.1 <= |ts| && ts[r.value.1 - 1].text == "GROSS"
    ensures r.Some? ==> r.value.1 == |ts| || ts[r.value.1].line != ts[r.value.1 - 1].line
  {
    match MatchHead(ts)
    case None => None
    case Some((quantity, symbol)) =>
      var amounts := Drop(ts, 4);
      assert |amounts| == |ts| - 4;
      match MatchCovered(amounts)
      case None => None
      case Some(c) =>
        var sale := Drop(amounts, c.used);
        DropDrop(ts, 4, c.used);
        assert |sale| == |ts| - (4 + c.used);
        match MatchSale(sale)
        case None => None
        case Some(sl) =>
          var end := 4 + c.used + sl.used;
          DropDrop(ts, 4 + c.used, sl.used - 1);
          assert end <= |ts| && ts[end - 1].text == "GROSS";
          if end < |ts| && ts[end].line == ts[end - 1].line then None
          else
            assert IsSymbol(Some(symbol)) && quantity.mantissa > 0 && 10 <= end;
            var wash := if sl.wash.Some? then sl.wash.value else c.wash;
            Some((Fields(quantity, symbol, c.acquired, c.proceeds, c.basis, wash, sl.sold), end))
  }

  /** `Decimal(text.replace(',', ''))` held to whole cents. */
  function AmountOf(text: string): Option<int> {
    ParseCents(Remove(text, ','))
  }

  /**
   * The values of a record's words, converted in the order the source does:
   * sale date, proceeds, basis, wash (an empty word means none), acquisition date.
   */
  function ToRecord(cusip: string, f: Fields): (r: Result<Record, ParseError>)
    ensures r.Ok? <==> ParseDate(f.sold).Some? && ParseDate(f.acquired).Some?
                       && AmountOf(f.proceeds).Some? && AmountOf(f.basis).Some?
                       && (f.wash == "" || AmountOf(f.wash).Some?)
    ensures r.Ok? ==> r.value.cusip == cusip && r.value.symbol == f.symbol
                      && r.value.quantity == f.quantity
                      && Some(r.value.saleDate) == ParseDate(f.sold)
                      && Some(r.value.acquisitionDate) == ParseDate(f.acquired)
                      && Some(r.value.proceeds) == AmountOf(f.proceeds)
                      && Some(r.value.basis) == AmountOf(f.basis)
                      && r.value.wash == (if f.wash == "" then None else AmountOf(f.wash))
    ensures ParseDate(f.sold).None? ==> r == Err(BadDate)
  {
    match ParseDate(f.sold)
    case None => Err(BadDate)
    case Some(sold) =>
      match AmountOf(f.proceeds)
      case None => Err(BadAmount)
      case Some(proceeds) =>
        match AmountOf(f.basis)
        case None => Err(BadAmount)
        case Some(basis) =>
          var wash := if f.wash == "" then Some(None) else
                        (match AmountOf(f.wash) case None => None case Some(w) => Some(Some(w)));
          if wash.None? then Err(BadAmount)
          else
            match ParseDate(f.acquired)
            case None => Err(BadDate)
            case Some(acquired) =>
              Ok(Record(f.quantity, f.symbol, cusip, acquired, sold, proceeds, basis, wash.value))
  }

  function Prepend(rec: Record, r: Result<seq<Record>, ParseError>): Result<seq<Record>, ParseError> {
    match r
    case Err(e) => Err(e)
    case Ok(rs) => Ok([rec] + rs)
  }

  function PrependAll(recs: seq<Record>, r: Result<seq<Record>, ParseError>): Result<seq<Record>, ParseError> {
    match r
    case Err(e) => Err(e)
    case Ok(rs) => Ok(recs + rs)
  }

  /** The words of each line, as the tokenizer splits them, one list per line. */
  predicate WordsOf(lines: seq<string>, words: seq<seq<string>>) {
    |words| == |lines| && NoEmptyLine(words)
  }

  /**
   * The words of the record after the CUSIP line `k`, and the line after
   * the record's GROSS, where reading goes on.
   */
  function FieldsAfter(words: seq<seq<string>>, k: nat): (r: Option<(Fields, nat)>)
    requires k < |words| && NoEmptyLine(words)
    ensures r.Some? ==> k + 1 < r.value.1 <= |words|
  {
    var ts := Rest(words, k + 1);
    match MatchRecord(ts)
    case None => None
    case Some((fields, n)) =>
      RestLine(words, k + 1, n - 1);
      Some((fields, ts[n - 1].line + 1))
  }

  /**
   * The records of the statement from line `j` on: find the next CUSIP line
   * and read on from there.
   */
  function ParseFrom(lines: seq<string>, words: seq<seq<string>>, j: nat): Result<seq<Record>, ParseError>
    requires WordsOf(lines, words)
    decreases |lines| - j, 1
  {
    match FirstCusip(lines, j)
    case None => Ok([])
    case Some(k) => ParseAt(lines, words, k)
  }

  /**
   * The records of the statement from the CUSIP line `k` on: the words of
   * one record, converted to values, then the records after it; the first
   * failure ends the whole parse.
   */
  function ParseAt(lines: seq<string>, words: seq<seq<string>>, k: nat): Result<seq<Record>, ParseError>
    requires WordsOf(lines, words) && k < |lines|
    decreases |lines| - k, 0
  {
    match FieldsAfter(words, k)
    case None => Err(Malformed)
    case Some((fields, next)) =>
      match ToRecord(lines[k], fields)
      case Err(e) => Err(e)
      case Ok(rec) => Prepend(rec, ParseFrom(lines, words, next))
  }

  /** One step of `ParseFrom`, to the CUSIP line `k`. */
  lemma ParseFromStep(lines: seq<string>, words: seq<seq<string>>, j: nat, k: nat)
    requires WordsOf(lines, words) && FirstCusip(lines, j) == Some(k)
    ensures k < |lines| && ParseFrom(lines, words, j) == ParseAt(lines, words, k)
  {
  }

  /** `FieldsAfter` is the grammar applied to the words after line `k`. */
  lemma FieldsAfterIn(words: seq<seq<string>>, k: nat, ts: seq<Tok>, r: Option<Fields>, n: nat, next: nat)
    requires k < |words| && NoEmptyLine(words) && ts == Rest(words, k + 1)
    requires r.None? ==> MatchRecord(ts).None?
    requires r.Some? ==> MatchRecord(ts) == Some((r.value, n)) && 0 < n <= |ts| && next == ts[n - 1].line + 1
    ensures r.None? ==> FieldsAfter(words, k).None?
    ensures r.Some? ==> FieldsAfter(words, k) == Some((r.value, next))
  {
  }

  /** `ParseAt` when the words after line `k` miss the grammar. */
  lemma ParseAtUnmatched(lines: seq<string>, words: seq<seq<string>>, k: nat)
    requires WordsOf(lines, words) && k < |lines| && FieldsAfter(words, k).None?
    ensures ParseAt(lines, words, k) == Err(Malformed)
  {
  }

  /** `ParseAt` when the words after line `k` follow the grammar. */
  lemma ParseAtMatched(lines: seq<string>, words: seq<seq<string>>, k: nat, fields: Fields, next: nat)
    requires WordsOf(lines, words) && k < |lines| && FieldsAfter(words, k) == Some((fields, next))
    ensures ToRecord(lines[k], fields).Err? ==> ParseAt(lines, words, k) == Err(ToRecord(lines[k], fields).error)
    ensures ToRecord(lines[k], fields).Ok? ==>
              ParseAt(lines, words, k) == Prepend(ToRecord(lines[k], fields).value, ParseFrom(lines, words, next))
  {
  }

  lemma PrependAllStep(recs: seq<Record>, rec: Record, r: Result<seq<Record>, ParseError>)
    ensures PrependAll(recs, Prepend(rec, r)) == PrependAll(recs + [rec], r)
  {
    if r.Ok? {
      assert recs + ([rec] + r.value) == recs + [rec] + r.value;
    }
  }

  /** The records of a whole statement text. */
  function ParseForm(text: string): Result<seq<Record>, ParseError> {
    var lines := StatementLines(text);
    ParseFrom(lines, Words(lines), 0)
  }

  /** `quantity SHARES OF symbol` read through the tokenizer. */
  method ReadHead(tk: Form1099Tokenizer) returns (r: Option<(Quantity, string)>)
    requires tk.Valid()
    modifies tk
    ensures tk.Valid() && tk.lineIdx >= old(tk.lineIdx)
    ensures r == MatchHead(old(tk.stream))
    ensures r.Some? ==> tk.stream == Drop(old(tk.stream), 4)
  {
    ghost var s := tk.stream;
    var quantityText := tk.NextToken();
    DropDrop(s, 1, 1);
    var shares := tk.NextToken();
    if shares != Some("SHARES") {
      return None;
    }
    DropDrop(s, 2, 1);
    var of := tk.NextToken();
    if of != Some("OF") {
      return None;
    }
    var quantity := ParseQuantity(quantityText.value);
    if quantity.None? {
      return None;
    }
    DropDrop(s, 3, 1);
    var symbol := tk.NextToken();
    if !IsSymbol(symbol) {
      return None;
    }
    r := Some((quantity.value, symbol.value));
  }

  /** The words from the acquisition date to the noncovered flag, read through the tokenizer. */
  method ReadCovered(tk: Form1099Tokenizer) returns (r: Option<Covered>)
    requires tk.Valid()
    modifies tk
    ensures tk.Valid() && tk.lineIdx >= old(tk.lineIdx)
    ensures r == MatchCovered(old(tk.stream))
    ensures r.Some? ==> tk.stream == Drop(old(tk.stream), r.value.used)
  {
    ghost var s := tk.stream;
    var acquired := tk.NextToken();
    DropDrop(s, 1, 1);
    var proceeds := tk.NextToken();
    DropDrop(s, 2, 1);
    var basis := tk.NextToken();
    DropDrop(s, 3, 1);
    var wash := tk.NextToken();
    var nonCovered: Option<string>;
    var used := 4;
    if wash == Some("X") {
      wash := Some("");
      nonCovered := Some("X");
    } else {
      DropDrop(s, 4, 1);
      nonCovered := tk.NextToken();
      used := 5;
    }
    if nonCovered != Some("X") {
      return None;
    }
    r := Some(Covered(acquired.value, proceeds.value, basis.value, wash.value, used));
  }

  /** The sale date up to GROSS, read through the tokenizer. */
  method ReadSale(tk: Form1099Tokenizer) returns (r: Option<Sale>)
    requires tk.Valid()
    modifies tk
    ensures tk.Valid() && tk.lineIdx >= old(tk.lineIdx)
    ensures r == MatchSale(old(tk.stream))
    ensures r.Some? ==> tk.stream == Drop(old(tk.stream), r.value.used)
                        && tk.lineIdx == old(tk.stream)[r.value.used - 1].line + 1
  {
    ghost var s := tk.stream;
    var sold := tk.NextToken();
    DropDrop(s, 1, 0);
    DropDrop(s, 1, 1);
    var maybeWash := tk.NextToken();
    var wash: Option<string> := None;
    if maybeWash != Some("GROSS") {
      wash := maybeWash;
      DropDrop(s, 2, 0);
      DropDrop(s, 2, 1);
      var gross := tk.NextToken();
      if gross != Some("GROSS") {
        return None;
      }
    }
    r := Some(Sale(sold.value, wash, if wash.None? then 2 else 3));
  }

  /** The three parts of a record, read one after the other; the tokenizer is left after the sale. */
  method ReadParts(tk: Form1099Tokenizer) returns (head: Option<(Quantity, string)>, covered: Option<Covered>, sale: Option<Sale>)
    requires tk.Valid()
    modifies tk
    ensures tk.Valid() && tk.lineIdx >= old(tk.lineIdx)
    ensures head == MatchHead(old(tk.stream))
    ensures head.Some? ==> covered == MatchCovered(Drop(old(tk.stream), 4))
    ensures head.Some? && covered.Some? ==> sale == MatchSale(Drop(old(tk.stream), 4 + covered.value.used))
    ensures head.Some? && covered.Some? && sale.Some? ==>
              var end := 4 + covered.value.used + sale.value.used;
              end <= |old(tk.stream)| && tk.stream == old(tk.stream)[end..] && tk.lineIdx == old(tk.stream)[end - 1].line + 1
  {
    ghost var s := tk.stream;
    covered, sale := None, None;
    head := ReadHead(tk);
    if head.None? {
      return;
    }
    covered := ReadCovered(tk);
    if covered.None? {
      return;
    }
    DropDrop(s, 4, covered.value.used);
    sale := ReadSale(tk);
    if sale.None? {
      return;
    }
    DropDrop(s, 4 + covered.value.used, sale.value.used);
    DropDrop(s, 4 + covered.value.used, sale.value.used - 1);
  }

  /**
   * The words of one record read through the tokenizer, right after its
   * CUSIP line.  It consumes exactly the words the grammar uses and leaves
   * the tokenizer at the start of the line after them.
   */
  method ReadFields(tk: Form1099Tokenizer) returns (r: Option<Fields>, ghost n: nat)
    requires tk.Valid()
    modifies tk
    ensures tk.Valid() && tk.lineIdx >= old(tk.lineIdx)
    ensures r.None? ==> MatchRecord(old(tk.stream)).None?
    ensures r.Some? ==> MatchRecord(old(tk.stream)) == Some((r.value, n)) && 0 < n <= |old(tk.stream)|
                        && tk.tokens == [] && tk.stream == old(tk.stream)[n..]
                        && tk.lineIdx == old(tk.stream)[n - 1].line + 1
  {
    ghost var s := tk.stream;
    var head, covered, sale := ReadParts(tk);
    RecordOfParts(s, head, covered, sale);
    if head.None? || covered.None? || sale.None? {
      return None, 0;
    }
    ghost var end := 4 + covered.value.used + sale.value.used;
    var pending := tk.TokensAvailable();
    LineGoesOn(s, end, tk.stream, tk.lineIdx);
    if pending {
      return None, 0;
    }
    var (quantity, symbol) := head.value;
    var wash := if sale.value.wash.Some? then sale.value.wash.value else covered.value.wash;
    r := Some(Fields(quantity, symbol, covered.value.acquired, covered.value.proceeds,
                     covered.value.basis, wash, sale.value.sold));
    n := end;
    assert MatchRecord(s) == Some((r.value, n));
  }

  /** The record grammar in terms of its three parts. */
  lemma RecordOfParts(ts: seq<Tok>, h: Option<(Quantity, string)>, c: Option<Covered>, sl: Option<Sale>)
    requires h == MatchHead(ts)
    requires h.Some? ==> c == MatchCovered(Drop(ts, 4))
    requires h.Some? && c.Some? ==> sl == MatchSale(Drop(ts, 4 + c.value.used))
    ensures h.None? || c.None? || sl.None? ==> MatchRecord(ts).None?
    ensures h.Some? && c.Some? && sl.Some? ==>
              var end := 4 + c.value.used + sl.value.used;
              0 < end <= |ts|
              && MatchRecord(ts)
                 == if end < |ts| && ts[end].line == ts[end - 1].line then None
                    else Some((Fields(h.value.0, h.value.1, c.value.acquired, c.value.proceeds, c.value.basis,
                                      if sl.value.wash.Some? then sl.value.wash.value else c.value.wash, sl.value.sold), end))
  {
    if h.Some? && c.Some? {
      DropDrop(ts, 4, c.value.used);
      if sl.Some? {
        assert |Drop(ts, 4 + c.value.used)| == |ts| - (4 + c.value.used);
      }
    }
  }

  /** After the words up to `end`, tokens are pending exactly when the line of the last word goes on. */
  lemma LineGoesOn(s: seq<Tok>, end: nat, stream: seq<Tok>, lineIdx: nat)
    requires 0 < end <= |s| && stream == s[end..] && lineIdx == s[end - 1].line + 1
    ensures (stream != [] && stream[0].line + 1 == lineIdx) <==> (end < |s| && s[end].line == s[end - 1].line)
  {
    if end < |s| {
      assert stream[0] == s[end];
    }
  }

  /** The running totals of a parse: records, proceeds, basis and wash (cents). */
  datatype Totals = Totals(count: nat, proceeds: int, basis: int, wash: int)

  /** The amounts a parse adds up. */
  datatype Column = ProceedsColumn | BasisColumn | WashColumn

  /** A record's amount in a column; a record without a wash adds nothing to the wash total. */
  function Amount(r: Record, c: Column): int {
    match c
    case ProceedsColumn => r.proceeds
    case BasisColumn => r.basis
    case WashColumn => if r.wash.Some? then r.wash.value else 0
  }

  /** The sum of a column over the records. */
  function Sum(rs: seq<Record>, c: Column): int {
    if rs == [] then 0 else Sum(rs[..|rs| - 1], c) + Amount(rs[|rs| - 1], c)
  }

  lemma SumSnoc(rs: seq<Record>, r: Record, c: Column)
    ensures Sum(rs + [r], c) == Sum(rs, c) + Amount(r, c)
  {
    assert (rs + [r])[..|rs|] == rs;
  }

  /** Sums over a statement split in two parts add up. */
  lemma {:induction false} SumAppend(a: seq<Record>, b: seq<Record>, c: Column)
    ensures Sum(a + b, c) == Sum(a, c) + Sum(b, c)
    decreases |b|
  {
    if b == [] {
      assert a + b == a;
    } else {
      assert (a + b)[..|a + b| - 1] == a + b[..|b| - 1];
      SumAppend(a, b[..|b| - 1], c);
    }
  }

  /** The totals `parse1099Form` keeps for the records read so far. */
  function TotalsOf(rs: seq<Record>): Totals {
    Totals(|rs|, Sum(rs, ProceedsColumn), Sum(rs, BasisColumn), Sum(rs, WashColumn))
  }

  /** One record added to the running totals; a record without a wash adds nothing to the wash total. */
  function AddRecord(t: Totals, r: Record): Totals {
    Totals(t.count + 1, t.proceeds + r.proceeds, t.basis + r.basis,
           t.wash + if r.wash.Some? then r.wash.value else 0)
  }

  /** Keeping the totals record by record gives the totals of all the records. */
  lemma TotalsSnoc(rs: seq<Record>, r: Record)
    ensures TotalsOf(rs + [r]) == AddRecord(TotalsOf(rs), r)
  {
    SumSnoc(rs, r, ProceedsColumn);
    SumSnoc(rs, r, BasisColumn);
    SumSnoc(rs, r, WashColumn);
  }

  /**
   * The grammar half of one turn of `parse1099Form`'s loop: finds the next
   * CUSIP line `k` and reads the words of the record after it.
   */
  method ReadRecordFields(tk: Form1099Tokenizer) returns (cusip: Option<string>, fields: Option<Fields>, ghost k: nat)
    requires tk.Valid() && tk.tokens == []
    modifies tk
    ensures tk.Valid() && old(tk.lineIdx) <= tk.lineIdx
    ensures cusip.None? <==> FirstCusip(tk.lines, old(tk.lineIdx)).None?
    ensures cusip.Some? ==> FirstCusip(tk.lines, old(tk.lineIdx)) == Some(k) && k < |tk.lines|
                            && cusip.value == tk.lines[k]
    ensures cusip.Some? && fields.None? ==> FieldsAfter(tk.words, k).None?
    ensures cusip.Some? && fields.Some? ==>
              FieldsAfter(tk.words, k) == Some((fields.value, tk.lineIdx)) && tk.tokens == []
  {
    cusip := tk.FindCusip();
    if cusip.None? {
      return None, None, 0;
    }
    k := tk.lineIdx - 1;
    ghost var ts := tk.stream;
    assert ts == Rest(tk.words, k + 1) by {
      assert tk.stream == Rest(tk.words, tk.lineIdx);
    }
    ghost var n;
    fields, n := ReadFields(tk);
    FieldsAfterIn(tk.words, k, ts, fields, n, tk.lineIdx);
  }

  /**
   * One turn of `parse1099Form`'s loop: finds the next CUSIP line and reads
   * the record after it. `None` when no CUSIP line is left; otherwise the
   * record or the reason it was rejected, as `ParseFrom` has it.
   */
  method ReadRecord(tk: Form1099Tokenizer) returns (r: Option<Result<Record, ParseError>>, ghost k: nat)
    requires tk.Valid() && tk.tokens == []
    modifies tk
    ensures tk.Valid() && old(tk.lineIdx) <= tk.lineIdx
    ensures r.None? <==> FirstCusip(tk.lines, old(tk.lineIdx)).None?
    ensures r.Some? ==> FirstCusip(tk.lines, old(tk.lineIdx)) == Some(k) && k < |tk.lines|
    ensures r.Some? && r.value.Err? ==> ParseAt(tk.lines, tk.words, k) == Err(r.value.error)
    ensures r.Some? && r.value.Ok? ==>
              ParseAt(tk.lines, tk.words, k) == Prepend(r.value.value, ParseFrom(tk.lines, tk.words, tk.lineIdx))
              && old(tk.lineIdx) < tk.lineIdx && tk.tokens == []
  {
    var cusip, fields;
    cusip, fields, k := ReadRecordFields(tk);
    if cusip.None? {
      return None, k;
    }
    if fields.None? {
      ParseAtUnmatched(tk.lines, tk.words, k);
      return Some(Err(Malformed)), k;
    }
    ParseAtMatched(tk.lines, tk.words, k, fields.value, tk.lineIdx);
    var rec := ToRecord(cusip.value, fields.value);
    if rec.Err? {
      return Some(Err(rec.error)), k;
    }
    return Some(Ok(rec.value)), k;
  }

  /**
   * `parse1099Form`: reads every record of the statement through the
   * tokenizer, stopping at the first failure, and keeps the totals.
   */
  method Parse1099Form(text: string) returns (r: Result<seq<Record>, ParseError>, totals: Totals)
    ensures r == ParseForm(text)
    ensures r.Ok? ==> totals == TotalsOf(r.value)
  {
    var tk := new Form1099Tokenizer(text);
    ghost var lines, words := tk.lines, tk.words;
    var records: seq<Record> := [];
    totals := Totals(0, 0, 0, 0);
    match ParseFrom(lines, words, 0) {
      case Err(_) =>
      case Ok(rs) => assert [] + rs == rs;
    }
    while true
      invariant tk.Valid() && tk.tokens == [] && tk.lines == lines && tk.words == words
      invariant ParseForm(text) == PrependAll(records, ParseFrom(lines, words, tk.lineIdx))
      invariant totals == TotalsOf(records)
      decreases |lines| - tk.lineIdx
    {
      ghost var j := tk.lineIdx;
      var step, k := ReadRecord(tk);
      if step.None? {
        assert records + [] == records;
        break;
      }
      ParseFromStep(lines, words, j, k);
      if step.value.Err? {
        return Err(step.value.error), totals;
      }
      var rec := step.value.value;
      PrependAllStep(records, rec, ParseFrom(lines, words, tk.lineIdx));
      TotalsSnoc(records, rec);
      totals := AddRecord(totals, rec);
      records := records + [rec];
    }
    r := Ok(records);
  }

  /**
   * Every record read is a sale of GOOG or GOOGL stock, of a positive
   * quantity, under a CUSIP line, with calendar dates.
   */
  lemma {:induction false} ParsedRecords(lines: seq<string>, words: seq<seq<string>>, j: nat)
    requires WordsOf(lines, words) && ParseFrom(lines, words, j).Ok?
    ensures forall r :: r in ParseFrom(lines, words, j).value ==>
              IsCusipLine(r.cusip) && IsSymbol(Some(r.symbol)) && r.quantity.mantissa > 0
              && Valid(r.saleDate) && Valid(r.acquisitionDate)
    decreases |lines| - j
  {
    match FirstCusip(lines, j)
    case None =>
    case Some(k) =>
      ParseFromStep(lines, words, j, k);
      var (fields, next) := FieldsAfter(words, k).value;
      ParseAtMatched(lines, words, k, fields, next);
      ParsedRecords(lines, words, next);
  }

  /** The first `n` words of two streams are the same words. */
  predicate SameWords(ts: seq<Tok>, us: seq<Tok>, n: nat) {
    n <= |ts| && n <= |us| && forall i :: 0 <= i < n ==> us[i].text == ts[i].text
  }

  lemma SameWordsDrop(ts: seq<Tok>, us: seq<Tok>, n: nat, k: nat)
    requires SameWords(ts, us, n) && k <= n
    ensures SameWords(Drop(ts, k), Drop(us, k), n - k)
  {
    assert forall i :: 0 <= i < n - k ==> Drop(us, k)[i] == us[k + i] && Drop(ts, k)[i] == ts[k + i];
  }

  lemma SameWordsText(ts: seq<Tok>, us: seq<Tok>, n: nat, i: nat)
    requires SameWords(ts, us, n) && i < n
    ensures TextAt(us, i) == TextAt(ts, i) && us[i].text == ts[i].text
  {
  }

  lemma SameHead(ts: seq<Tok>, us: seq<Tok>, n: nat)
    requires SameWords(ts, us, n) && n >= 4
    ensures MatchHead(us) == MatchHead(ts)
  {
    SameWordsText(ts, us, n, 0);
    SameWordsText(ts, us, n, 1);
    SameWordsText(ts, us, n, 2);
    SameWordsText(ts, us, n, 3);
  }

  lemma SameCovered(ts: seq<Tok>, us: seq<Tok>, n: nat)
    requires MatchCovered(ts).Some? && SameWords(ts, us, n) && n >= MatchCovered(ts).value.used
    ensures MatchCovered(us) == MatchCovered(ts)
  {
    SameWordsText(ts, us, n, 0);
    SameWordsText(ts, us, n, 1);
    SameWordsText(ts, us, n, 2);
    SameWordsText(ts, us, n, 3);
    if MatchCovered(ts).value.used == 5 {
      SameWordsText(ts, us, n, 4);
    }
  }

  lemma SameSale(ts: seq<Tok>, us: seq<Tok>, n: nat)
    requires MatchSale(ts).Some? && SameWords(ts, us, n) && n >= MatchSale(ts).value.used
    ensures MatchSale(us) == MatchSale(ts)
  {
    SameWordsText(ts, us, n, 0);
    SameWordsText(ts, us, n, 1);
    if MatchSale(ts).value.used == 3 {
      SameWordsText(ts, us, n, 2);
    }
  }

  /**
   * Where the statement breaks its lines does not matter to a record, as
   * long as GROSS ends one: the same words give the same record.
   */
  lemma SameWordsSameRecord(ts: seq<Tok>, us: seq<Tok>)
    requires MatchRecord(ts).Some?
    requires var n := MatchRecord(ts).value.1;
             SameWords(ts, us, n) && (n == |us| || us[n].line != us[n - 1].line)
    ensures MatchRecord(us) == MatchRecord(ts)
  {
    var n := MatchRecord(ts).value.1;
    RecordUsesParts(ts);
    SameHead(ts, us, n);
    var c := MatchCovered(Drop(ts, 4)).value;
    SameWordsDrop(ts, us, n, 4);
    SameCovered(Drop(ts, 4), Drop(us, 4), n - 4);
    DropDrop(ts, 4, c.used);
    DropDrop(us, 4, c.used);
    var m := 4 + c.used;
    SameWordsDrop(ts, us, n, m);
    SameSale(Drop(ts, m), Drop(us, m), n - m);
    SamePartsSameRecord(ts, us);
  }

  /** A record read is its three parts, one after the other, and nothing more. */
  lemma RecordUsesParts(ts: seq<Tok>)
    requires MatchRecord(ts).Some?
    ensures MatchHead(ts).Some? && MatchCovered(Drop(ts, 4)).Some?
    ensures var c := MatchCovered(Drop(ts, 4)).value;
            MatchSale(Drop(Drop(ts, 4), c.used)).Some?
            && MatchRecord(ts).value.1 == 4 + c.used + MatchSale(Drop(Drop(ts, 4), c.used)).value.used
  {
  }

  /** Records whose three parts agree, each ending its line, are the same record. */
  lemma SamePartsSameRecord(ts: seq<Tok>, us: seq<Tok>)
    requires MatchRecord(ts).Some? && MatchHead(us) == MatchHead(ts) && MatchHead(ts).Some?
    requires MatchCovered(Drop(us, 4)) == MatchCovered(Drop(ts, 4)) && MatchCovered(Drop(ts, 4)).Some?
    requires var c := MatchCovered(Drop(ts, 4)).value;
             MatchSale(Drop(Drop(us, 4), c.used)) == MatchSale(Drop(Drop(ts, 4), c.used))
    requires var n := MatchRecord(ts).value.1;
             n <= |us| && (n == |us| || us[n].line != us[n - 1].line)
    ensures MatchRecord(us) == MatchRecord(ts)
  {
    RecordUsesParts(ts);
  }

  /** The words of `ts` begin with `words`. */
  predicate Spells(ts: seq<Tok>, words: seq<string>) {
    |words| <= |ts| && forall k :: 0 <= k < |words| ==> ts[k].text == words[k]
  }

  /** The first `n` words of `ts` end a line. */
  predicate EndsLine(ts: seq<Tok>, n: nat) {
    0 < n <= |ts| && (n == |ts| || ts[n].line != ts[n - 1].line)
  }

  /** `quantity SHARES OF symbol` */
  function HeadWords(quantity: string, symbol: string): seq<string> {
    [quantity, "SHARES", "OF", symbol]
  }

  /** `acquired proceeds basis [wash] X` */
  function CoveredWords(acquired: string, proceeds: string, basis: string, wash: Option<string>): seq<string> {
    [acquired, proceeds, basis] + (if wash.Some? then [wash.value] else []) + ["X"]
  }

  /** `sold [wash] GROSS` */
  function SaleWords(sold: string, wash: Option<string>): seq<string> {
    [sold] + (if wash.Some? then [wash.value] else []) + ["GROSS"]
  }

  /**
   * The words of a record with the fields `f`, the quantity spelled
   * `quantity`, and a wash given before the X, after the sale date, both, or
   * neither.
   */
  function RecordWords(quantity: string, f: Fields, washBefore: Option<string>, washAfter: Option<string>): seq<string> {
    HeadWords(quantity, f.symbol) + CoveredWords(f.acquired, f.proceeds, f.basis, washBefore)
    + SaleWords(f.sold, washAfter)
  }

  /**
   * The spelling is a record of those fields: the quantity reads as a
   * positive number, the symbol is GOOG or GOOGL, a wash before the X is not
   * itself X, a wash after the sale date is not GROSS, and the wash field is
   * the later of the two washes given (empty when there is none).
   */
  predicate WellFormedRecord(quantity: string, f: Fields, washBefore: Option<string>, washAfter: Option<string>) {
    ParseQuantity(quantity) == Some(f.quantity) && IsSymbol(Some(f.symbol))
    && (washBefore.Some? ==> washBefore.value != "X")
    && (washAfter.Some? ==> washAfter.value != "GROSS")
    && f.wash == (if washAfter.Some? then washAfter.value else if washBefore.Some? then washBefore.value else "")
  }

  lemma SpellsAppend(ts: seq<Tok>, a: seq<string>, b: seq<string>)
    ensures Spells(ts, a + b) <==> Spells(ts, a) && Spells(Drop(ts, |a|), b)
  {
    if Spells(ts, a) && Spells(Drop(ts, |a|), b) {
      forall k | 0 <= k < |a + b|
        ensures ts[k].text == (a + b)[k]
      {
        if k >= |a| {
          assert Drop(ts, |a|)[k - |a|] == ts[k];
        }
      }
    }
    if Spells(ts, a + b) {
      forall k | 0 <= k < |b|
        ensures Drop(ts, |a|)[k].text == b[k]
      {
        assert (a + b)[|a| + k] == b[k];
      }
    }
  }

  /** The three parts of a record's spelling lie one after another in the stream. */
  lemma SpellsRecord(ts: seq<Tok>, quantity: string, f: Fields, washBefore: Option<string>, washAfter: Option<string>)
    ensures var hw, cw, sw := HeadWords(quantity, f.symbol), CoveredWords(f.acquired, f.proceeds, f.basis, washBefore),
                              SaleWords(f.sold, washAfter);
            |hw| == 4
            && (Spells(ts, RecordWords(quantity, f, washBefore, washAfter))
                <==> Spells(ts, hw) && Spells(Drop(ts, 4), cw) && Spells(Drop(ts, 4 + |cw|), sw))
  {
    var hw, cw, sw := HeadWords(quantity, f.symbol), CoveredWords(f.acquired, f.proceeds, f.basis, washBefore),
                      SaleWords(f.sold, washAfter);
    SpellsAppend(ts, hw + cw, sw);
    SpellsAppend(ts, hw, cw);
    DropDrop(ts, 4, |cw|);
  }

  lemma HeadSpelled(ts: seq<Tok>, quantity: string, symbol: string)
    requires ParseQuantity(quantity).Some? && IsSymbol(Some(symbol))
    ensures Spells(ts, HeadWords(quantity, symbol)) <==> MatchHead(ts) == Some((ParseQuantity(quantity).value, symbol)) && ts[0].text == quantity
  {
  }

  lemma CoveredSpelled(ts: seq<Tok>, acquired: string, proceeds: string, basis: string, wash: Option<string>)
    requires wash.Some? ==> wash.value != "X"
    ensures Spells(ts, CoveredWords(acquired, proceeds, basis, wash))
            <==> MatchCovered(ts) == Some(Covered(acquired, proceeds, basis, if wash.Some? then wash.value else "",
                                                  |CoveredWords(acquired, proceeds, basis, wash)|))
  {
  }

  lemma SaleSpelled(ts: seq<Tok>, sold: string, wash: Option<string>)
    requires wash.Some? ==> wash.value != "GROSS"
    ensures Spells(ts, SaleWords(sold, wash)) <==> MatchSale(ts) == Some(Sale(sold, wash, |SaleWords(sold, wash)|))
  {
  }

  /**
   * Every well-formed spelling of a record, with GROSS ending its line, is
   * read as that record, using all of its words.
   */
  lemma MatchRecordComplete(ts: seq<Tok>, quantity: string, f: Fields, washBefore: Option<string>, washAfter: Option<string>)
    requires WellFormedRecord(quantity, f, washBefore, washAfter)
    requires Spells(ts, RecordWords(quantity, f, washBefore, washAfter))
    requires EndsLine(ts, |RecordWords(quantity, f, washBefore, washAfter)|)
    ensures MatchRecord(ts) == Some((f, |RecordWords(quantity, f, washBefore, washAfter)|))
  {
    var cw := CoveredWords(f.acquired, f.proceeds, f.basis, washBefore);
    SpellsRecord(ts, quantity, f, washBefore, washAfter);
    HeadSpelled(ts, quantity, f.symbol);
    CoveredSpelled(Drop(ts, 4), f.acquired, f.proceeds, f.basis, washBefore);
    SaleSpelled(Drop(ts, 4 + |cw|), f.sold, washAfter);
    RecordOfParts(ts, MatchHead(ts), MatchCovered(Drop(ts, 4)), MatchSale(Drop(ts, 4 + |cw|)));
  }

  /** Three parts read one after another spell the record they make up. */
  lemma PartsSpell(ts: seq<Tok>, f: Fields, c: Covered, sl: Sale, washBefore: Option<string>)
    requires MatchHead(ts) == Some((f.quantity, f.symbol))
    requires MatchCovered(Drop(ts, 4)) == Some(c) && MatchSale(Drop(ts, 4 + c.used)) == Some(sl)
    requires f.acquired == c.acquired && f.proceeds == c.proceeds && f.basis == c.basis && f.sold == sl.sold
    requires f.wash == if sl.wash.Some? then sl.wash.value else c.wash
    requires washBefore == if c.used == 5 then Some(c.wash) else None
    ensures |ts| > 0
    ensures WellFormedRecord(ts[0].text, f, washBefore, sl.wash)
    ensures 4 + c.used + sl.used == |RecordWords(ts[0].text, f, washBefore, sl.wash)|
    ensures Spells(ts, RecordWords(ts[0].text, f, washBefore, sl.wash))
  {
    var quantity := ts[0].text;
    HeadSpelled(ts, quantity, f.symbol);
    CoveredSpelled(Drop(ts, 4), f.acquired, f.proceeds, f.basis, washBefore);
    SaleSpelled(Drop(ts, 4 + c.used), f.sold, sl.wash);
    SpellsRecord(ts, quantity, f, washBefore, sl.wash);
  }

  /** The spelling a record read from its three parts witnesses. */
  lemma PartsWitness(ts: seq<Tok>, f: Fields, n: nat, c: Covered, sl: Sale)
    requires MatchRecord(ts) == Some((f, n)) && MatchHead(ts).Some?
    requires MatchCovered(Drop(ts, 4)) == Some(c) && MatchSale(Drop(ts, 4 + c.used)) == Some(sl)
    ensures |ts| > 0
    ensures var washBefore := if c.used == 5 then Some(c.wash) else None;
            WellFormedRecord(ts[0].text, f, washBefore, sl.wash)
            && n == |RecordWords(ts[0].text, f, washBefore, sl.wash)|
            && Spells(ts, RecordWords(ts[0].text, f, washBefore, sl.wash)) && EndsLine(ts, n)
  {
    RecordOfParts(ts, MatchHead(ts), Some(c), Some(sl));
    PartsSpell(ts, f, c, sl, if c.used == 5 then Some(c.wash) else None);
  }

  /**
   * Every record read is a well-formed spelling of its fields, with the
   * quantity as its first word, using exactly the words it spells, GROSS
   * ending its line.
   */
  lemma MatchRecordSound(ts: seq<Tok>, f: Fields, n: nat)
    requires MatchRecord(ts) == Some((f, n))
    ensures |ts| > 0
    ensures exists washBefore: Option<string>, washAfter: Option<string> ::
              WellFormedRecord(ts[0].text, f, washBefore, washAfter)
              && n == |RecordWords(ts[0].text, f, washBefore, washAfter)|
              && Spells(ts, RecordWords(ts[0].text, f, washBefore, washAfter)) && EndsLine(ts, n)
  {
    RecordUsesParts(ts);
    var c := MatchCovered(Drop(ts, 4)).value;
    DropDrop(ts, 4, c.used);
    var sl := MatchSale(Drop(ts, 4 + c.used)).value;
    PartsWitness(ts, f, n, c, sl);
    var washBefore := if c.used == 5 then Some(c.wash) else None;
    assert WellFormedRecord(ts[0].text, f, washBefore, sl.wash)
           && n == |RecordWords(ts[0].text, f, washBefore, sl.wash)|
           && Spells(ts, RecordWords(ts[0].text, f, washBefore, sl.wash)) && EndsLine(ts, n);
  }
}
