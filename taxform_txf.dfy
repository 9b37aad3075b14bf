/**
 * `Record.txf_records` of taxform_parser.py: the TXF (Tax Exchange Format,
 * version 042) text for a list of records, one header and one eleven-line
 * `TD` block per record.  The text is a list of lines, each ended by a
 * newline.
 */
module TaxformTxf {
  import opened Wrappers
  import opened Text
  import opened Numbers
  import opened Dates
  import opened TaxformParser

  /** Characters of rendered numbers and dates: digits, point, minus and slash. */
  predicate Plain(s: string) {
    forall k :: 0 <= k < |s| ==> IsDigit(s[k]) || s[k] == '.' || s[k] == '-' || s[k] == '/'
  }

  lemma PlainAppend(a: string, b: string)
    requires Plain(a) && Plain(b)
    ensures Plain(a + b)
  {
  }

  lemma DigitsArePlain(s: string)
    requires AllDigits(s)
    ensures Plain(s)
  {
  }

  lemma PointTextPlain(m: nat, s: nat)
    ensures Plain(PointText(m, s))
  {
    var t := ZeroPad(NatToString(m), s + 1);
    DigitsArePlain(t[..|t| - s]);
    DigitsArePlain(t[|t| - s..]);
    PlainAppend(t[..|t| - s], ".");
    PlainAppend(t[..|t| - s] + ".", t[|t| - s..]);
  }

  lemma FormatCentsPlain(c: int)
    ensures Plain(FormatCents(c))
  {
    PointTextPlain(if c < 0 then -c else c, 2);
    PlainAppend(if c < 0 then "-" else "", PointText(if c < 0 then -c else c, 2));
  }

  lemma RenderQuantityPlain(q: Quantity)
    ensures Plain(RenderQuantity(q))
  {
    var r := Normalize(q.mantissa, q.scale);
    if r.1 == 0 {
      DigitsArePlain(NatToString(r.0));
      PlainAppend(NatToString(r.0), ".0");
    } else {
      PointTextPlain(r.0, r.1);
    }
  }

  lemma RenderDatePlain(d: Date)
    ensures Plain(RenderDate(d))
  {
    var m, dd, y := ZeroPad(NatToString(d.month), 2), ZeroPad(NatToString(d.day), 2), ZeroPad(NatToString(d.year), 4);
    DigitsArePlain(m);
    DigitsArePlain(dd);
    DigitsArePlain(y);
    PlainAppend(m, "/");
    PlainAppend(m + "/", dd);
    PlainAppend(m + "/" + dd, "/");
    PlainAppend(m + "/" + dd + "/", y);
  }

  /**
   * `compute_total_wash`: the wash amount written with `%.2f` (exactly, as
   * `FormatCents` does), or the empty string when there is none; a zero wash
   * counts as none, as a zero `Decimal` is false.
   */
  function WashText(r: Record): (s: string)
    ensures s == "" <==> r.wash.None? || r.wash.value == 0
    ensures s != "" ==> s == FormatCents(r.wash.value)
  {
    if r.wash.Some? && r.wash.value != 0 then
      FormatCents(r.wash.value)
    else ""
  }

  /** The TXF header: version, program name, date of writing. */
  function HeaderLines(today: Date): seq<string> {
    ["V042", "A quick and dirty TXF script", "D" + RenderDate(today), "^"]
  }

  /**
   * The block of one record: detailed record, reference number 715, copy 1,
   * line 1, description, acquisition date, sale date, cost basis (the
   * reported basis, `compute_total_basis` with no fair market value), sale
   * proceeds, wash sale amount (empty when none), end of record.
   */
  function BlockLines(r: Record): seq<string> {
    BlockOf(RenderQuantity(r.quantity), r.symbol, RenderDate(r.acquisitionDate), RenderDate(r.saleDate),
            FormatCents(r.basis), FormatCents(r.proceeds), WashText(r))
  }

  /** A `TD` block with reference number 715 around the given field texts. */
  function BlockOf(quantity: string, symbol: string, acquired: string, sold: string,
                   basis: string, proceeds: string, wash: string): seq<string> {
    ["TD", "N715", "C1", "L1", "P" + quantity + " " + symbol, "D" + acquired, "D" + sold,
     "$" + basis, "$" + proceeds, "$" + wash, "^"]
  }

  /** The block of each record, in the records' order. */
  function Blocks(rs: seq<Record>): (bs: seq<seq<string>>)
    ensures |bs| == |rs|
  {
    seq(|rs|, i requires 0 <= i < |rs| => BlockLines(rs[i]))
  }

  /** The lines of the TXF file. */
  function TxfLines(rs: seq<Record>, today: Date): seq<string> {
    HeaderLines(today) + Concat(Blocks(rs))
  }

  /** The TXF file text `txf_records` returns. */
  function TxfText(rs: seq<Record>, today: Date): string {
    Terminated(TxfLines(rs, today))
  }

  /** One more block adds its lines, newline-terminated, to the text. */
  lemma TerminatedConcatSnoc(bs: seq<seq<string>>, i: nat)
    requires i < |bs|
    ensures Terminated(Concat(bs[..i + 1])) == Terminated(Concat(bs[..i])) + Terminated(bs[i])
  {
    assert bs[..i + 1][..i] == bs[..i];
    ConcatSnoc(bs[..i + 1]);
    TerminatedAppend(Concat(bs[..i]), bs[i]);
  }

  /**
   * `txf_records`: the header, then the block of each record appended in
   * turn.
   */
  method TxfRecords(records: seq<Record>, today: Date) returns (result: string)
    ensures result == TxfText(records, today)
  {
    ghost var bs := Blocks(records);
    result := Terminated(HeaderLines(today));
    assert Concat(bs[..0]) == [];
    for i := 0 to |records|
      invariant result == Terminated(HeaderLines(today)) + Terminated(Concat(bs[..i]))
    {
      TerminatedConcatSnoc(bs, i);
      AppendAssoc(Terminated(HeaderLines(today)), Terminated(Concat(bs[..i])), Terminated(bs[i]));
      result := result + Terminated(BlockLines(records[i]));
    }
    assert bs[..|records|] == bs;
    TerminatedAppend(HeaderLines(today), Concat(bs));
  }

  lemma SliceLeft(a: seq<string>, b: seq<string>, lo: nat, hi: nat)
    requires lo <= hi <= |a|
    ensures (a + b)[lo..hi] == a[lo..hi]
  {
  }

  lemma SliceRight(a: seq<string>, b: seq<string>)
    ensures (a + b)[|a|..|a| + |b|] == b
  {
  }

  /** Blocks of eleven lines lie one after another, each in its place. */
  lemma {:induction false} ConcatLayout(bs: seq<seq<string>>)
    requires forall i :: 0 <= i < |bs| ==> |bs[i]| == 11
    ensures |Concat(bs)| == 11 * |bs|
    ensures forall i :: 0 <= i < |bs| ==> Concat(bs)[11 * i..11 * i + 11] == bs[i]
  {
    if bs != [] {
      var init, last := bs[..|bs| - 1], bs[|bs| - 1];
      ConcatSnoc(bs);
      ConcatLayout(init);
      forall i | 0 <= i < |bs|
        ensures Concat(bs)[11 * i..11 * i + 11] == bs[i]
      {
        if i < |init| {
          SliceLeft(Concat(init), last, 11 * i, 11 * i + 11);
          assert bs[i] == init[i];
        } else {
          SliceRight(Concat(init), last);
        }
      }
    }
  }

  lemma BlockLength(r: Record)
    ensures |BlockLines(r)| == 11
  {
  }

  /** After a header of four lines, blocks of eleven lines lie one after another. */
  lemma HeaderBlocksLayout(h: seq<string>, bs: seq<seq<string>>)
    requires |h| == 4 && forall i :: 0 <= i < |bs| ==> |bs[i]| == 11
    ensures |h + Concat(bs)| == 4 + 11 * |bs| && (h + Concat(bs))[..4] == h
    ensures forall i :: 0 <= i < |bs| ==> (h + Concat(bs))[4 + 11 * i..4 + 11 * i + 11] == bs[i]
  {
    ConcatLayout(bs);
    forall i | 0 <= i < |bs|
      ensures (h + Concat(bs))[4 + 11 * i..4 + 11 * i + 11] == bs[i]
    {
      assert (h + Concat(bs))[4 + 11 * i..4 + 11 * i + 11] == Concat(bs)[11 * i..11 * i + 11];
    }
  }

  /**
   * The TXF file starts with the header and then holds exactly one block per
   * record, in input order, and nothing else.
   */
  lemma TxfLayout(rs: seq<Record>, today: Date)
    ensures |TxfLines(rs, today)| == 4 + 11 * |rs|
    ensures TxfLines(rs, today)[..4] == HeaderLines(today)
    ensures forall i :: 0 <= i < |rs| ==> TxfLines(rs, today)[4 + 11 * i..4 + 11 * i + 11] == Blocks(rs)[i]
  {
    var bs := Blocks(rs);
    forall i | 0 <= i < |bs|
      ensures |bs[i]| == 11
    {
      BlockLength(rs[i]);
    }
    HeaderBlocksLayout(HeaderLines(today), bs);
  }

  predicate NoNewline(s: string) {
    '\n' !in s
  }

  lemma PlainNoNewline(s: string)
    requires Plain(s)
    ensures '\n' !in s && ' ' !in s
  {
  }

  /** No line of a block holds a newline, as long as the symbol holds none. */
  lemma BlockLinesNoNewline(r: Record)
    requires '\n' !in r.symbol
    ensures forall k :: 0 <= k < 11 ==> '\n' !in BlockLines(r)[k]
  {
    RenderQuantityPlain(r.quantity);
    RenderDatePlain(r.acquisitionDate);
    RenderDatePlain(r.saleDate);
    FormatCentsPlain(r.basis);
    FormatCentsPlain(r.proceeds);
    PlainNoNewline(RenderQuantity(r.quantity));
    PlainNoNewline(RenderDate(r.acquisitionDate));
    PlainNoNewline(RenderDate(r.saleDate));
    PlainNoNewline(FormatCents(r.basis));
    PlainNoNewline(FormatCents(r.proceeds));
    if WashText(r) != "" {
      FormatCentsPlain(r.wash.value);
      PlainNoNewline(WashText(r));
    }
    BlockOfNoNewline(RenderQuantity(r.quantity), r.symbol, RenderDate(r.acquisitionDate), RenderDate(r.saleDate),
                     FormatCents(r.basis), FormatCents(r.proceeds), WashText(r));
  }

  lemma BlockOfNoNewline(quantity: string, symbol: string, acquired: string, sold: string,
                         basis: string, proceeds: string, wash: string)
    requires '\n' !in quantity && '\n' !in symbol && '\n' !in acquired && '\n' !in sold
    requires '\n' !in basis && '\n' !in proceeds && '\n' !in wash
    ensures forall k :: 0 <= k < 11 ==> '\n' !in BlockOf(quantity, symbol, acquired, sold, basis, proceeds, wash)[k]
  {
  }

  lemma {:induction false} ConcatNoNewline(bs: seq<seq<string>>)
    requires forall i, k :: 0 <= i < |bs| && 0 <= k < |bs[i]| ==> '\n' !in bs[i][k]
    ensures forall k :: 0 <= k < |Concat(bs)| ==> '\n' !in Concat(bs)[k]
  {
    if bs != [] {
      ConcatSnoc(bs);
      ConcatNoNewline(bs[..|bs| - 1]);
    }
  }

  lemma BlocksNoNewline(rs: seq<Record>)
    requires forall i :: 0 <= i < |rs| ==> '\n' !in rs[i].symbol
    ensures forall i, k :: 0 <= i < |Blocks(rs)| && 0 <= k < |Blocks(rs)[i]| ==> '\n' !in Blocks(rs)[i][k]
  {
    forall i | 0 <= i < |rs|
      ensures forall k :: 0 <= k < |Blocks(rs)[i]| ==> '\n' !in Blocks(rs)[i][k]
    {
      BlockLinesNoNewline(rs[i]);
    }
  }

  lemma HeaderNoNewline(today: Date)
    ensures forall k :: 0 <= k < |HeaderLines(today)| ==> '\n' !in HeaderLines(today)[k]
  {
    RenderDatePlain(today);
    PlainNoNewline(RenderDate(today));
    ProgramNameNoNewline();
  }

  lemma ProgramNameNoNewline()
    ensures '\n' !in "A quick and dirty TXF script"
  {
    var s := "A quick and dirty TXF script";
    assert forall k :: 0 <= k < |s| ==> s[k] != '\n';
  }

  lemma AppendNoNewline(a: seq<string>, b: seq<string>)
    requires forall k :: 0 <= k < |a| ==> '\n' !in a[k]
    requires forall k :: 0 <= k < |b| ==> '\n' !in b[k]
    ensures forall k :: 0 <= k < |a + b| ==> '\n' !in (a + b)[k]
  {
  }

  /**
   * Read line by line, the TXF text is exactly the header and the blocks:
   * every field is on a line of its own.
   */
  lemma TxfTextLines(rs: seq<Record>, today: Date)
    requires forall i :: 0 <= i < |rs| ==> '\n' !in rs[i].symbol
    ensures SplitOn(TxfText(rs, today), '\n') == TxfLines(rs, today) + [""]
  {
    HeaderNoNewline(today);
    BlocksNoNewline(rs);
    ConcatNoNewline(Blocks(rs));
    AppendNoNewline(HeaderLines(today), Concat(Blocks(rs)));
    SplitTerminated(TxfLines(rs, today));
  }

  /** What a TXF reader takes from a detailed-record block. */
  datatype TxfEntry = TxfEntry(quantity: Decimal, symbol: string, acquired: Date, sold: Date,
                               basis: int, proceeds: int, wash: Option<int>)

  /** The text of a line after its one-letter type code, when the line starts with it. */
  function Field(line: string, code: char): Option<string> {
    if |line| > 0 && line[0] == code then Some(line[1..]) else None
  }

  lemma FieldOf(c: char, a: string, b: string, d: string)
    ensures Field([c] + a + b + d, c) == Some(a + b + d)
  {
    assert ([c] + a + b + d)[1..] == a + b + d;
  }

  /** The value of a `D` line. */
  function DateField(line: string): Option<Date> {
    match Field(line, 'D')
    case None => None
    case Some(t) => ParseDate(t)
  }

  /** The value of a `$` line. */
  function AmountField(line: string): Option<int> {
    match Field(line, '$')
    case None => None
    case Some(t) => ParseCents(t)
  }

  /**
   * Reads an eleven-line `TD` block with reference number 715: the
   * description is a quantity and a symbol separated by the first space,
   * and an empty `$` line in the wash position means no wash.
   */
  function ReadBlock(ls: seq<string>): Option<TxfEntry> {
    if |ls| != 11 || ls[0] != "TD" || ls[1] != "N715" || ls[2] != "C1" || ls[3] != "L1" || ls[10] != "^" then None
    else ReadBody(ls[4], ls[5], ls[6], ls[7], ls[8], ls[9])
  }

  /** The `$` line of the wash position: `Some(None)` when it is empty, None when it does not read. */
  function WashField(line: string): Option<Option<int>> {
    if line == "$" then Some(None) else if AmountField(line).Some? then Some(AmountField(line)) else None
  }

  /** The six variable lines of a block read into an entry. */
  function ReadBody(description: string, acquiredLine: string, soldLine: string, basisLine: string,
                    proceedsLine: string, washLine: string): Option<TxfEntry> {
    var desc := Field(description, 'P');
    var i := if desc.Some? then IndexOf(desc.value, ' ') else 0;
    if desc.None? || i == |desc.value| then None
    else
      var q, acquired, sold := ParseDecimal(desc.value[..i]), DateField(acquiredLine), DateField(soldLine);
      var basis, proceeds, wash := AmountField(basisLine), AmountField(proceedsLine), WashField(washLine);
      if q.None? || acquired.None? || sold.None? || basis.None? || proceeds.None? || wash.None? then None
      else Some(TxfEntry(q.value, desc.value[i + 1..], acquired.value, sold.value, basis.value, proceeds.value, wash.value))
  }

  /** `ReadBlock` on a block whose every line reads. */
  lemma ReadBlockFrame(description: string, acquiredLine: string, soldLine: string, basisLine: string,
                       proceedsLine: string, washLine: string, desc: string, i: nat, q: Decimal,
                       acquired: Date, sold: Date, basis: int, proceeds: int, wash: Option<int>)
    requires Field(description, 'P') == Some(desc) && i == IndexOf(desc, ' ') && i < |desc|
    requires ParseDecimal(desc[..i]) == Some(q)
    requires DateField(acquiredLine) == Some(acquired) && DateField(soldLine) == Some(sold)
    requires AmountField(basisLine) == Some(basis) && AmountField(proceedsLine) == Some(proceeds)
    requires washLine == "$" <==> wash.None?
    requires wash.Some? ==> AmountField(washLine) == wash
    ensures ReadBlock(["TD", "N715", "C1", "L1", description, acquiredLine, soldLine, basisLine, proceedsLine, washLine, "^"])
            == Some(TxfEntry(q, desc[i + 1..], acquired, sold, basis, proceeds, wash))
  {
    assert WashField(washLine) == Some(wash);
    assert ReadBody(description, acquiredLine, soldLine, basisLine, proceedsLine, washLine)
           == Some(TxfEntry(q, desc[i + 1..], acquired, sold, basis, proceeds, wash));
    BlockFrame(description, acquiredLine, soldLine, basisLine, proceedsLine, washLine);
  }

  /** A block with the `TD` frame reads as its six variable lines. */
  lemma BlockFrame(description: string, acquiredLine: string, soldLine: string, basisLine: string,
                   proceedsLine: string, washLine: string)
    ensures ReadBlock(["TD", "N715", "C1", "L1", description, acquiredLine, soldLine, basisLine, proceedsLine, washLine, "^"])
            == ReadBody(description, acquiredLine, soldLine, basisLine, proceedsLine, washLine)
  {
    var ls := ["TD", "N715", "C1", "L1", description, acquiredLine, soldLine, basisLine, proceedsLine, washLine, "^"];
    assert ls[..4] == ["TD", "N715", "C1", "L1"] && ls[10] == "^";
    ReadBlockOfBody(ls);
  }

  lemma ReadBlockOfBody(ls: seq<string>)
    requires |ls| == 11 && ls[..4] == ["TD", "N715", "C1", "L1"] && ls[10] == "^"
    ensures ReadBlock(ls) == ReadBody(ls[4], ls[5], ls[6], ls[7], ls[8], ls[9])
  {
    assert ls[0] == ls[..4][0] && ls[1] == ls[..4][1] && ls[2] == ls[..4][2] && ls[3] == ls[..4][3];
  }

  /** `ReadBlock` takes back the fields of a block whose every field text reads. */
  lemma BlockOfReads(qt: string, symbol: string, a: string, s: string, b: string, p: string, w: string,
                     q: Decimal, acquired: Date, sold: Date, basis: int, proceeds: int, wash: Option<int>)
    requires ' ' !in qt && ParseDecimal(qt) == Some(q)
    requires ParseDate(a) == Some(acquired) && ParseDate(s) == Some(sold)
    requires ParseCents(b) == Some(basis) && ParseCents(p) == Some(proceeds)
    requires w == "" <==> wash.None?
    requires wash.Some? ==> ParseCents(w) == wash
    ensures ReadBlock(BlockOf(qt, symbol, a, s, b, p, w)) == Some(TxfEntry(q, symbol, acquired, sold, basis, proceeds, wash))
  {
    var desc := qt + " " + symbol;
    FieldOf('P', qt, " ", symbol);
    assert forall k :: 0 <= k < |qt| ==> desc[k] == qt[k];
    IndexOfFirst(desc, ' ', |qt|);
    assert desc[..|qt|] == qt && desc[|qt| + 1..] == symbol;
    DateFieldOf(a);
    DateFieldOf(s);
    AmountFieldOf(b);
    AmountFieldOf(p);
    AmountFieldOf(w);
    assert "$" + w == "$" <==> w == "";
    ReadBlockFrame("P" + qt + " " + symbol, "D" + a, "D" + s, "$" + b, "$" + p, "$" + w, desc, |qt|, q,
                   acquired, sold, basis, proceeds, wash);
  }

  lemma DateFieldOf(t: string)
    ensures DateField("D" + t) == ParseDate(t)
  {
    assert ("D" + t)[1..] == t;
  }

  lemma AmountFieldOf(t: string)
    ensures AmountField("$" + t) == ParseCents(t)
  {
    assert ("$" + t)[1..] == t;
  }

  /**
   * A TXF reader gets back what the block was written from: the quantity's
   * value, the symbol, both dates, basis and proceeds to the cent, and the
   * wash amount, except that a zero wash reads as none.
   */
  lemma BlockRoundTrip(r: Record)
    requires Valid(r.acquisitionDate) && Valid(r.saleDate)
    ensures ReadBlock(BlockLines(r)).Some?
    ensures var e := ReadBlock(BlockLines(r)).value;
            e.symbol == r.symbol && e.acquired == r.acquisitionDate && e.sold == r.saleDate
            && e.basis == r.basis && e.proceeds == r.proceeds
            && e.wash == (if r.wash == Some(0) then None else r.wash)
            && !e.quantity.negative
            && e.quantity.mantissa * Pow10(r.quantity.scale) == r.quantity.mantissa * Pow10(e.quantity.scale)
  {
    var qt := RenderQuantity(r.quantity);
    QuantityRoundTrip(r.quantity);
    RenderQuantityPlain(r.quantity);
    PlainNoNewline(qt);
    DateRoundTrip(r.acquisitionDate);
    DateRoundTrip(r.saleDate);
    CentsRoundTrip(r.basis);
    CentsRoundTrip(r.proceeds);
    if WashText(r) != "" {
      CentsRoundTrip(r.wash.value);
    }
    BlockOfReads(qt, r.symbol, RenderDate(r.acquisitionDate), RenderDate(r.saleDate), FormatCents(r.basis),
                 FormatCents(r.proceeds), WashText(r), ParseDecimal(qt).value, r.acquisitionDate, r.saleDate,
                 r.basis, r.proceeds, if r.wash == Some(0) then None else r.wash);
  }
}
