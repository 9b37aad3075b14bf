/**
 * The driver of taxform_parser.py: the records read from a statement are
 * sorted by sale date (a stable sort, as Python's `list.sort`), a statement
 * without records is refused, and the TXF text of the sorted records is the
 * output.
 */
module TaxformMain {
  import opened Wrappers
  import opened Dates
  import opened TaxformParser
  import opened TaxformTxf

  /** `x` placed after the last record whose sale date is not after its own. */
  function Insert(s: seq<Record>, x: Record): seq<Record> {
    if s == [] then [x]
    else if NotAfter(s[|s| - 1].saleDate, x.saleDate) then s + [x]
    else Insert(s[..|s| - 1], x) + [s[|s| - 1]]
  }

  /** `records.sort(key=lambda x: x.sale_date)`: records in order of sale date, ties in input order. */
  function SortBySaleDate(rs: seq<Record>): seq<Record> {
    if rs == [] then [] else Insert(SortBySaleDate(rs[..|rs| - 1]), rs[|rs| - 1])
  }

  predicate Sorted(s: seq<Record>) {
    forall i, j :: 0 <= i < j < |s| ==> NotAfter(s[i].saleDate, s[j].saleDate)
  }

  /** The records sold on day `d`, in their order. */
  function SoldOn(s: seq<Record>, d: Date): seq<Record> {
    if s == [] then [] else SoldOn(s[..|s| - 1], d) + (if s[|s| - 1].saleDate == d then [s[|s| - 1]] else [])
  }

  lemma {:induction false} SoldOnAppend(a: seq<Record>, b: seq<Record>, d: Date)
    ensures SoldOn(a + b, d) == SoldOn(a, d) + SoldOn(b, d)
    decreases |b|
  {
    if b == [] {
      assert a + b == a;
    } else {
      assert (a + b)[..|a + b| - 1] == a + b[..|b| - 1];
      SoldOnAppend(a, b[..|b| - 1], d);
    }
  }

  lemma {:induction false} InsertPermutes(s: seq<Record>, x: Record)
    ensures multiset(Insert(s, x)) == multiset(s) + multiset{x}
    decreases |s|
  {
    if s != [] && !NotAfter(s[|s| - 1].saleDate, x.saleDate) {
      InsertPermutes(s[..|s| - 1], x);
      assert s == s[..|s| - 1] + [s[|s| - 1]];
    }
  }

  lemma {:induction false} InsertSorted(s: seq<Record>, x: Record)
    requires Sorted(s)
    ensures Sorted(Insert(s, x))
    decreases |s|
  {
    if s != [] {
      var init, last := s[..|s| - 1], s[|s| - 1];
      if NotAfter(last.saleDate, x.saleDate) {
        forall i | 0 <= i < |s|
          ensures NotAfter(s[i].saleDate, x.saleDate)
        {
          if i < |s| - 1 {
            NotAfterTrans(s[i].saleDate, last.saleDate, x.saleDate);
          }
        }
      } else {
        InsertSorted(init, x);
        InsertPermutes(init, x);
        var t := Insert(init, x);
        NotAfterTotal(last.saleDate, x.saleDate);
        forall i | 0 <= i < |t|
          ensures NotAfter(t[i].saleDate, last.saleDate)
        {
          assert t[i] in multiset(init) + multiset{x};
          if t[i] != x {
            assert t[i] in init;
          }
        }
      }
    }
  }

  lemma NotAfterTrans(a: Date, b: Date, c: Date)
    requires NotAfter(a, b) && NotAfter(b, c)
    ensures NotAfter(a, c)
  {
  }

  /** Inserting `x` puts it after every record sold on its own day. */
  lemma {:induction false} InsertSoldOn(s: seq<Record>, x: Record, d: Date)
    ensures SoldOn(Insert(s, x), d) == SoldOn(s, d) + SoldOn([x], d)
    decreases |s|
  {
    if s == [] {
      assert Insert(s, x) == [] + [x];
    } else {
      var init, last := s[..|s| - 1], s[|s| - 1];
      if NotAfter(last.saleDate, x.saleDate) {
        SoldOnAppend(s, [x], d);
      } else {
        var t := Insert(init, x);
        assert Insert(s, x) == t + [last];
        assert s == init + [last];
        InsertSoldOn(init, x, d);
        SoldOnAppend(t, [last], d);
        SoldOnAppend(init, [last], d);
        SoldOnOther(x, last, d);
        SwapLast(SoldOn(init, d), SoldOn([x], d), SoldOn([last], d));
      }
    }
  }

  /** Of two records sold on different days, at most one is sold on `d`. */
  lemma SoldOnOther(x: Record, y: Record, d: Date)
    requires !NotAfter(y.saleDate, x.saleDate)
    ensures SoldOn([x], d) + SoldOn([y], d) == SoldOn([y], d) + SoldOn([x], d)
  {
    assert x.saleDate != y.saleDate;
    assert [x][..0] == [] && [y][..0] == [];
  }

  lemma SwapLast(a: seq<Record>, b: seq<Record>, c: seq<Record>)
    requires b + c == c + b
    ensures a + b + c == a + c + b
  {
    assert a + b + c == a + (b + c);
  }

  /** The sort puts the records in order of sale date. */
  lemma {:induction false} SortSorted(rs: seq<Record>)
    ensures Sorted(SortBySaleDate(rs))
    decreases |rs|
  {
    if rs != [] {
      SortSorted(rs[..|rs| - 1]);
      InsertSorted(SortBySaleDate(rs[..|rs| - 1]), rs[|rs| - 1]);
    }
  }

  /** The sort keeps every record, each as often as it occurs. */
  lemma {:induction false} SortPermutes(rs: seq<Record>)
    ensures multiset(SortBySaleDate(rs)) == multiset(rs)
    decreases |rs|
  {
    if rs != [] {
      var init, last := rs[..|rs| - 1], rs[|rs| - 1];
      SortPermutes(init);
      InsertPermutes(SortBySaleDate(init), last);
      MultisetSnoc(rs);
    }
  }

  lemma MultisetSnoc(rs: seq<Record>)
    requires rs != []
    ensures multiset(rs) == multiset(rs[..|rs| - 1]) + multiset{rs[|rs| - 1]}
  {
    assert rs == rs[..|rs| - 1] + [rs[|rs| - 1]];
  }

  /** The sort is stable: records sold on the same day keep their input order. */
  lemma {:induction false} SortStable(rs: seq<Record>, d: Date)
    ensures SoldOn(SortBySaleDate(rs), d) == SoldOn(rs, d)
    decreases |rs|
  {
    if rs != [] {
      var init, last := rs[..|rs| - 1], rs[|rs| - 1];
      SortStable(init, d);
      InsertSoldOn(SortBySaleDate(init), last, d);
      SoldOnSnoc(rs, d);
    }
  }

  lemma SoldOnSnoc(rs: seq<Record>, d: Date)
    requires rs != []
    ensures SoldOn(rs, d) == SoldOn(rs[..|rs| - 1], d) + SoldOn([rs[|rs| - 1]], d)
  {
    assert [rs[|rs| - 1]][..0] == [];
  }

  /** The outcome of a run: the TXF text, or why the statement was refused. */
  function Convert(text: string, today: Date): Result<string, ParseError> {
    match ParseForm(text)
    case Err(e) => Err(e)
    case Ok(records) =>
      var sorted := SortBySaleDate(records);
      if |sorted| == 0 then Err(NoRecords) else Ok(TxfText(sorted, today))
  }

  /**
   * The main program between reading the statement text and writing the
   * output file: parse, sort by sale date, refuse an empty statement, write
   * the TXF text.
   */
  method ConvertStatement(text: string, today: Date) returns (r: Result<string, ParseError>)
    ensures r == Convert(text, today)
  {
    var records, totals := Parse1099Form(text);
    if records.Err? {
      return Err(records.error);
    }
    var sorted := SortBySaleDate(records.value);
    if |sorted| == 0 {
      return Err(NoRecords);
    }
    var txf := TxfRecords(sorted, today);
    return Ok(txf);
  }

  /**
   * A run succeeds exactly when the statement parses and holds a record; its
   * output is then the TXF text of a reordering of the parsed records, in
   * order of sale date and stable among records sold the same day.
   */
  lemma ConvertOutcome(text: string, today: Date)
    ensures Convert(text, today).Ok? <==> ParseForm(text).Ok? && ParseForm(text).value != []
    ensures ParseForm(text).Err? ==> Convert(text, today) == Err(ParseForm(text).error)
    ensures Convert(text, today).Ok? ==>
              exists s :: Convert(text, today).value == TxfText(s, today)
                          && Sorted(s) && multiset(s) == multiset(ParseForm(text).value)
                          && forall d :: SoldOn(s, d) == SoldOn(ParseForm(text).value, d)
  {
    if ParseForm(text).Ok? {
      var rs := ParseForm(text).value;
      var s := SortBySaleDate(rs);
      SortSorted(rs);
      SortPermutes(rs);
      forall d
        ensures SoldOn(s, d) == SoldOn(rs, d)
      {
        SortStable(rs, d);
      }
      if rs != [] {
        assert |s| != 0 by {
          assert rs[0] in multiset(rs);
        }
        assert Convert(text, today).value == TxfText(s, today);
      } else {
        assert multiset(s) == multiset{};
      }
    }
  }
}
