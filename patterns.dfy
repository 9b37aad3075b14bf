/**
 * The regular expressions of convert-1099B-2022.py, each written as a
 * matcher that returns the parse tree of the text it accepts, with lemmas
 * that it accepts exactly the texts the tree describes.  `\d` is an ASCII
 * digit and `\s` a character for which `str.isspace()` holds.
 */
module Patterns {
  import opened Wrappers
  import opened Text
  import opened Numbers

  /** `\d{2}/\d{2}/\d{4}` */
  predicate IsDateText(t: string) {
    |t| == 10 && t[2] == '/' && t[5] == '/'
    && forall k :: 0 <= k < 10 && k != 2 && k != 5 ==> IsDigit(t[k])
  }

  /** `[\d,]+(?:\.\d+)`: digits and commas, a point, digits. */
  predicate IsAmountText(t: string) {
    var p := IndexOf(t, '.');
    0 < p < |t| && (forall k :: 0 <= k < p ==> IsDigit(t[k]) || t[k] == ',') && Digits(t[p + 1..])
  }

  /** `\d+(?:\.\d+)?`: digits, then maybe a point and digits. */
  predicate IsQuantityText(t: string) {
    var p := IndexOf(t, '.');
    Digits(t[..p]) && (p == |t| || Digits(t[p + 1..]))
  }

  /** `\s+` */
  predicate IsSpaceRun(w: string) {
    |w| > 0 && forall k :: 0 <= k < |w| ==> IsSpace(w[k])
  }

  /** A non-empty run of characters that are not whitespace. */
  predicate IsWord(t: string) {
    |t| > 0 && forall k :: 0 <= k < |t| ==> !IsSpace(t[k])
  }

  /** A word and the run of whitespace before it. */
  datatype Spaced = Spaced(space: string, word: string)

  function Flat(items: seq<Spaced>): string {
    if |items| == 0 then "" else items[0].space + items[0].word + Flat(items[1..])
  }

  predicate WellSpaced(items: seq<Spaced>) {
    forall i :: 0 <= i < |items| ==> IsSpaceRun(items[i].space) && IsWord(items[i].word)
  }

  /** The end of the run of whitespace that starts at `i`. */
  function SpacesEnd(s: string, i: nat): (e: nat)
    requires i <= |s|
    ensures i <= e <= |s| && (e == |s| || !IsSpace(s[e]))
    decreases |s| - i
  {
    if i < |s| && IsSpace(s[i]) then SpacesEnd(s, i + 1) else i
  }

  /** The end of the word that starts at `i`. */
  function WordEnd(s: string, i: nat): (e: nat)
    requires i <= |s|
    ensures i <= e <= |s| && (e == |s| || IsSpace(s[e]))
    decreases |s| - i
  {
    if i < |s| && !IsSpace(s[i]) then WordEnd(s, i + 1) else i
  }

  /**
   * `s[i..]` cut into words, each after a run of whitespace; None when a
   * word does not follow whitespace or the text ends with whitespace.
   */
  function SpacedFrom(s: string, i: nat): Option<seq<Spaced>>
    requires i <= |s|
    decreases |s| - i
  {
    if i == |s| then Some([])
    else
      var n := SpacesEnd(s, i);
      var e := WordEnd(s, n);
      if n == i || e == n then None
      else
        var rest := SpacedFrom(s, e);
        if rest.None? then None else Some([Spaced(s[i..n], s[n..e])] + rest.value)
  }

  lemma {:induction false} SpacesEndRun(s: string, i: nat)
    requires i <= |s|
    ensures forall k :: i <= k < SpacesEnd(s, i) ==> IsSpace(s[k])
    decreases |s| - i
  {
    if i < |s| && IsSpace(s[i]) {
      SpacesEndRun(s, i + 1);
    }
  }

  lemma {:induction false} WordEndRun(s: string, i: nat)
    requires i <= |s|
    ensures forall k :: i <= k < WordEnd(s, i) ==> !IsSpace(s[k])
    decreases |s| - i
  {
    if i < |s| && !IsSpace(s[i]) {
      WordEndRun(s, i + 1);
    }
  }

  lemma {:induction false} SpacesEndOf(s: string, i: nat, j: nat)
    requires i <= j <= |s| && (forall k :: i <= k < j ==> IsSpace(s[k])) && (j == |s| || !IsSpace(s[j]))
    ensures SpacesEnd(s, i) == j
    decreases j - i
  {
    if i < j {
      SpacesEndOf(s, i + 1, j);
    }
  }

  lemma {:induction false} WordEndOf(s: string, i: nat, j: nat)
    requires i <= j <= |s| && (forall k :: i <= k < j ==> !IsSpace(s[k])) && (j == |s| || IsSpace(s[j]))
    ensures WordEnd(s, i) == j
    decreases j - i
  {
    if i < j {
      WordEndOf(s, i + 1, j);
    }
  }

  lemma ConsSpaced(w: string, t: string, rest: seq<Spaced>)
    requires IsSpaceRun(w) && IsWord(t) && WellSpaced(rest)
    ensures WellSpaced([Spaced(w, t)] + rest)
    ensures Flat([Spaced(w, t)] + rest) == w + t + Flat(rest)
  {
    assert ([Spaced(w, t)] + rest)[1..] == rest;
  }

  lemma FlatStart(items: seq<Spaced>)
    requires WellSpaced(items)
    ensures Flat(items) == "" || IsSpace(Flat(items)[0])
  {
    if items != [] {
      assert Flat(items) == items[0].space + (items[0].word + Flat(items[1..]));
    }
  }

  lemma SliceParts(s: string, i: nat, n: nat, e: nat)
    requires i <= n <= e <= |s|
    ensures s[i..] == s[i..n] + s[n..e] + s[e..]
  {
  }

  /** The run of whitespace and the word cut off at `i` are well formed. */
  lemma CutParts(s: string, i: nat, n: nat, e: nat)
    requires i < n <= e <= |s| && n < e
    requires forall k :: i <= k < n ==> IsSpace(s[k])
    requires forall k :: n <= k < e ==> !IsSpace(s[k])
    ensures IsSpaceRun(s[i..n]) && IsWord(s[n..e])
  {
    assert forall k :: 0 <= k < n - i ==> s[i..n][k] == s[i + k];
    assert forall k :: 0 <= k < e - n ==> s[n..e][k] == s[n + k];
  }

  lemma {:induction false} SpacedFromSound(s: string, i: nat)
    requires i <= |s| && SpacedFrom(s, i).Some?
    ensures WellSpaced(SpacedFrom(s, i).value) && Flat(SpacedFrom(s, i).value) == s[i..]
    decreases |s| - i
  {
    if i < |s| {
      var n := SpacesEnd(s, i);
      var e := WordEnd(s, n);
      SpacedFromSound(s, e);
      SpacesEndRun(s, i);
      WordEndRun(s, n);
      CutParts(s, i, n, e);
      ConsSpaced(s[i..n], s[n..e], SpacedFrom(s, e).value);
      SliceParts(s, i, n, e);
    }
  }

  lemma Step(s: string, i: nat, n: nat, e: nat, items: seq<Spaced>)
    requires i < n < e <= |s| && SpacesEnd(s, i) == n && WordEnd(s, n) == e && SpacedFrom(s, e) == Some(items)
    ensures SpacedFrom(s, i) == Some([Spaced(s[i..n], s[n..e])] + items)
  {
  }

  /** Where `s[i..]` spells `w`, `t` and `rest`, each character sits at its place. */
  lemma Placed(s: string, i: nat, w: string, t: string, rest: string)
    requires i <= |s| && s[i..] == w + t + rest
    ensures i + |w| + |t| <= |s|
    ensures forall k :: i <= k < i + |w| ==> s[k] == w[k - i]
    ensures forall k :: i + |w| <= k < i + |w| + |t| ==> s[k] == t[k - i - |w|]
    ensures s[i..i + |w|] == w && s[i + |w|..i + |w| + |t|] == t && s[i + |w| + |t|..] == rest
  {
    assert forall k :: i <= k < |s| ==> s[k] == s[i..][k - i];
  }

  lemma WellSpacedTail(items: seq<Spaced>)
    requires WellSpaced(items) && items != []
    ensures WellSpaced(items[1..]) && IsSpaceRun(items[0].space) && IsWord(items[0].word)
  {
    assert forall j :: 0 <= j < |items| - 1 ==> items[1..][j] == items[j + 1];
  }

  /** A run of whitespace and a word spelled at `i`, with whitespace or the end after them, are cut there. */
  lemma CutAt(s: string, i: nat, n: nat, e: nat, w: string, t: string, rest: string)
    requires i <= |s| && s[i..] == w + t + rest && n == i + |w| && e == n + |t|
    requires IsSpaceRun(w) && IsWord(t) && (rest == "" || IsSpace(rest[0]))
    ensures e <= |s| && SpacesEnd(s, i) == n && WordEnd(s, n) == e
    ensures s[i..n] == w && s[n..e] == t && s[e..] == rest
  {
    Placed(s, i, w, t, rest);
    assert e < |s| ==> s[e] == rest[0] by {
      if e < |s| {
        assert s[e..][0] == s[e];
      }
    }
    SpacesEndOf(s, i, n);
    WordEndOf(s, n, e);
  }

  /** The first item of well-spaced words spelled at `i` is cut off there, leaving the others. */
  lemma FirstCut(s: string, i: nat, n: nat, e: nat, items: seq<Spaced>)
    requires i <= |s| && WellSpaced(items) && s[i..] == Flat(items) && items != []
    requires n == i + |items[0].space| && e == n + |items[0].word|
    ensures i < n < e <= |s|
    ensures SpacesEnd(s, i) == n && WordEnd(s, n) == e
    ensures s[i..n] == items[0].space && s[n..e] == items[0].word
    ensures WellSpaced(items[1..]) && s[e..] == Flat(items[1..])
  {
    var w, t, rest := items[0].space, items[0].word, Flat(items[1..]);
    assert s[i..] == w + t + rest;
    WellSpacedTail(items);
    FlatStart(items[1..]);
    CutAt(s, i, n, e, w, t, rest);
  }

  lemma FirstItem(s: string, i: nat, n: nat, e: nat, items: seq<Spaced>)
    requires items != [] && n == i + |items[0].space| && e == n + |items[0].word|
    requires i < n < e <= |s|
    requires SpacesEnd(s, i) == n
    requires WordEnd(s, n) == e
    requires s[i..n] == items[0].space
    requires s[n..e] == items[0].word
    requires SpacedFrom(s, e) == Some(items[1..])
    ensures SpacedFrom(s, i) == Some(items)
  {
    Step(s, i, n, e, items[1..]);
    assert items == [Spaced(items[0].space, items[0].word)] + items[1..];
  }

  lemma {:induction false} SpacedFromComplete(s: string, i: nat, items: seq<Spaced>)
    requires i <= |s| && WellSpaced(items) && s[i..] == Flat(items)
    ensures SpacedFrom(s, i) == Some(items)
    decreases |items|
  {
    if items == [] {
      assert |s[i..]| == 0;
    } else {
      var n := i + |items[0].space|;
      var e := n + |items[0].word|;
      FirstCut(s, i, n, e, items);
      SpacedFromComplete(s, e, items[1..]);
      FirstItem(s, i, n, e, items);
    }
  }

  /**
   * The parse tree of `(\d{2}/\d{2}/\d{4})\s+(A)\s+(A)(?:\s+(A))?\s+X$`
   * with A = `[\d,]+(?:\.\d+)`: the acquisition date, proceeds, basis, an
   * optional wash amount, and the whitespace before the final `X`.
   */
  datatype DateLine = DateLine(acquired: string, proceeds: Spaced, basis: Spaced, wash: Option<Spaced>, xSpace: string)

  function DateLineWords(d: DateLine): seq<Spaced> {
    [d.proceeds, d.basis] + (if d.wash.Some? then [d.wash.value] else []) + [Spaced(d.xSpace, "X")]
  }

  function DateLineText(d: DateLine): string {
    d.acquired + Flat(DateLineWords(d))
  }

  /** The proceeds, basis and wash words are amounts. */
  predicate HasAmounts(d: DateLine) {
    IsAmountText(d.proceeds.word) && IsAmountText(d.basis.word)
    && (d.wash.Some? ==> IsAmountText(d.wash.value.word))
  }

  predicate WellFormedDateLine(d: DateLine) {
    IsDateText(d.acquired) && WellSpaced(DateLineWords(d)) && HasAmounts(d)
  }

  /** `re.match` of the acquisition-date line pattern. */
  function MatchDateLine(s: string): (r: Option<DateLine>)
    ensures r.Some? ==> IsDateText(r.value.acquired) && HasAmounts(r.value)
  {
    if |s| < 10 || !IsDateText(s[..10]) then None
    else
      match SpacedFrom(s, 10)
      case None => None
      case Some(ws) =>
        if (|ws| == 3 || |ws| == 4) && ws[|ws| - 1].word == "X"
           && IsAmountText(ws[0].word) && IsAmountText(ws[1].word)
           && (|ws| == 4 ==> IsAmountText(ws[2].word))
        then Some(DateLine(s[..10], ws[0], ws[1], if |ws| == 4 then Some(ws[2]) else None, ws[|ws| - 1].space))
        else None
  }

  /** What the date-line matcher accepts is a well-formed tree spelling out the line. */
  lemma MatchDateLineSound(s: string)
    requires MatchDateLine(s).Some?
    ensures WellFormedDateLine(MatchDateLine(s).value) && DateLineText(MatchDateLine(s).value) == s
  {
    SpacedFromSound(s, 10);
    DateLineOfWords(s[..10], SpacedFrom(s, 10).value);
    TwoSlices(s, 10);
  }

  /** The tree the date-line matcher builds from the words after the date lists those words. */
  lemma DateLineOfWords(date: string, ws: seq<Spaced>)
    requires (|ws| == 3 || |ws| == 4) && ws[|ws| - 1].word == "X"
    ensures DateLineWords(DateLine(date, ws[0], ws[1], if |ws| == 4 then Some(ws[2]) else None, ws[|ws| - 1].space)) == ws
  {
    if |ws| == 4 {
      assert ws == [ws[0], ws[1]] + [ws[2]] + [Spaced(ws[3].space, "X")];
    } else {
      assert ws == [ws[0], ws[1]] + [] + [Spaced(ws[2].space, "X")];
    }
  }

  lemma TwoSlices(s: string, a: nat)
    requires a <= |s|
    ensures s == s[..a] + s[a..]
  {
  }

  /** Every well-formed tree's line is matched, with that tree. */
  lemma MatchDateLineComplete(d: DateLine)
    requires WellFormedDateLine(d)
    ensures MatchDateLine(DateLineText(d)) == Some(d)
  {
    var s := DateLineText(d);
    var ws := DateLineWords(d);
    assert s[..10] == d.acquired && s[10..] == Flat(ws);
    SpacedFromComplete(s, 10, ws);
  }

  /** The parse tree of `\d+(?:\.\d+)? SHARES? OF (GOOGL?)`. */
  datatype Description = Description(quantity: string, plural: bool, symbol: string)

  function DescriptionText(d: Description): string {
    d.quantity + (if d.plural then " SHARES OF " else " SHARE OF ") + d.symbol
  }

  predicate WellFormedDescription(d: Description) {
    IsQuantityText(d.quantity) && (d.symbol == "GOOG" || d.symbol == "GOOGL")
  }

  /**
   * The description at the start of `line` and the text after it, the
   * optional `L` taken whenever it is there.
   */
  function MatchDescriptionHead(line: string): (r: Option<(Description, string)>)
    ensures r.Some? ==> r.value.0.symbol == "GOOG" || r.value.0.symbol == "GOOGL"
  {
    var i := IndexOf(line, ' ');
    var q, r := line[..i], line[i..];
    var plural := StartsWith(r, " SHARES OF ");
    if !IsQuantityText(q) || !(plural || StartsWith(r, " SHARE OF ")) then None
    else
      var t := if plural then r[11..] else r[10..];
      if StartsWith(t, "GOOGL") then Some((Description(q, plural, "GOOGL"), t[5..]))
      else if StartsWith(t, "GOOG") then Some((Description(q, plural, "GOOG"), t[4..]))
      else None
  }

  lemma MatchDescriptionHeadSound(line: string)
    requires MatchDescriptionHead(line).Some?
    ensures var (d, rest) := MatchDescriptionHead(line).value;
            WellFormedDescription(d) && line == DescriptionText(d) + rest
  {
    var i := IndexOf(line, ' ');
    var q, r := line[..i], line[i..];
    var plural := StartsWith(r, " SHARES OF ");
    var sep := if plural then " SHARES OF " else " SHARE OF ";
    var t := r[|sep|..];
    var (d, rest) := MatchDescriptionHead(line).value;
    TwoSlices(line, i);
    PrefixSplit(r, sep);
    PrefixSplit(t, d.symbol);
    Regroup(q, sep, d.symbol, rest);
  }

  lemma PrefixSplit(s: string, prefix: string)
    requires StartsWith(s, prefix)
    ensures s == prefix + s[|prefix|..]
  {
  }

  lemma Regroup(a: string, b: string, c: string, d: string)
    ensures a + (b + (c + d)) == a + b + c + d
  {
  }

  /** The characters of a quantity are digits and points. */
  lemma QuantityChars(q: string)
    requires IsQuantityText(q)
    ensures forall k :: 0 <= k < |q| ==> IsDigit(q[k]) || q[k] == '.'
  {
    var p := IndexOf(q, '.');
    forall k | 0 <= k < |q|
      ensures IsDigit(q[k]) || q[k] == '.'
    {
      if k < p {
        assert q[k] == q[..p][k];
      } else if k > p {
        assert q[k] == q[p + 1..][k - p - 1];
      }
    }
  }

  /**
   * A well-formed description is matched with its own tree, whatever
   * follows it, unless an `L` that the greedy `L?` would take follows `GOOG`.
   */
  lemma MatchDescriptionHeadComplete(d: Description, rest: string)
    requires WellFormedDescription(d)
    requires d.symbol == "GOOG" ==> rest == "" || rest[0] != 'L'
    ensures MatchDescriptionHead(DescriptionText(d) + rest) == Some((d, rest))
  {
    var sep := if d.plural then " SHARES OF " else " SHARE OF ";
    var q, t := d.quantity, d.symbol + rest;
    var r := sep + t;
    var line := DescriptionText(d) + rest;
    Regroup(q, sep, d.symbol, rest);
    assert line == q + r;
    QuantityChars(q);
    assert forall k :: 0 <= k < |q| ==> line[k] == q[k];
    IndexOfFirst(line, ' ', |q|);
    PrefixOf(q, r);
    PrefixOf(sep, t);
    if !d.plural {
      assert !StartsWith(r, " SHARES OF ") by {
        assert r[6] == ' ';
      }
    }
    PrefixOf(d.symbol, rest);
    if d.symbol == "GOOG" {
      assert !StartsWith(t, "GOOGL") by {
        if |t| >= 5 {
          assert t[4] == rest[0];
        }
      }
    }
  }

  lemma PrefixOf(p: string, x: string)
    ensures StartsWith(p + x, p) && (p + x)[..|p|] == p && (p + x)[|p|..] == x
  {
  }

  /** `re.match` of the description pattern, anchored at the end by `$`. */
  function MatchDescription(line: string): (r: Option<Description>)
    ensures r.Some? ==> r.value.symbol == "GOOG" || r.value.symbol == "GOOGL"
  {
    match MatchDescriptionHead(line)
    case None => None
    case Some((d, rest)) => if rest == "" then Some(d) else None
  }

  /** A description line is exactly the text of a well-formed tree. */
  lemma MatchDescriptionExact(line: string, d: Description)
    ensures MatchDescription(line) == Some(d) <==> WellFormedDescription(d) && line == DescriptionText(d)
  {
    if MatchDescription(line) == Some(d) {
      MatchDescriptionHeadSound(line);
      assert DescriptionText(d) + "" == DescriptionText(d);
    }
    if WellFormedDescription(d) && line == DescriptionText(d) {
      MatchDescriptionHeadComplete(d, "");
      assert DescriptionText(d) + "" == line;
    }
  }

  /**
   * `re.match` of the joined pattern: a description, one space, and an
   * acquisition-date line.
   */
  function MatchCombined(line: string): (r: Option<(Description, DateLine)>)
    ensures r.Some? ==> (r.value.0.symbol == "GOOG" || r.value.0.symbol == "GOOGL")
                        && IsDateText(r.value.1.acquired) && HasAmounts(r.value.1)
  {
    match MatchDescriptionHead(line)
    case None => None
    case Some((d, rest)) =>
      if rest == "" || rest[0] != ' ' then None
      else
        match MatchDateLine(rest[1..])
        case None => None
        case Some(l) => Some((d, l))
  }

  /** A joined line is exactly a description, a space and a date line, each well formed. */
  lemma MatchCombinedExact(line: string, d: Description, l: DateLine)
    ensures MatchCombined(line) == Some((d, l)) <==>
            WellFormedDescription(d) && WellFormedDateLine(l) && line == DescriptionText(d) + " " + DateLineText(l)
  {
    if MatchCombined(line) == Some((d, l)) {
      MatchCombinedSound(line);
    }
    if WellFormedDescription(d) && WellFormedDateLine(l) && line == DescriptionText(d) + " " + DateLineText(l) {
      MatchCombinedComplete(d, l);
    }
  }

  lemma MatchCombinedSound(line: string)
    requires MatchCombined(line).Some?
    ensures var (d, l) := MatchCombined(line).value;
            WellFormedDescription(d) && WellFormedDateLine(l) && line == DescriptionText(d) + " " + DateLineText(l)
  {
    MatchDescriptionHeadSound(line);
    var rest := MatchDescriptionHead(line).value.1;
    MatchDateLineSound(rest[1..]);
    TwoSlices(rest, 1);
    assert rest[..1] == " ";
    AppendAssoc(DescriptionText(MatchCombined(line).value.0), " ", rest[1..]);
  }

  lemma MatchCombinedComplete(d: Description, l: DateLine)
    requires WellFormedDescription(d) && WellFormedDateLine(l)
    ensures MatchCombined(DescriptionText(d) + " " + DateLineText(l)) == Some((d, l))
  {
    var rest := " " + DateLineText(l);
    MatchDescriptionHeadComplete(d, rest);
    AppendAssoc(DescriptionText(d), " ", DateLineText(l));
    MatchDateLineComplete(l);
    PrefixOf(" ", DateLineText(l));
  }

  /** A line that matches the joined pattern never passes as a lone description. */
  lemma CombinedIsNotDescription(line: string)
    requires MatchCombined(line).Some?
    ensures MatchDescription(line).None?
  {
  }

  /** `re.match` of `(\d{2}/\d{2}/\d{4})\sGROSS$`: the sale date. */
  function MatchSaleLine(line: string): Option<string> {
    if |line| == 16 && IsDateText(line[..10]) && IsSpace(line[10]) && line[11..] == "GROSS" then Some(line[..10])
    else None
  }

  /** The sale line is a date, one whitespace character and `GROSS`, and nothing else. */
  lemma MatchSaleLineExact(line: string, date: string)
    ensures MatchSaleLine(line) == Some(date) <==>
            IsDateText(date) && |line| == 16 && IsSpace(line[10]) && line == date + [line[10]] + "GROSS"
  {
    if |line| == 16 && line == date + [line[10]] + "GROSS" {
      assert line[..10] == date && line[11..] == "GROSS";
    }
    if MatchSaleLine(line) == Some(date) {
      assert line == line[..10] + [line[10]] + line[11..];
    }
  }

  /** The category letter of `Box ([BE]) checked` when it occurs at index `i`. */
  function MarkerAt(line: string, i: nat): Option<char> {
    if i + 13 <= |line| && line[i..i + 4] == "Box " && (line[i + 4] == 'B' || line[i + 4] == 'E')
       && line[i + 5..i + 13] == " checked"
    then Some(line[i + 4])
    else None
  }

  /** Index of the leftmost marker at or after `i`. */
  function MarkerFrom(line: string, i: nat): Option<nat>
    decreases |line| - i
  {
    if i >= |line| then None
    else if MarkerAt(line, i).Some? then Some(i)
    else MarkerFrom(line, i + 1)
  }

  /** `re.search(r'Box ([BE]) checked', line).group(1)`. */
  function FindMarker(line: string): (r: Option<char>)
    ensures r.Some? ==> r.value == 'B' || r.value == 'E'
  {
    match MarkerFrom(line, 0)
    case None => None
    case Some(k) => MarkerAt(line, k)
  }

  lemma {:induction false} MarkerFromLeftmost(line: string, i: nat)
    ensures MarkerFrom(line, i).Some? ==>
              var k := MarkerFrom(line, i).value;
              i <= k && MarkerAt(line, k).Some? && forall j :: i <= j < k ==> MarkerAt(line, j).None?
    ensures MarkerFrom(line, i).None? ==> forall j :: i <= j ==> MarkerAt(line, j).None?
    decreases |line| - i
  {
    if i < |line| && MarkerAt(line, i).None? {
      MarkerFromLeftmost(line, i + 1);
    }
  }

  /** The search finds the letter of the leftmost marker, and finds nothing only when there is none. */
  lemma FindMarkerLeftmost(line: string, k: nat)
    ensures FindMarker(line).None? <==> forall j :: MarkerAt(line, j).None?
    ensures MarkerAt(line, k).Some? && (forall j :: 0 <= j < k ==> MarkerAt(line, j).None?)
            ==> FindMarker(line) == MarkerAt(line, k)
  {
    MarkerFromLeftmost(line, 0);
  }

  /** Every marker holds a lower-case `x`. */
  lemma MarkerHasX(line: string)
    requires 'x' !in line
    ensures FindMarker(line).None?
  {
    MarkerFromLeftmost(line, 0);
    forall j: nat
      ensures MarkerAt(line, j).None?
    {
      if j + 13 <= |line| && line[j..j + 4] == "Box " {
        assert line[j + 2] == line[j..j + 4][2];
      }
    }
  }

  lemma AmountHasNoX(t: string)
    requires IsAmountText(t)
    ensures 'x' !in t
  {
    var p := IndexOf(t, '.');
    forall k | 0 <= k < |t|
      ensures t[k] != 'x'
    {
      if k > p {
        assert t[k] == t[p + 1..][k - p - 1];
      }
    }
  }

  lemma {:induction false} FlatHasNoX(items: seq<Spaced>)
    requires WellSpaced(items)
    requires forall i :: 0 <= i < |items| ==> 'x' !in items[i].word
    ensures 'x' !in Flat(items)
  {
    if items != [] {
      FlatHasNoX(items[1..]);
      assert !IsSpace('x');
    }
  }

  /** No line the record patterns accept can hold a category marker. */
  lemma RecordLinesHaveNoMarker(line: string)
    requires MatchDescription(line).Some? || MatchCombined(line).Some? || MatchDateLine(line).Some?
             || MatchSaleLine(line).Some?
    ensures FindMarker(line).None?
  {
    if MatchDescription(line).Some? {
      MatchDescriptionExact(line, MatchDescription(line).value);
      DescriptionHasNoX(MatchDescription(line).value);
    } else if MatchCombined(line).Some? {
      MatchCombinedSound(line);
      var (d, l) := MatchCombined(line).value;
      DescriptionHasNoX(d);
      DateLineHasNoX(l);
    } else if MatchDateLine(line).Some? {
      MatchDateLineSound(line);
      DateLineHasNoX(MatchDateLine(line).value);
    } else {
      SaleLineHasNoX(line);
    }
    MarkerHasX(line);
  }

  lemma SaleLineHasNoX(line: string)
    requires MatchSaleLine(line).Some?
    ensures 'x' !in line
  {
    MatchSaleLineExact(line, line[..10]);
    assert !IsSpace('x');
  }

  lemma DescriptionHasNoX(d: Description)
    requires WellFormedDescription(d)
    ensures 'x' !in DescriptionText(d)
  {
    QuantityChars(d.quantity);
    assert 'x' !in d.quantity;
  }

  lemma DateLineHasNoX(d: DateLine)
    requires WellFormedDateLine(d)
    ensures 'x' !in DateLineText(d)
  {
    var ws := DateLineWords(d);
    AmountHasNoX(d.proceeds.word);
    AmountHasNoX(d.basis.word);
    if d.wash.Some? {
      AmountHasNoX(d.wash.value.word);
    }
    FlatHasNoX(ws);
    assert forall k :: 0 <= k < 10 ==> d.acquired[k] != 'x';
  }
}
