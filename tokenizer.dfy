/**
 * The `Form1099Tokenizer` of taxform_parser.py: the stripped lines of the
 * statement text, a line cursor, and the not yet consumed words of the line
 * read last.  Its public view is the stream of words still to come, each
 * tagged with the line it comes from.
 */
module Tokenizer {
  import opened Wrappers
  import opened Text

  /** A word of the statement and the index of its line. */
  datatype Tok = Tok(text: string, line: nat)

  function Tag(words: seq<string>, line: nat): (ts: seq<Tok>)
    ensures |ts| == |words|
    ensures forall k :: 0 <= k < |ts| ==> ts[k] == Tok(words[k], line)
  {
    seq(|words|, k requires 0 <= k < |words| => Tok(words[k], line))
  }

  /** The words of each line: `line.split(' ')`. */
  function Words(lines: seq<string>): (ws: seq<seq<string>>)
    ensures |ws| == |lines|
    ensures forall j :: 0 <= j < |ws| ==> ws[j] == SplitOn(lines[j], ' ') && ws[j] != []
  {
    seq(|lines|, j requires 0 <= j < |lines| => SplitOn(lines[j], ' '))
  }

  /** Every line has at least one word (`split` never gives an empty list). */
  predicate NoEmptyLine(words: seq<seq<string>>) {
    forall j :: 0 <= j < |words| ==> words[j] != []
  }

  /** The words of lines j, j+1, ... in reading order, tagged with their line. */
  function Rest(words: seq<seq<string>>, j: nat): seq<Tok>
    decreases |words| - j
  {
    if j >= |words| then [] else Tag(words[j], j) + Rest(words, j + 1)
  }

  /** Every word still to come lies on a line at or after the cursor, and only the end has none. */
  lemma {:induction false} RestLines(words: seq<seq<string>>, j: nat)
    requires NoEmptyLine(words)
    ensures forall k :: 0 <= k < |Rest(words, j)| ==> j <= Rest(words, j)[k].line < |words|
    ensures Rest(words, j) == [] <==> j >= |words|
    decreases |words| - j
  {
    if j < |words| {
      RestLines(words, j + 1);
    }
  }

  lemma RestLine(words: seq<seq<string>>, j: nat, i: nat)
    requires NoEmptyLine(words)
    requires i < |Rest(words, j)|
    ensures j <= Rest(words, j)[i].line < |words|
  {
    RestLines(words, j);
  }

  /** The lines with a CUSIP of Alphabet stock: those starting with 3825 or 0207. */
  predicate IsCusipLine(s: string) {
    StartsWith(s, "3825") || StartsWith(s, "0207")
  }

  /** The index of the first CUSIP line at or after `j`. */
  function FirstCusip(lines: seq<string>, j: nat): (r: Option<nat>)
    ensures r.Some? ==> j <= r.value < |lines| && IsCusipLine(lines[r.value])
    ensures r.Some? ==> forall m :: j <= m < r.value ==> !IsCusipLine(lines[m])
    ensures r.None? ==> forall m :: j <= m < |lines| ==> !IsCusipLine(lines[m])
    decreases |lines| - j
  {
    if j >= |lines| then None
    else if IsCusipLine(lines[j]) then Some(j)
    else FirstCusip(lines, j + 1)
  }

  /** `[l.strip() for l in text.split('\n')]`. */
  function StatementLines(text: string): (lines: seq<string>)
    ensures |lines| >= 1
  {
    var raw := SplitOn(text, '\n');
    seq(|raw|, k requires 0 <= k < |raw| => Strip(raw[k]))
  }

  /** The words of `ts` from position `i` on (none past the end). */
  function Drop(ts: seq<Tok>, i: nat): seq<Tok> {
    if i <= |ts| then ts[i..] else []
  }

  /** The word at position `i`, or None past the end. */
  function TextAt(ts: seq<Tok>, i: nat): Option<string> {
    if i < |ts| then Some(ts[i].text) else None
  }

  /** Taking the first pending word leaves the rest of them, then the later lines. */
  lemma PopStream(words: seq<string>, line: nat, later: seq<Tok>)
    requires words != []
    ensures (Tag(words, line) + later)[1..] == Tag(words[1..], line) + later
    ensures (Tag(words, line) + later)[0] == Tok(words[0], line)
  {
    assert Tag(words, line)[1..] == Tag(words[1..], line);
  }

  /** Dropping `a` words and then `b` drops `a + b`; word `i` after `a` is word `a + i`. */
  lemma DropDrop(ts: seq<Tok>, a: nat, b: nat)
    ensures Drop(Drop(ts, a), b) == Drop(ts, a + b)
    ensures TextAt(Drop(ts, a), b) == TextAt(ts, a + b)
    ensures b < |Drop(ts, a)| ==> Drop(ts, a)[b] == ts[a + b]
  {
  }

  /**
   * `stream` is what is left to read: the pending words, tagged with the line
   * read last, then every later line.  (Stated for the one `j` equal to
   * `lineIdx` so that the equation comes into play only where a proof
   * mentions `Rest(words, lineIdx)`.)
   */
  predicate StreamFrom(words: seq<seq<string>>, tokens: seq<string>, lineIdx: nat, stream: seq<Tok>) {
    forall j {:trigger Rest(words, j)} :: j == lineIdx ==>
      stream == Tag(tokens, if lineIdx > 0 then lineIdx - 1 else 0) + Rest(words, j)
  }

  class Form1099Tokenizer {
    const lines: seq<string>
    /** The words of each line, as `split` gives them. */
    ghost const words: seq<seq<string>>
    var lineIdx: nat
    var tokens: seq<string>
    /** The words still to come: the pending words of the last line read, then every later line. */
    ghost var stream: seq<Tok>

    ghost predicate Valid()
      reads this
    {
      |words| == |lines| && NoEmptyLine(words)
      && (forall j {:trigger SplitOn(lines[j], ' ')} :: 0 <= j < |lines| ==> words[j] == SplitOn(lines[j], ' '))
      && lineIdx <= |lines| && (tokens != [] ==> lineIdx > 0)
      && StreamFrom(words, tokens, lineIdx, stream)
    }

    constructor (text: string)
      ensures lines == StatementLines(text)
      ensures lineIdx == 0 && tokens == []
      ensures Valid() && words == Words(lines) && stream == Rest(words, 0)
    {
      var ls := StatementLines(text);
      lines := ls;
      words := Words(ls);
      lineIdx := 0;
      tokens := [];
      stream := Rest(Words(ls), 0);
    }

    /**
     * `find_cusip`: skips whole lines up to and including the next CUSIP
     * line and returns it; at the end of the text returns None with the
     * cursor at the end.  Pending words are left as they are.
     */
    method FindCusip() returns (cusip: Option<string>)
      requires Valid()
      modifies this`lineIdx, this`stream
      ensures Valid() && tokens == old(tokens)
      ensures cusip.Some? ==> old(lineIdx) < lineIdx && IsCusipLine(cusip.value)
                              && cusip.value == lines[lineIdx - 1]
                              && forall m :: old(lineIdx) <= m < lineIdx - 1 ==> !IsCusipLine(lines[m])
      ensures cusip.None? ==> lineIdx == |lines|
                              && forall m :: old(lineIdx) <= m < |lines| ==> !IsCusipLine(lines[m])
      ensures FirstCusip(lines, old(lineIdx)) == if cusip.Some? then Some(lineIdx - 1) else None
    {
      while lineIdx < |lines|
        invariant Valid() && tokens == old(tokens)
        invariant old(lineIdx) <= lineIdx <= |lines|
        invariant forall m :: old(lineIdx) <= m < lineIdx ==> !IsCusipLine(lines[m])
      {
        var line := lines[lineIdx];
        lineIdx := lineIdx + 1;
        stream := Tag(tokens, lineIdx - 1) + Rest(words, lineIdx);
        if IsCusipLine(line) {
          return Some(line);
        }
      }
      return None;
    }

    /**
     * `next_token`: the next word, refilling the pending words from the next
     * line when they have run out; None only when nothing is pending and
     * every line has been read.
     */
    method NextToken() returns (t: Option<string>)
      requires Valid()
      modifies this
      ensures Valid()
      ensures t.None? <==> old(tokens) == [] && old(lineIdx) >= |lines|
      ensures lineIdx >= old(lineIdx)
      ensures t == TextAt(old(stream), 0)
      ensures stream == Drop(old(stream), 1)
      ensures t.Some? ==> lineIdx == old(stream)[0].line + 1
    {
      ghost var before := stream;
      ghost var later := Rest(words, lineIdx);
      if tokens == [] {
        if lineIdx >= |lines| {
          return None;
        }
        tokens := SplitOn(lines[lineIdx], ' ');
        lineIdx := lineIdx + 1;
        assert before == Tag(tokens, lineIdx - 1) + Rest(words, lineIdx);
      }
      PopStream(tokens, lineIdx - 1, Rest(words, lineIdx));
      t := Some(tokens[0]);
      tokens := tokens[1..];
      stream := Tag(tokens, lineIdx - 1) + Rest(words, lineIdx);
    }

    /**
     * `cur_string_tokens_available`: whether words of the line read last
     * are still pending, i.e. whether the next word comes from that line.
     */
    method TokensAvailable() returns (b: bool)
      requires Valid()
      ensures b <==> tokens != []
      ensures b <==> stream != [] && stream[0].line + 1 == lineIdx
    {
      RestLines(words, lineIdx);
      b := |tokens| > 0;
    }
  }
}
