# Schwab 1099-B to TXF converters, modelled in Dafny

Two scripts turn the text of a Schwab equity-award 1099-B statement into a
TurboTax TXF import file for Alphabet stock (GOOG and GOOGL).

`taxform_parser.py` reads the statement through a word tokenizer
(`Form1099Tokenizer`). It finds each CUSIP line and reads the words of one
sale against a fixed grammar:

    quantity SHARES OF symbol  acquired proceeds basis [wash] X  sold [wash] GROSS

`GROSS` must end its line. The script converts the words to dates and
amounts and keeps running totals. It sorts the records by sale date and
writes a TXF header, then one eleven-line block per record.

`convert-1099B-2022.py` scans the statement line by line:

- A `Box B checked` or `Box E checked` line sets the Form 8949 category.
- A line that is exactly a registered CUSIP starts a record of three or four lines.
- A record's lines are recognised by regular expressions. The description and the
  amounts are either split over two lines or joined on one.
- Each record adds to its category's totals and is written as a TXF record of
  `(op, value)` fields.
- The first malformed record ends the run.

The project has these modules:

- `Wrappers`: Option and Result.
- `Text`: `split`, `join`, `strip`, `replace(',', '')`, and newline-terminated output.
- `Numbers`: decimal literals, amounts in cents, `%.2f`, quantities.
- `Dates`: `strptime`/`strftime` with `%m/%d/%Y`, and date order.
- `Tokenizer`: the `Form1099Tokenizer` class.
- `TaxformParser`: the record grammar, the conversion of a record, `parse1099Form`, and the totals.
- `TaxformTxf`: `Record.txf_records`.
- `TaxformMain`: sorting and the main program of `taxform_parser.py`.
- `Patterns`: the regular expressions of `convert-1099B-2022.py`. Each is a matcher
  that returns a parse tree, with lemmas saying it accepts exactly the texts that
  tree describes.
- `Convert1099B`: the scan, the `TxfRecord` class, the totals and the output.

Each stateful part is written as the script writes it and is proved against a
specification function:

- The tokenizer is a class with a line cursor and pending words. Its methods keep
  a ghost stream of the words still to come.
- `parse1099Form` is a loop over that tokenizer, proved equal to the declarative
  parse `ParseForm`, with totals equal to `TotalsOf` of the records.
- `convert-1099B-2022.py`'s main loop is a method with a cursor, a category
  variable, a totals map and an output string. It is proved equal to the scan
  function `ScanLines`, its output text and its per-category totals.

## Model

| member | source | states |
|---|---|---|
| Tokenizer.Form1099Tokenizer.constructor | taxform_parser.py:90-95 | the lines are the stripped pieces of the text split at newlines, the cursor is at the start, nothing is pending, and the stream to come is every word of every line in order |
| Tokenizer.Form1099Tokenizer.FindCusip | taxform_parser.py:97-103 | skips lines up to and including the first line starting with 3825 or 0207 and returns it; no line it skipped is such a line; at the end of the text it returns None with the cursor at the end; pending words are untouched |
| Tokenizer.Form1099Tokenizer.NextToken | taxform_parser.py:105-111 | returns the first word still to come and removes it from the stream; returns None exactly when nothing is pending and every line was read; after a word the cursor is just past that word's line |
| Tokenizer.Form1099Tokenizer.TokensAvailable | taxform_parser.py:113-114 | true exactly when words of the last line read are pending, that is, when the next word comes from that same line |
| Tokenizer.FirstCusip | taxform_parser.py:97-103 | the first line at or after the cursor starting with 3825 or 0207, no earlier line so starting, and None only when there is no such line |
| Tokenizer.Words | taxform_parser.py:109 | each line's words are its `split(' ')`, never an empty list |
| Tokenizer.RestLines | taxform_parser.py:105-111 | every word still to come lies on a line at or after the cursor, and the stream is empty only past the last line |
| Text.JoinSplit | taxform_parser.py:92-93 | joining the pieces of a split with the separator gives the text back |
| Text.SplitJoin | taxform_parser.py:109 | splitting pieces joined by a separator that none contains gives the pieces back |
| Text.Strip | taxform_parser.py:92 | a stripped line is the slice of the line left once only whitespace is cut from both ends, and it neither starts nor ends with whitespace |
| Text.Remove | taxform_parser.py:204-206 | removing commas leaves no comma and only characters of the original |
| Text.RemoveAppend | convert-1099B-2022.py:174-177 | removing commas distributes over concatenation |
| TaxformParser.MatchHead | taxform_parser.py:164-174 | accepts the words exactly when there are four, the second is SHARES, the third OF, the first a number and the fourth GOOG or GOOGL; it returns that number, always positive, and that symbol |
| TaxformParser.MatchCovered | taxform_parser.py:176-187 | the amounts part is accepted exactly when its fourth or fifth word is X; its first three words are the acquisition date, proceeds and basis; it uses four words and has no wash when the fourth is X, and otherwise five, with the fourth as the wash; the last word used is X |
| TaxformParser.MatchSale | taxform_parser.py:189-194 | the sale part is accepted exactly when its second or third word is GROSS; its first word is the sale date; it uses two words and has no wash when the second is GROSS, and otherwise three, with the second as the wash; the last word used is GROSS |
| TaxformParser.MatchRecord | taxform_parser.py:164-197 | an accepted record has a GOOG/GOOGL symbol and a positive quantity, uses at least ten words ending in GROSS, and GROSS is the last word of its line |
| TaxformParser.HeadSpelled | taxform_parser.py:164-174 | for a quantity that parses and a GOOG/GOOGL symbol, the words start with `quantity SHARES OF symbol` exactly when the first word is that quantity and the head is read as its value and that symbol |
| TaxformParser.CoveredSpelled | taxform_parser.py:176-187 | for a wash other than X, the words start with `acquired proceeds basis [wash] X` exactly when the amounts part is read as those words, with an absent wash read as empty |
| TaxformParser.SaleSpelled | taxform_parser.py:189-194 | for a wash other than GROSS, the words start with `sold [wash] GROSS` exactly when the sale part is read as those words |
| TaxformParser.MatchRecordComplete | taxform_parser.py:164-197 | a well-formed record (a quantity that parses, SHARES OF, GOOG/GOOGL, the amounts with an optional wash before X, the sale date with an optional wash before GROSS, a wash after the sale date replacing one before it) whose GROSS ends its line is read as exactly those fields, using exactly its words |
| TaxformParser.MatchRecordSound | taxform_parser.py:164-197 | every record read is such a well-formed spelling of its fields, starting with its quantity word, using exactly the words it spells, with GROSS ending its line |
| TaxformParser.RecordOfParts | taxform_parser.py:164-197 | proof step for the tokenizer methods: the record grammar is the head, then the amounts, then the sale part, read one after the other; a failed part refuses the record; a wash after the sale date replaces one before it; GROSS must end its line |
| TaxformParser.RecordUsesParts | taxform_parser.py:164-197 | proof step for the tokenizer methods: an accepted record has an accepted head, amounts part and sale part |
| TaxformParser.SameWordsSameRecord | taxform_parser.py:164-197 | whether and how a record is read depends only on its own words and on GROSS ending its line, not on what follows |
| TaxformParser.SamePartsSameRecord | taxform_parser.py:164-197 | two streams whose three parts match alike, and whose GROSS ends its line, give the same record |
| TaxformParser.LineGoesOn | taxform_parser.py:196-197 | after reading up to GROSS, words are still pending exactly when the next word of the stream lies on GROSS's line |
| TaxformParser.ReadHead | taxform_parser.py:164-174 | reading the head through the tokenizer gives `MatchHead` of the stream and consumes its four words |
| TaxformParser.ReadCovered | taxform_parser.py:176-187 | reading the amounts through the tokenizer gives `MatchCovered` of the stream and consumes the words it used |
| TaxformParser.ReadSale | taxform_parser.py:189-194 | reading the sale part gives `MatchSale` of the stream, consumes its words and leaves the cursor past GROSS's line |
| TaxformParser.ReadParts | taxform_parser.py:164-194 | the three parts read in turn give the three matchers on the successive rests of the stream |
| TaxformParser.ReadFields | taxform_parser.py:164-197 | reading a record through the tokenizer gives `MatchRecord` of the stream; on success it consumes exactly the record's words and leaves nothing pending |
| TaxformParser.ToRecord | taxform_parser.py:199-207 | the record is built exactly when both dates parse, both amounts parse and the wash is empty or parses; its fields are those values; a bad sale date is reported first |
| TaxformParser.ReadRecordFields | taxform_parser.py:160-197 | finds the next CUSIP line and reads the record's words after it, agreeing with `FirstCusip` and the grammar on the following lines |
| TaxformParser.ReadRecord | taxform_parser.py:160-207 | one iteration of the parse loop: None at the end of the statement; otherwise the error or the record that the declarative parse gives at that CUSIP line, with the cursor where the parse goes on |
| TaxformParser.Parse1099Form | taxform_parser.py:121-221 | the loop returns the declarative parse of the statement, and on success its totals are the count and column sums of the records |
| TaxformParser.SumAppend | taxform_parser.py:211-214 | a column sum over two runs of records is the sum of their sums |
| TaxformParser.TotalsSnoc | taxform_parser.py:211-214 | adding a record to running totals adds one to the count and its proceeds, basis and wash (none adds nothing) |
| TaxformParser.ParsedRecords | taxform_parser.py:160-207 | every parsed record has a CUSIP starting 3825 or 0207, a GOOG/GOOGL symbol, a positive quantity and valid dates |
| Numbers.ParseQuantity | taxform_parser.py:167-173 | a quantity is accepted exactly when it is a non-negative decimal with a positive value, and it keeps that decimal's digits and scale |
| Numbers.CentsOfSound | taxform_parser.py:204-206 | the cents read from a decimal amount are that amount times one hundred |
| Numbers.CentsOfComplete | taxform_parser.py:204-206 | every decimal amount that is a whole number of cents is read as those cents |
| Numbers.CentsRoundTrip | taxform_parser.py:69-72 | an amount written with `%.2f` reads back as the same number of cents |
| Numbers.QuantityRoundTrip | taxform_parser.py:69-70 | the quantity written into the description reads back as a decimal of the same value |
| Numbers.NormalizeValue | taxform_parser.py:69-70 | dropping trailing zero digits keeps a quantity's value |
| Dates.ParseDate | taxform_parser.py:203-207 | a date accepted by `strptime` with `%m/%d/%Y` is a valid calendar date |
| Dates.DateRoundTrip | taxform_parser.py:69-71 | a valid date written with `%m/%d/%Y` reads back as the same date |
| Dates.PaddedDateRewrites | taxform_parser.py:69-71 | a zero-padded `MM/DD/YYYY` text that parses is written back unchanged |
| Dates.NotAfterTotal | taxform_parser.py:239 | the sale-date order is total, and two dates each not after the other are equal |
| TaxformTxf.WashText | taxform_parser.py:50-51 | the wash text is empty exactly when there is no wash or it is zero, and otherwise it is the amount with two decimals |
| TaxformTxf.TxfRecords | taxform_parser.py:54-74 | the loop builds the header, then each record's block, every line ended by a newline |
| TaxformTxf.TxfLayout | taxform_parser.py:67-72 | the output has four header lines and eleven lines per record, and record i's block sits at lines 4+11i onwards |
| TaxformTxf.TxfTextLines | taxform_parser.py:67-74 | splitting the output at newlines gives exactly the header and block lines, then an empty last piece |
| TaxformTxf.BlockOfReads | taxform_parser.py:69-72 | a block written from field texts reads back as the values those texts denote |
| TaxformTxf.BlockRoundTrip | taxform_parser.py:47-51 | a record's TXF block reads back as its symbol, dates, basis, proceeds, its wash (a zero wash is dropped) and a quantity of the same value |
| TaxformMain.SortSorted | taxform_parser.py:239 | the records after sorting are in order of sale date |
| TaxformMain.SortPermutes | taxform_parser.py:239 | sorting neither loses nor adds a record |
| TaxformMain.SortStable | taxform_parser.py:239 | records sold on the same day keep their statement order |
| TaxformMain.InsertSoldOn | taxform_parser.py:239 | inserting a record places it after every record sold on its day |
| TaxformMain.ConvertStatement | taxform_parser.py:238-244 | the program parses, sorts, refuses an empty statement and writes the TXF text, as `Convert` states |
| TaxformMain.ConvertOutcome | taxform_parser.py:238-244 | a run succeeds exactly when the statement parses and holds a record; a parse error is passed on; the output is the TXF text of a sorted, stable reordering of the parsed records |
| Patterns.SpacedFromSound | convert-1099B-2022.py:116-117 | the words cut from a text, each with the whitespace before it, put together give the text back |
| Patterns.SpacedFromComplete | convert-1099B-2022.py:116-117 | any text made of whitespace runs and words is cut into exactly those runs and words |
| Patterns.MatchDateLineSound | convert-1099B-2022.py:149-155 | an accepted acquisition line is a date, proceeds, basis, an optional wash and a final X, separated by whitespace, and is exactly the text of its parse tree |
| Patterns.MatchDateLineComplete | convert-1099B-2022.py:149-155 | every line of that form is accepted with its own parse tree |
| Patterns.MatchDescriptionHeadSound | convert-1099B-2022.py:115 | an accepted description start is `quantity SHARE(S) OF GOOG(L)` followed by the rest of the line |
| Patterns.MatchDescriptionHeadComplete | convert-1099B-2022.py:115 | every well-formed description is accepted, taking the optional L whenever it is there |
| Patterns.MatchDescriptionExact | convert-1099B-2022.py:135 | the description pattern accepts a line exactly when it is a well-formed description and nothing more |
| Patterns.MatchCombinedExact | convert-1099B-2022.py:113-120 | the joined pattern accepts a line exactly when it is a description, one space and an acquisition line |
| Patterns.MatchCombinedSound | convert-1099B-2022.py:113-120 | an accepted joined line is the text of its description and acquisition parse trees |
| Patterns.MatchCombinedComplete | convert-1099B-2022.py:113-120 | every description joined by a space to an acquisition line is accepted |
| Patterns.CombinedIsNotDescription | convert-1099B-2022.py:113-137 | a line the joined pattern accepts is never a bare description, so the two layouts cannot both apply |
| Patterns.MatchSaleLineExact | convert-1099B-2022.py:167 | the sale line is accepted exactly when it is a date, one whitespace character and GROSS, and nothing else |
| Patterns.FindMarkerLeftmost | convert-1099B-2022.py:73 | the marker search finds nothing exactly when no position holds `Box B checked` or `Box E checked`, and otherwise gives the letter of the leftmost one |
| Patterns.MarkerHasX | convert-1099B-2022.py:73 | a line without the letter x holds no marker |
| Patterns.RecordLinesHaveNoMarker | convert-1099B-2022.py:73-81 | no line a record's patterns accept holds a category marker |
| Convert1099B.ReadRecordAt | convert-1099B-2022.py:102-172 | a record read at a CUSIP line starts there, carries the category in force, and lies within the statement |
| Convert1099B.ReadRecord | convert-1099B-2022.py:102-172 | the record-reading code, with its line cursor, gives exactly the record or error `ReadRecordAt` defines |
| Convert1099B.RecordErrors | convert-1099B-2022.py:102-169 | a record is truncated exactly when fewer than three lines remain; a bad line is one of the record's lines; a symbol mismatch names the CUSIP of the other class; a missing fourth line happens only in the split layout at the end of the statement |
| Convert1099B.JoinedRecordRead | convert-1099B-2022.py:112-132 | a CUSIP line, a joined description-and-amounts line of the matching class and a sale line are read as that record, with the whole line as description |
| Convert1099B.SplitRecordRead | convert-1099B-2022.py:133-170 | a CUSIP line, a description of the matching class, an acquisition line and a sale line are read as that record |
| Convert1099B.RecordReadSound | convert-1099B-2022.py:102-170 | a record read keeps its CUSIP line and description line, and its last line is the sale line of its sale date |
| Convert1099B.RecordLayout | convert-1099B-2022.py:102-170 | every record read has a description registered for its CUSIP and lines laid out in the joined or the split form, carrying its fields |
| Convert1099B.SymbolMismatchStops | convert-1099B-2022.py:123-142 | a description of the other share class than the CUSIP stops the run with a symbol mismatch |
| Convert1099B.MarkerStep | convert-1099B-2022.py:73-77 | proof step for `Convert`: a marker line sets the category and the scan moves to the next line |
| Convert1099B.SkipStep | convert-1099B-2022.py:79-81 | proof step for `Convert`: a line that is neither a marker nor a CUSIP is skipped |
| Convert1099B.StopStep | convert-1099B-2022.py:83-84 | proof step for `Convert`: a CUSIP before any marker, or a record that fails, ends the scan with that failure and the records so far |
| Convert1099B.ScanStep | convert-1099B-2022.py:86-172 | proof step for `Convert`: a record read at a CUSIP line is kept and the scan goes on after its last line |
| Convert1099B.EndStep | convert-1099B-2022.py:70 | proof step for `Convert`: past the last line the scan ends without failure |
| Convert1099B.CategoryOfRecords | convert-1099B-2022.py:69-77 | every record is filed under the category of the last marker before its CUSIP line |
| Convert1099B.UncategorisedCusip | convert-1099B-2022.py:83-84 | a CUSIP line with no marker before it makes the run fail with no record |
| Convert1099B.RecordsAtCusips | convert-1099B-2022.py:70-81 | records start only at CUSIP lines, and when the run does not fail every CUSIP line starts one |
| Convert1099B.AmountParses | convert-1099B-2022.py:174-177 | every amount the patterns accept is a decimal once its commas are removed |
| Convert1099B.AddToTotals | convert-1099B-2022.py:174-177 | adding a record updates only its own category's totals: proceeds, basis, and the wash when there is one |
| Convert1099B.TotalsByCategory | convert-1099B-2022.py:174-177 | a category's totals are the sums over exactly the records filed under it |
| Convert1099B.TotalsKeys | convert-1099B-2022.py:48 | a category has totals exactly when some record is filed under it |
| Convert1099B.ConvertTotals | convert-1099B-2022.py:174-177 | the run's totals hold a category exactly when it has records, and they are those records' sums |
| Convert1099B.TxfRecord.constructor | convert-1099B-2022.py:32-33 | a new TXF record has no fields |
| Convert1099B.TxfRecord.AddField | convert-1099B-2022.py:35-36 | adding a field appends it and changes nothing else |
| Convert1099B.WriteHeader | convert-1099B-2022.py:62-66 | the header is the record of fields V042, ASelf and D followed by today's date |
| Convert1099B.AddOpening | convert-1099B-2022.py:190-194 | appends the fields TD, N with the category's reference number, P with the description, and D with each of the two dates |
| Convert1099B.AddClosing | convert-1099B-2022.py:195-198 | appends the basis and the proceeds, and the wash only when there is one |
| Convert1099B.EmitRecord | convert-1099B-2022.py:189-199 | a record's TXF text is the record of its opening and closing fields |
| Convert1099B.Record | convert-1099B-2022.py:174-199 | one loop step adds the record's text to the output and its amounts to the totals |
| Convert1099B.Convert | convert-1099B-2022.py:59-199 | the loop stops with the scan's failure, writes the header and one text per record scanned, and its totals are those of the scanned records |
| Convert1099B.OutputSnoc | convert-1099B-2022.py:199 | each record scanned appends its text and a newline to the output |
| Convert1099B.HeaderText | convert-1099B-2022.py:38-39 | the header text is its field lines ended by `^` |
| Convert1099B.EntryText | convert-1099B-2022.py:38-39 | a record's text is its field lines ended by `^`, with no newline inside a field |
| Convert1099B.OutputLines | convert-1099B-2022.py:59-199 | the output split at newlines is the header lines, then each record's lines in order, then an empty last piece |
| Convert1099B.ConvertOutputLines | convert-1099B-2022.py:56-199 | for statement lines without newlines, the run's output consists of the header and the records' lines, and nothing else |

## Left out

- The PDF is not read. `pdftotext`, the files, `print`, `sys.argv`, `sys.exit` and logging are not modelled. The statement comes in as text (taxform_parser) or as a list of lines (convert-1099B). The TXF comes out as a string, and an exit comes out as an error value.
- Today's date is a parameter of both programs. The clock is not read.
- `splitlines()` and `decode('utf-8')` in convert-1099B are not modelled. The lines are given.
- Numbers.ParseQuantity: `float()` is modelled as an exact decimal. Only plain signed numerals are read. Exponents, digit underscores, surrounding whitespace such as a tab, non-ASCII digits, `inf` and `nan` are refused, although `float()` accepts them. The `%s` of that float in the TXF description is modelled as the shortest decimal text of the same value. That matches Python's float repr only for moderate magnitudes and at most 15 significant digits. The script writes `1.00000000000000001` as `P1.0 GOOG`, and the model writes `P1.00000000000000001 GOOG`.
- Numbers.ParseQuantity: a positive numeral too small for a double, such as a decimal point followed by 400 zeros and a 1, becomes `0.0` in the script and is refused there as not positive. The model accepts it.
- TaxformParser.ToRecord: amounts are integer cents. An amount with more than two non-zero decimals is refused as a bad amount, whereas `Decimal` would keep it. Exponents, `NaN`, `Infinity`, digit underscores, surrounding whitespace such as a tab and non-ASCII digits are refused as bad amounts too, although `Decimal` accepts them.
- TaxformParser.ToRecord: a negative zero amount such as `-0.00` becomes zero cents. The script keeps the sign and writes `$-0.00` for such a basis or proceeds, where the model writes `$0.00`.
- Numbers.CentsRoundTrip: `%.2f` formats a binary double, reached through `float()` or `Decimal.__float__`. The model writes exact cents. The two agree only for amounts below about 2^46 (about $7·10^13) in magnitude, where a double still holds every cent. For basis `12345678901234567.89` the script writes `$12345678901234568.00`, which does not read back as the same cents.
- TaxformTxf.WashText: `compute_total_wash` formats `float(wash)` with `%.2f`, so the same double rounding applies. The model is exact and matches only below about $7·10^13 in magnitude.
- Dates.ParseDate: only ASCII digits are read. `strptime` compiles `%d` and `%Y` with `\d`, which also takes any Unicode decimal digit as the second digit of a day from 10 to 29 and as any digit of the year. The model refuses such a date, so TaxformParser.ToRecord reports a bad date where the script builds the record.
- Decimal contexts and rounding are not modelled. In convert-1099B the totals are exact reals.
- `Record.compute_total_basis` always takes the reported basis, because `fmv` is never set.
- `Record.__str__`, `__repr__` and the logged totals lines are not modelled. Neither is the printed totals report of convert-1099B. The totals themselves are.
- `ParseException` messages and the line numbers in them are left out. Only the kind of error is kept.
- Patterns: `\d` is an ASCII digit.
- Patterns: `\s` is the whitespace set of `Text.IsSpace`. That set is Python's `str.isspace()` set, which `\s` matches in a str pattern, so nothing is dropped.
- Convert1099B.ReadRecordAt: `line.upper()` on the CUSIP is the identity. The line equals a registered upper-case CUSIP before it is read.
- Convert1099B.ReadRecordAt: a split record whose fourth line is past the end is an error (`MissingLine`). The script raises `IndexError` there.
- TaxformMain.SortBySaleDate: `list.sort` is modelled as a stable insertion sort on values, not as an in-place sort of the list.
- A convert-1099B failure is returned beside the output instead of ending the process. The output is then the text written before the failure, as the script leaves it in the file.
