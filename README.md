# Bank Statement Analyzer, modelled in Dafny

The analyzer is a one-page web app (`app.py`). It takes an uploaded CSV bank statement and:

1. decodes the statement and cuts it into lines;
2. drops the bank's six preamble lines and the column header;
3. runs one regular expression over each remaining line;
4. turns the groups of every match into a transaction record `(date, description, amount, running balance)`;
5. shows the records that pass three sidebar filters (start date, end date, search text);
6. shows three metrics of the filtered records: Total Income, Total Expenses and Ending Balance;
7. shows a chart of income and expenses per calendar month.

This project models the line split of step 1 and steps 2–7 as Dafny values and functions, and proves what each step promises. The
parse loop keeps its imperative form as a method with a loop invariant
(`Parser.ParseStatement`).

Modules, in dependency order:

- `Wrappers`: `Option`, and `Somes`, the values of the present entries of a sequence of options. It
  proves that `Somes` keeps them one for one and in order.
- `Strings`: the `str` operations the app relies on.
  - `\d` and the value of a digit string.
  - `strip()` and `replace('"', '')`.
  - `lower()` and substring containment.
- `Lines`: `str.splitlines()` with Python's full set of line boundaries, where `"\r\n"` counts as one.
- `Numerals`: the numeral shape `-?\d+\.\d+`, its greedy reading, and its exact value.
- `Dates`: the `\d{2}/\d{2}/\d{4}` date text, read month first, and date order.
- `Pattern`: a matcher written by hand for the one regular expression
  `(\d{2}/\d{2}/\d{4}),"(.*?)","(-?\d+\.\d+)",("?-?\d+\.\d+)"?`, with `re.search` semantics.
  - The match starts at the leftmost position.
  - The lazy description takes the shortest text that lets the rest of the pattern match.
  - The amount and the balance are greedy.
  - It proves that the matcher finds exactly what the expression allows.
- `Parser`: what the loop turns a line into, and the loop itself.
- `Filtering`: the row mask of the sidebar filters.
- `Summary`: the three metrics.
- `Monthly`: the monthly group-by.
- `Analyzer`: parse, filter and summarize, composed into what one page shows.
- `Examples`: worked values for a small statement.

Amounts are exact decimals (`real`) read from their digits.

More notes:

- The description group is kept exactly as written; only the amount and the balance are cleaned.
- The regular expression does not check dates against the calendar. A row dated `13/40/2024` is
  therefore parsed, as month 13 and day 40 (`Examples.ImpossibleDateAccepted`). A reader might
  expect such a line to be skipped, but nothing in the parse loop skips it. In the running program,
  `pd.to_datetime` (later, at app.py:28) would then raise. That date parser is not part of this model.
- The sidebar widgets and the uploaded text are parameters: `text`, `start`, `end` and `query`.

## Model

| member | source | states |
|---|---|---|
| Lines.SplitLines | app.py:14 | The lines of the text with their boundaries cut out. There are never more lines than characters. |
| Parser.Body | app.py:14-18 | The body is the lines of the text from the eighth on, in their order. It is empty when the text has seven lines or fewer. |
| Parser.StatementRecords | app.py:14-24 | The records of a statement are the records of its body. There are never more than max(0, lines − 7). |
| Parser.ParseStatement | app.py:14-24 | The loop returns exactly the records of the statement: one per line after the first seven on which the pattern matches, in line order. It returns at most max(0, lines − 7) records. |
| Parser.ParseLine | app.py:19-24 | A line yields a record exactly when `pattern.search` finds a match in it. |
| Parser.RecordOf | app.py:21-24 | The record of a match has the date read from the date group, and keeps the description group verbatim. Its amount is the value of the amount group. Its balance is the value of the balance group's numeral, without its quote. |
| Parser.ParseLinesSnoc | app.py:18-24 | One more line adds its record after the others when it has one, and nothing otherwise. |
| Parser.SkipsNonMatching | app.py:19-20 | A line on which the pattern matches nowhere adds no record and causes no error. |
| Parser.MalformedAmountSkipped | app.py:15-20 | A row whose amount field is not `-?\d+\.\d+` yields no record, when neither its description nor its amount field holds a quote and its balance is well formed (a numeral, with or without a leading quote). |
| Pattern.SearchMalformedAmount | app.py:15-19 | In such a row the pattern matches nowhere. A description can end at only two `","`. One opens the amount field, and that field is not a numeral. The other exists only when the balance has its leading quote, formed by the amount's closing `",` and that quote; there no `",` follows the balance numeral, because no comma follows the amount field. |
| Parser.ParseLinesOrigins | app.py:18-24 | Records come from lines one for one and in order. Record i is the record of line idx[i], the indices increase, and every line that matches contributes. |
| Parser.RecordsInOrder | app.py:14-24 | Record i of a statement comes from line idx[i] + 7 of the text, with increasing indices. |
| Parser.ShortTextYieldsNothing | app.py:14-18 | A text of seven lines or fewer yields no record. |
| Parser.PreambleIgnored | app.py:14-18 | Whatever the first seven lines hold, the records are those of the lines after them. |
| Parser.Clean | app.py:22-23 | The cleaned text holds no quote, and no white space at either end. |
| Parser.CleanNumeral | app.py:22 | Removing quotes and stripping leaves an amount numeral as it is. |
| Parser.CleanBalance | app.py:23 | Cleaning a balance group gives its numeral, with the optional leading quote removed. |
| Parser.ParsedNumberText | app.py:21-23 | The amount text that reaches `float()` is the amount group as written. The balance text is the balance group, less at most a leading quote. Neither holds a quote, and both are numerals. |
| Parser.BalanceQuotesIgnored | app.py:15-24 | A well-formed row whose description holds no quote or newline gives the same record whether its balance is written `"995.50"`, `"995.50` or `995.50`. That record is exactly the one built from the row's parts. |
| Pattern.Search | app.py:15-19 | `pattern.search`: whatever it returns is a match of the expression, and its balance is the greedy one. |
| Pattern.SearchLeftmostShortest | app.py:15-19 | If the expression matches a line at all, the matcher finds a match. No other match starts earlier, and among matches at the same start it has the shortest description. |
| Pattern.SearchNoneIff | app.py:19-20 | The matcher finds nothing exactly when no match of the expression exists in the line. |
| Pattern.GroupsDetermined | app.py:15 | Once the start and the description are fixed, the amount and balance groups are forced. |
| Pattern.GroupShapes | app.py:15-21 | The groups of a match are: a date text, a description without newlines, an amount numeral, and a balance numeral with an optional leading quote. |
| Pattern.SearchRow | app.py:15-21 | A well-formed row whose description has no quote matches at index 0. The groups are exactly the parts the row was built from, with or without the balance's closing quote. |
| Numerals.NumeralEndComplete | app.py:15 | The greedy reading of `-?\d+\.\d+` finds every numeral that starts at a position. It ends exactly where the digits end. |
| Numerals.NumeralChars | app.py:22-23 | A numeral holds no quote and no white space. |
| Numerals.DecimalValue | app.py:24 | The value read has the numeral's sign: at most 0 with a minus, at least 0 without. |
| Numerals.DecimalScaled | app.py:24 | The value is the whole number the digits spell without the point, divided by ten to the number of fraction digits, and negated after a minus. |
| Numerals.DecimalSign | app.py:24 | The value read is negative exactly when the numeral has a minus and a non-zero digit. It is positive exactly when it has a non-zero digit and no minus. |
| Dates.DateOf | app.py:28 | The date is read month first from the two-, two- and four-digit fields, so month and day are below 100 and the year below 10000. |
| Dates.DateOfInjective | app.py:28 | Different date texts read as different dates. |
| Lines.SplitJoin | app.py:14 | Joining lines that hold no line boundary with "\n" and splitting the result gives back exactly those lines. |
| Lines.JoinSplit | app.py:14 | A text whose only line boundary is "\n", and that is empty or ends in one, is rebuilt exactly by joining its lines. |
| Lines.SplitLinesNoBreaks | app.py:14 | No line that `splitlines()` returns contains a line boundary. |
| Strings.Lower | app.py:34 | Lowering keeps the length and lowers each character. |
| Strings.LowerIdempotent | app.py:34 | Lowering twice is lowering once. |
| Strings.ContainsAt | app.py:40 | A text contains a search text when the search text occurs in it at some index; the filter applies this to the lowered description and search text. |
| Strings.ContainsWitness | app.py:40 | When a text contains a search text, there is an index at which the search text occurs in it. |
| Filtering.Filter | app.py:37-41 | The filtered table never has more records than the table. |
| Filtering.FilterOrigins | app.py:37-41 | The filtered table is a subsequence of the table. It is made of exactly the records that lie between the two dates and mention the lowered search text. |
| Filtering.FilterMembership | app.py:37-41 | A record is shown exactly when it is in the table and passes all three conditions. |
| Filtering.FilterAll | app.py:37-41 | When every record passes, the whole table is shown unchanged. |
| Filtering.FilterIdempotent | app.py:37-41 | Filtering twice with the same settings is filtering once. |
| Filtering.FilterAppend | app.py:37-41 | Filtering a table cut in two is filtering each part. |
| Filtering.SearchIgnoresCase | app.py:34-40 | The case of the search text never changes what is shown. |
| Filtering.EmptySearchKeepsRange | app.py:34-40 | An empty search text keeps exactly the records between the two dates. |
| Filtering.Earliest | app.py:32 | The default start date is on or before every record's date and is one of them. |
| Filtering.Latest | app.py:33 | The default end date is on or after every record's date and is one of them. |
| Filtering.DefaultFiltersShowAll | app.py:32-41 | With the sidebar at its defaults, every record is shown. |
| Summary.Credits | app.py:46 | Every row selected as income has a positive amount. |
| Summary.Debits | app.py:47 | Every row selected as an expense has a negative amount. |
| Summary.Income | app.py:46 | Total Income is never negative. |
| Summary.Expense | app.py:47 | Total Expenses is never positive. |
| Summary.AddOne | app.py:46-47 | One more record adds its amount to the income if the amount is positive, and to the expenses if it is negative. The net changes by the amount. |
| Summary.IncomeExpenseTotal | app.py:46-47 | Income plus expenses is the sum of all amounts: no amount is lost or counted twice. |
| Summary.IncomeExpenseAppend | app.py:46-47 | The income and expenses of two tables put together are those of the two, added. |
| Summary.ZeroAmountIgnored | app.py:46-47 | A zero amount, wherever it stands, counts toward neither the income nor the expenses. |
| Summary.KpisOf | app.py:46-48 | The metrics have income ≥ 0 and expenses ≤ 0, and together they make the net of the amounts. |
| Summary.EndingBalanceAppend | app.py:48 | Appending records changes the ending balance to theirs, and appending none leaves it unchanged. |
| Summary.EndingBalanceOfFiltered | app.py:48 | The Ending Balance is the running balance of the last record that passes the filters, and 0 when none passes. It is read, not recomputed. |
| Monthly.Summarize | app.py:64-69 | The chart has at most one row per shown record, and at least one row when any record is shown. |
| Monthly.SummarizeSorted | app.py:64-69 | The chart's months are strictly increasing, so no month appears twice. |
| Monthly.FindAddRecord | app.py:65-68 | A record grows its own month's row, or opens it. Every other month is unchanged. |
| Monthly.SummarizeRows | app.py:64-69 | A month has a row exactly when some shown record falls in it. The row holds the income and the expenses of exactly that month's records. |
| Monthly.OneRowPerRecord | app.py:65-66 | Each shown record falls in exactly one row of the chart: the row of its month. |
| Monthly.SummarizeTotals | app.py:64-69 | The incomes of the months add up to Total Income, and their expenses to Total Expenses. |
| Monthly.RowsHaveRecords | app.py:64-69 | Every row of the chart is a month with records and holds that month's figures. |
| Analyzer.ViewOf | app.py:37-69 | What the page shows: the filtered table, metrics whose income and expenses make its net, and a sorted monthly chart whose months add up to the metrics. |
| Analyzer.Analyze | app.py:14-69 | The page for an uploaded statement is the view of its parsed records. It shows at most max(0, lines − 7) transactions. |
| Examples.CoffeeAmountRead | app.py:22-24 | `-4.50` is a numeral worth exactly −4.5. |
| Examples.SmallStatementKpis | app.py:46-48 | A coffee purchase of −4.50 and a paycheck of 1500.00 give Total Income 1500, Total Expenses −4.5, and the paycheck's balance. |
| Examples.SmallStatementMonths | app.py:64-69 | The same two January records give one chart row: January 2024, 1500 and −4.5. |
| Examples.ImpossibleDateAccepted | app.py:15-24 | A well-formed row dated `13/40/2024` whose description holds no quote or newline is parsed, as month 13 and day 40: the expression does not check the calendar. |
| Examples.CoffeeRowParsed | app.py:15-24 | The export line `01/05/2024,"Coffee Shop","-4.50","995.50"` parses to the coffee record used by the worked figures. |
| Examples.PaycheckRowParsed | app.py:15-24 | The export line `01/06/2024,"Paycheck","1500.00","2495.50`, whose balance has a leading quote and no closing one, parses to the paycheck record used by the worked figures. |
| Examples.SmallStatementParsed | app.py:14-24 | Any six preamble lines that hold no line boundary, the column header and those two rows, joined by newlines, give exactly the coffee and paycheck records, in that order. |

## Left out

- Decoding: `decode("utf-8")` (app.py:14). The model starts from the decoded text, and an upload that fails to decode is not modelled.
- Date conversion: `pd.to_datetime` (app.py:28) is not modelled. The model always reads a date month first, as `Date(month, day, year)`. It agrees with `pd.to_datetime` only on dates that are valid month first and lie within pandas' Timestamp range. Other dates either raise (such as `13/40/2024`, or a year such as `3000`) or are read day first (such as `13/05/2024`). Reading day first can then carry over to the later rows. The model follows none of this, so for such dates `Filtering.Filter`, `Filtering.Earliest`, `Filtering.Latest` and `Monthly.Summarize` see dates that the program never produces.
- Floating point: `float()` (app.py:24) and pandas sums (app.py:46-47, 66-68) work on 64-bit floats. The model uses exact decimals, so rounding is not modelled.
- Unicode digits: `\d` in Python's `str` patterns matches every Unicode decimal digit. The model accepts the ASCII digits only.
- Unicode case: `lower()` (app.py:34, 40) folds Unicode case. The model folds the ASCII letters only.
- Regex search text: `str.contains(keyword)` (app.py:40) treats the search text as a regular expression by default. The model treats it as a literal substring, so search texts with metacharacters, or invalid patterns that raise, are not modelled.
- Summary.Credits: its contract states only that every selected row has a positive amount. That it misses no such row follows from Summary.AddOne.
- Summary.Debits: its contract states only that every selected row has a negative amount. That it misses no such row follows from Summary.AddOne.
- Empty table: when no line matches, `df["Date"].min().date()` (app.py:32-33) fails. `Filtering.Earliest` and `Filtering.Latest` require a non-empty table for this reason.
- Presentation:
  - the Streamlit page, title, uploader, sidebar widgets, `st.write` and `st.metric` (app.py:7-12, 31-34, 43, 50-53);
  - the `f"${x:,.2f}"` currency formatting (app.py:51-53);
  - the balance-over-time plot (app.py:56-61);
  - drawing the monthly bars (app.py:72-77);
  - writing the month as text (app.py:70).
  The summary table those bars draw is modelled.
- DataFrame: the construction (app.py:27) and `reset_index` (app.py:69). The model's sequence of records stands for the frame, and its sequence of monthly rows stands for the summary table.
