# Claim-data flattener and cleaner, modelled in Dafny

This project models two pieces of a claims scraper.

- **The CSV flattener** (`convertToMultipleCSVs` with its `escapeCSV` helper). It takes the array of intercepted claim records and returns a map with the single key `patients.csv`. That file is one header line of 28 column names, followed by one 28-field row for each record whose `claim.casenumber` is truthy.
- **The claim cleaner** (`cleanClaimData`). It deletes the bulky `docbase64` payloads of encounter documents and the `attachments` of treatments from a claim object, in place, before the object is stored.

## Modules

- `js_value.dfy` (`JsValue`) holds JSON-like values together with the JavaScript rules the flattener relies on:
  - truthiness, `?.` and `??`;
  - `String(v)` (`Show`), `v == "literal"` and `a - b`;
  - `split`/`join` on one character, and `parseInt`.
- `csv.dfy` (`Csv`) covers cell escaping and a reader for the text the escaping produces. The reader is the escaping's inverse, at the level of a field, a line and a whole document.
- `flatten.dfy` (`Flatten`) covers the record walk:
  - the per-record accumulator loops (payments for TDS, logs and the query counter, diagnoses, treatments, the three `calculatedamount` breakups, deductions);
  - the date-part swap;
  - the 28-cell row and the file assembly.
  
  Each loop is a `method` proved equal to a left-fold specification function. The lemmas state what those functions mean.
- `cleaning.dfy` (`Cleaning`) is the cleaner, on a heap of objects with identity.
  - The class `Heap` owns `objects: map<Addr, JsObject>` and its methods delete properties in place, so aliasing is modelled: one object reached from two documents is cleaned once, for both.
  - The function `Cleaned` is the specification of the new heap. The lemmas about it state what the cleaner promises.

## Model

| member | source | states |
|---|---|---|
| JsValue.OrEmptyReadsThrough | convertToCSV.js:41-43 | `v ?? {}` is never null or undefined, and reading a property of it gives what `v?.key` gives |
| Flatten.DefaultsReadThrough | convertToCSV.js:41-55 | `claim`, `encounter` and `amount` are never null or undefined, so the plain `encounter.` and `amount.` reads cannot throw, and they read what `record?.claim?.encounter?.key` and `record?.claim?.amount?.key` read |
| JsValue.ToNumberOfAmount | convertToCSV.js:55 | an operand of `-` that is a number, or the decimal text of one, converts to exactly that number, so `"1200"` and `1200` both subtract as 1200 |
| JsValue.SubtractAmounts | convertToCSV.js:55 | two amounts, each a number or its decimal text, subtract to their difference |
| JsValue.SubtractMissing | convertToCSV.js:55 | a missing amount, or an object in its place, makes the difference NaN |
| Flatten.DeductionCell | convertToCSV.js:134-136 | cell 24 is `totalamount - amountapproved` |
| Flatten.DeductionOfAmounts | convertToCSV.js:55 | the "Deduction Amount" cell is the claimed total less the approved amount when both are numbers or decimal text |
| Flatten.BaseDeductionCell | convertToCSV.js:134-136 | cell 12 is `packageamount - totalpackageamount` |
| Flatten.BaseDeductionOfAmounts | convertToCSV.js:131 | the "Claimed Amount Deduction" cell is the package amount less the total package amount when both are numbers or decimal text |
| JsValue.IntToStringRoundTrip | convertToCSV.js:55 | a number written out as text converts back to the same number, so an amount stored as a digit string subtracts like the number |
| JsValue.Show | convertToCSV.js:16 | `String(v)` of a string is the string itself, and of a number is text that converts back to that number |
| JsValue.LooseEqualsText | convertToCSV.js:63 | `v == "TDS"`, and likewise `l?.status == "Claim Queried"` (line 74) and `d?.status == "Approved"` (line 101), holds exactly when `v` is a string or an array whose text is that literal; it never holds for null, undefined, a number, a boolean or a plain object |
| JsValue.SplitJoin | convertToCSV.js:116-120 | joining the parts of `s.split("/")` with `/` gives back `s`; no part contains `/`; there is one part more than there are slashes |
| JsValue.JoinSplit | convertToCSV.js:116-120 | splitting a `/`-join of slash-free parts gives back exactly those parts |
| JsValue.ParseIntOfDecimal | convertToCSV.js:107 | `parseInt` of the decimal text of `n` followed by anything but a further digit (or an `x` after a lone `0`) is `n` |
| JsValue.ParseIntWithoutDigits | convertToCSV.js:107 | `parseInt` of text that starts with neither white space, a sign nor a digit is NaN |
| Flatten.BaseDeductionFactor | convertToCSV.js:107 | an item whose `approvedfactor` reads `NN%…` is a base deduction exactly when `NN < 100` |
| Flatten.NoPercentNoBaseDeduction | convertToCSV.js:107 | an item whose `approvedfactor` has no `%`, or is not text, is never a base deduction |
| Csv.EscapeCsv | convertToCSV.js:14-22 | null and undefined become `""`; text without a comma, line feed or double quote comes back unchanged (a carriage return alone is not quoted); other text is wrapped in quotes, starts and ends with `"`, and grows by its number of quotes plus two |
| Csv.EscapeText | convertToCSV.js:16-21 | the same two cases for text that is already a string |
| Csv.PlainTextNeedsNoQuoting | convertToCSV.js:17 | text needs no quoting exactly when none of its characters is a comma, a line feed or a double quote |
| Csv.DoubleQuotes | convertToCSV.js:18 | doubling the quotes lengthens the text by exactly its number of quotes |
| Csv.DoubleQuotesInverse | convertToCSV.js:18 | every quote in the doubled text belongs to a `""` pair, and collapsing the pairs gives back the original |
| Csv.QuotedFieldInverse | convertToCSV.js:17-20 | inside the wrapper of a quoted field no quote is unpaired, and stripping the wrapper and collapsing `""` recovers the text |
| Csv.EscapeRoundTrip | convertToCSV.js:14-22 | a CSV reader given an escaped field followed by a comma, a line feed or the end reads back exactly the original text and stops at that boundary |
| Csv.RowText | convertToCSV.js:137 | `cells.map(escapeCSV).join(',')` is the comma-joined escaped text of the cells |
| Csv.LineRoundTrip | convertToCSV.js:137 | reading a comma-joined line of escaped fields gives back every field, in order, and the rest of the text after the line feed |
| Csv.DocumentRoundTrip | convertToCSV.js:143 | reading escaped lines joined by line feeds gives back every row, in order, with its exact fields |
| Csv.HeaderedDocument | convertToCSV.js:143 | a plain header line followed by escaped rows is the escaped document of the header and the rows |
| Csv.EscapedLineEnd | convertToCSV.js:137 | a line of two or more escaped fields never ends in a line feed |
| Csv.DocumentEnd | convertToCSV.js:143 | a document of such lines is non-empty and has no trailing line feed |
| Flatten.ConvertToMultipleCsvs | convertToCSV.js:12-147 | the result has exactly one key, `patients.csv`, whose value is the header line followed by the row of every kept record, in input order, joined by line feeds |
| Flatten.BuildPatientRow | convertToCSV.js:48-137 | the row is the 28 cells of the record escaped and joined by commas |
| Flatten.PatientCells | convertToCSV.js:134-136 | a record yields as many cells as the header has names |
| Flatten.PatientAddress | convertToCSV.js:52 | the address starts with the text of `addressline1`; it is exactly that text when `addressline2` is falsy, and otherwise goes on with four spaces and the text of `addressline2` |
| Flatten.SmallestConvertibleRecord | convertToCSV.js:40-137 | `WellFormed` admits a kept record whose contact, address and treatment lists are empty and whose dates are text, so the conversion precondition can be met |
| Flatten.HeaderShape | convertToCSV.js:26-31 | the header has 28 names, none of them needs quoting, so the header line is its own escaped line |
| Flatten.HeaderPlain | convertToCSV.js:26-31 | no header name holds a comma, a line feed or a double quote |
| Flatten.KeptRecordsFromInput | convertToCSV.js:40-46 | every record that gets a row comes from the input and has a truthy case number |
| Flatten.AppendRecord | convertToCSV.js:40-46 | a further record with a falsy case number adds no row; any other adds exactly its own row, after the earlier ones |
| Flatten.KeptRecordsAppend | convertToCSV.js:40-46 | the kept records of two concatenated inputs are the kept records of each, in order |
| Flatten.KeptRecordsCount | convertToCSV.js:46 | there are as many rows as there are input positions holding a truthy case number |
| Flatten.KeptRecordsIsCount | convertToCSV.js:46 | the number of rows equals a counter that is incremented for each kept record |
| Flatten.KeptTable | convertToCSV.js:134-137 | the table of cell texts has one line per kept record, each 28 wide |
| Flatten.PatientRowsAreKeptTable | convertToCSV.js:134-137 | the rows are exactly the escaped lines of the kept records' cell texts |
| Flatten.KeptTableIsKeptMap | convertToCSV.js:134-137 | the table writes each kept record, in order, as the cell texts of its 28 cells |
| Flatten.KeptTableRows | convertToCSV.js:134-137 | every kept record is well formed, and line `i` of the table is the cell texts of the `i`-th kept record |
| Flatten.FileTable | convertToCSV.js:141-146 | the file is the escaped document of the header and the kept records' cell texts, every line 28 wide |
| Flatten.PatientsCsvReadsBack | convertToCSV.js:141-146 | reading `patients.csv` back gives the header and then each kept record's 28 cell texts, one row more than there are kept records |
| Flatten.HeaderOnlyWithoutCaseNumbers | convertToCSV.js:46 | with no truthy case number in the input, the file is the header line alone |
| Flatten.NoTrailingNewline | convertToCSV.js:143 | the file is never empty and never ends in a line feed |
| Flatten.ScanPayments | convertToCSV.js:59-69 | the loop leaves `tds`, `status` and `transactionDate` equal to the fold in which each TDS payment overrides the earlier ones |
| Flatten.TdsFromLastTdsPayment | convertToCSV.js:62-67 | the three TDS fields are those of the last payment whose type is `"TDS"` |
| Flatten.TdsDefaults | convertToCSV.js:59-61 | with no TDS payment they keep their initial `0`, `""` and `null` |
| Flatten.TdsCells | convertToCSV.js:134-136 | cells 18 to 20 of a row are the amount, status and date left by the TDS loop |
| Flatten.TdsColumns | convertToCSV.js:26-31 | columns 18 to 20 of the header are "TDS", "Settled to Bank" and "Settlement Date" |
| Flatten.TdsDefaultCells | convertToCSV.js:59-61 | with no TDS payment, those three cells hold `0`, `""` and `null` |
| Flatten.NoTdsWritten | convertToCSV.js:15-22 | the cells `0`, `""` and `null` are written as `0`, an empty field and an empty field |
| Flatten.ScanLogs | convertToCSV.js:71-76 | the loop builds one line per log entry, in order, and counts the entries with status `"Claim Queried"` |
| Flatten.CountWhereCountsIndices | convertToCSV.js:74 | such a counter equals the number of positions whose entry passes the test |
| Flatten.NumQueryCountsQueries | convertToCSV.js:72-74 | the "Num of Queries" cell is the number of log entries whose status equals `"Claim Queried"` |
| Flatten.AppendLines | convertToCSV.js:79-96 | a `forEach` that appends one line per item leaves the accumulator followed by every item's line, in order |
| Flatten.LogLine | convertToCSV.js:75 | each log entry writes one line that ends in a line feed |
| Flatten.DiagnosisLine | convertToCSV.js:81 | each diagnosis writes one line that ends in a line feed |
| Flatten.TreatmentLine | convertToCSV.js:87 | each treatment writes one line that ends in a line feed |
| Flatten.AmountLine | convertToCSV.js:95 | each `calculatedamount` item writes one line that ends in a line feed, in all three passes that print items |
| Flatten.DeductionLine | convertToCSV.js:113 | each deduction writes one line that ends in a line feed |
| Flatten.ConcatAppend | convertToCSV.js:79-82 | the lines written for two lists one after the other are the lines of the joined list, in order |
| Flatten.ConcatLineCount | convertToCSV.js:79-82 | when every item's line holds one line feed, the accumulated text holds one line feed per item |
| Flatten.DiagnosisLines | convertToCSV.js:79-82 | the "Diagnosis" cell has one line per diagnosis when the values it shows hold no line feed |
| Flatten.DeductionItemLines | convertToCSV.js:113 | one `calculatedamount` item writes one line per entry of its truthy `deductions`, and none when `deductions` is falsy |
| Flatten.DeductionBreakupLines | convertToCSV.js:111-114 | the nested loop writes, in all, one line per deduction entry of every item whose `deductions` is truthy, when the values it shows hold no line feed |
| Flatten.DeductionBreakupCell | convertToCSV.js:136 | the last cell, under "Deduction Breakup", is text with that many line feeds |
| Flatten.ScanLinesWhere | convertToCSV.js:99-108 | a filtered `forEach` appends the lines of exactly the items that pass the test, in order |
| Flatten.ConcatWhereLineCount | convertToCSV.js:99-102 | when each line holds one line feed, the result holds one line feed per item that passed |
| Flatten.AmountLineIsOneLine | convertToCSV.js:101 | a breakup line whose fields print without line feeds holds exactly one line feed, at its end |
| Flatten.ApprovedBreakupLines | convertToCSV.js:99-102 | the "Claims Approved Breakup" text has one line per `calculatedamount` item whose status equals `"Approved"` |
| Flatten.ScanDeductions | convertToCSV.js:111-114 | the nested loop appends one line per deduction of each item with truthy `deductions`, in order |
| Flatten.SwapDateParts | convertToCSV.js:116-126 | the in-place swap of the first two `/`-parts, joined again, equals `SwappedDate` |
| Flatten.SwappedDateInvolution | convertToCSV.js:116-126 | for a date containing `/`, swapping twice gives back the date |
| Flatten.SwappedDateWithoutSlash | convertToCSV.js:116-120 | a date without `/` becomes `/` followed by the date (the missing second part is written as empty) |
| Flatten.SwappedDayMonth | convertToCSV.js:116-126 | for a `DD/MM/YYYY` date whose parts hold no `/`, the swap exchanges day and month and keeps the year, so `05/11/2024` becomes `11/05/2024` |
| Cleaning.Heap.CleanClaimData | script.js:19-36 | returns `data` itself; a falsy `data` leaves every object as it was; otherwise the heap becomes `Cleaned(old heap, data)`; scriptv3.js:19-36 is a verbatim copy of this function, so the model covers both |
| Cleaning.Heap.DeleteFromEach | script.js:23-25 | a `for…of` loop that deletes a key reaches the objects before the first undefined or null element and throws there; on a string it does nothing, and a value that is not iterable throws at once |
| Cleaning.Heap.DeleteFromElems | script.js:23-25 | the loop over an array's elements deletes the key from every object before the first undefined or null element, throws there if there is one, and changes nothing else |
| Cleaning.FirstNullish | script.js:23-25 | the index of the first undefined or null element: all earlier elements are neither, and the element there is one |
| Cleaning.RefTargetsMembers | script.js:24 | the loop deletes from an object exactly when some element it walks refers to that object |
| Cleaning.CleanedOnlyDeletes | script.js:24 | every object survives with the same kind and the same elements, gains no property, keeps every value, and loses nothing but `docbase64` and `attachments` |
| Cleaning.CleanedRemovesDocBase64 | script.js:22-26 | every object the document loop reaches has no `docbase64` afterwards: all of `encounter.documents` when it holds no null or undefined, the ones before the first such entry otherwise |
| Cleaning.CleanedRemovesAttachments | script.js:27-31 | when the document loop did not throw, every object the treatment loop reaches in an array-valued `treatments` has no `attachments` afterwards |
| Cleaning.MissingDocumentsKeepDocBase64 | script.js:22 | with `encounter` or `encounter.documents` missing or falsy, no `docbase64` is deleted |
| Cleaning.NonArrayTreatmentsKeepAttachments | script.js:27 | when `treatments` is not an array, no `attachments` is deleted |
| Cleaning.NonIterableDocumentsChangeNothing | script.js:32-34 | a truthy `documents` that cannot be iterated throws before any deletion; the error is swallowed, the treatment loop is skipped and every object is left as it was |
| Cleaning.CleaningStopsAtNullishDocument | script.js:32-35 | after a null or undefined document, an object that appears only later in the list is left exactly as it was |
| Cleaning.StripKeepsPaths | script.js:24 | deleting `docbase64` or `attachments` keeps every object, its kind, its elements and every other property, and adds nothing |
| Cleaning.SweepsSurviveCleaning | script.js:22-31 | in a cleaned heap both loops walk the same objects as before, because the deleted keys are never on their paths |
| Cleaning.CleanedIdempotent | script.js:22-31 | cleaning a cleaned record again changes nothing |

## Left out

- The comments in the flattener (convertToCSV.js:4-10, 24) speak of seven CSV files, among them a `claims.csv`. The code builds only the wide `patients.csv` table, and the model follows the code.
- Floating point is not modelled. The "Length of stay" and "Payment TAT" cells are computed with `Date` and `Math.ceil`, and the two percentage cells divide amounts as floating point. The model takes these four cells from a `FloatOps` parameter whose functions receive the operands the source passes. Every other cell is modelled exactly for integer amounts of magnitude at most 2^53 (`Number.MAX_SAFE_INTEGER`; numbers are modelled as integers) and for objects without their own `toString` or `valueOf` key (see below).
- Integers beyond 2^53 in magnitude are not modelled as JavaScript handles them. JavaScript numbers are doubles: above 2^53 its `-` (lines 55 and 131) rounds to a representable value, and `String` (line 16 and the concatenations at lines 52 and 68-113) prints the shortest digits that read back, padded with zeros. The model subtracts and prints exact integers, so JsValue.SubtractAmounts, JsValue.Show and JsValue.IntToString agree with the source only up to that bound.
- JsValue.StringToNumber is not what JavaScript does for every string. Numbers are integers, and numeric strings are an optional sign followed by decimal digits, or the empty string. Surrounding whitespace, fractions, exponents, hexadecimal literals and `Infinity` are not modelled, and neither is the exponent notation `String` uses from 1e21 up.
- An object with its own `toString` or `valueOf` property is not modelled. In JavaScript, such a key changes how the object converts to text or to a number. One that is not a function makes `String(o)` (line 16), `o + "    "` (lines 52 and 68-113), `o == "TDS"` (line 63) and `o - x` (line 55) throw a TypeError. The model treats every object alike: `JsValue.Show` writes it as `[object Object]`, `JsValue.ToNumber` gives NaN, and `JsValue.LooseEqualsString` compares it as `[object Object]`. Parsed JSON can carry such a key, and on those records the model's cells differ from the source's throw.
- `String.prototype.split` and indexing work on UTF-16 code units; here a string is a sequence of Dafny characters.
- Dead computations are not modelled, because nothing reads them: the `payments` accumulator (lines 58 and 68), `deductionBreakUp` (lines 92-94) and `careplanid`/`careplancode` (lines 53-54).
- A record the flattener cannot process makes it throw, and nothing catches the throw. The model states these cases as the precondition `Flatten.WellFormed` on kept records, so a throwing input is outside the model rather than modelled as an error result. A kept record throws when it has:
  - `encounter.patientcontacts` or `encounter.patientaddress` missing or null (indexing `[0]` of undefined, lines 51-52);
  - a `payment`, `log` or `claim.diagnosis` that is present but not an array (`forEach` is not a function, lines 62, 73, 80);
  - a null or undefined diagnosis entry (`d.display`, line 81);
  - a `claim.treatments` that is not an array: missing or null throws at `claim.treatments[0]` (line 135), anything else at `forEach` (line 86);
  - a `claim.amount.calculatedamount` that is present but not an array (line 93);
  - a null or undefined `calculatedamount` entry (`d.deductions`, line 113);
  - an `approvedfactor` that is neither null, undefined nor a string, including `0` and `false` (`split` is not a function, line 107);
  - a truthy `deductions` that is neither an array nor a string (not iterable, line 113);
  - a null or undefined entry among the deductions it iterates (`deduction.deductedamount`, line 113);
  - a `claim.dischargedate` or `claim.admissiondate` that is not a string (lines 116 and 122).
- `convert()` is not modelled: its file reading, JSON parsing and writing, and its console messages. The same goes for `console.error` in `cleanClaimData`, which only logs the swallowed error.
- The scraper's `main()` is not part of this model: browser connection, page navigation, response interception, retries, and the locks and flags of scriptv3.js.
- Cleaning.Truthy treats numbers as integers, so `NaN` and `-0` do not occur in the cleaner's heap. Getters, proxies, symbols and prototype properties are not modelled; a property read finds only the object's own properties.
- Cleaning.Heap.CleanClaimData requires a heap in which no reference dangles, which any JavaScript heap satisfies.
