/**
 * `convertToMultipleCSVs` (convertToCSV.js:12-147): turns the intercepted records into
 * the text of `patients.csv`, one wide row of 28 escaped cells per record that has a
 * case number, under a fixed header.
 *
 * Each `forEach` that folds a record's sub-list into a string or a counter is a method
 * with a loop, proved equal to a specification function that folds the list from the
 * left; lemmas then say what those functions mean (which payment gives the TDS cells,
 * how many logs are queries, how the file reads back as a table).
 */
module Flatten {
  import opened JsValue
  import opened Csv

  /** Column names of `patients.csv`, in order. */
  const PatientsHeader: seq<string> := [
    "Registration Id", "Patient Name", "Patient Phone", "Patient Address", "Diagnosis", "Treatment",
    "Date of Admission", "Discharge Date", "Length of stay", "Treatment Plan Breakup", "Claimed Amount",
    "Claimed amount after Dedcuctions", "Claimed Amount Deduction", "Claimed Amount Deduction(%)",
    "Claimed Amount Deduction Breakup", "Claimed Amount Breakup", "Total Claims(With Incentives)",
    "Claims Approved", "TDS", "Settled to Bank", "Settlement Date", "Claims Approved Breakup",
    "Case Logs", "Payment TAT", "Deduction Amount", "Deduction %", "Num of Queries", "Deduction Breakup"
  ]

  /** The number of columns. */
  const Width: nat := 28

  /** The header line: the names joined by commas, written without escaping. */
  const HeaderLine: string := Join(PatientsHeader, ",")

  /** The name of the one file the conversion produces. */
  const PatientsFile: string := "patients.csv"

  /** Floating-point division and `Date` arithmetic, which the model does not look into. */
  datatype FloatOps = FloatOps(
    percentOf: (Value, Value) -> Value,  // a as a percentage of b
    ceilDays: (Value, Value) -> Value)   // whole days from date b to date a, rounded up

  // ---------------------------------------------------------------- reading a record

  const EmptyObject: Value := Obj(map[])

  /** `record?.claim ?? {}` */
  function Claim(record: Value): Value {
    OrElse(Prop(record, "claim"), EmptyObject)
  }

  /** `claim?.encounter ?? {}` */
  function Encounter(record: Value): Value {
    OrElse(Prop(Claim(record), "encounter"), EmptyObject)
  }

  /** `claim?.amount ?? {}` */
  function Amount(record: Value): Value {
    OrElse(Prop(Claim(record), "amount"), EmptyObject)
  }

  /** A record is converted only when its `claim.casenumber` is truthy. */
  predicate Kept(record: Value) {
    Truthy(Prop(Claim(record), "casenumber"))
  }

  /** `(v ?? []).forEach` throws unless `v` is nullish or an array. */
  predicate ForEachable(v: Value) {
    IsNullish(v) || v.Arr?
  }

  /** The elements `(v ?? []).forEach` visits. */
  function Elements(v: Value): seq<Value> {
    if v.Arr? then v.items else []
  }

  /** What `for (const x of v)` visits: an array's elements, a string's characters. */
  function Iterated(v: Value): seq<Value> {
    match v
    case Arr(xs) => xs
    case Str(s) => seq(|s|, i requires 0 <= i < |s| => Str([s[i]]))
    case _ => []
  }

  function Payments(record: Value): seq<Value> {
    Elements(Prop(record, "payment"))
  }

  function Logs(record: Value): seq<Value> {
    Elements(Prop(record, "log"))
  }

  function Diagnoses(record: Value): seq<Value> {
    Elements(Prop(Claim(record), "diagnosis"))
  }

  function Treatments(record: Value): seq<Value> {
    Elements(Prop(Claim(record), "treatments"))
  }

  /** `claim?.amount?.calculatedamount ?? []` */
  function CalculatedAmounts(record: Value): seq<Value> {
    Elements(Prop(Prop(Claim(record), "amount"), "calculatedamount"))
  }

  /** The entries `if (d.deductions) for (let deduction of d.deductions)` visits. */
  function DeductionEntries(d: Value): seq<Value> {
    if Truthy(Prop(d, "deductions")) then Iterated(Prop(d, "deductions")) else []
  }

  /** A `calculatedamount` item that the four passes over the list read without a TypeError. */
  predicate ItemReadable(d: Value) {
    // `d.deductions`
    && !IsNullish(d)
    // `d?.approvedfactor?.split("%")`
    && (IsNullish(Prop(d, "approvedfactor")) || Prop(d, "approvedfactor").Str?)
    // `for (let deduction of d.deductions)`
    && (Truthy(Prop(d, "deductions")) ==> Prop(d, "deductions").Arr? || Prop(d, "deductions").Str?)
    // `deduction.deductedamount`
    && (forall x <- DeductionEntries(d) :: !IsNullish(x))
  }

  /** A kept record the conversion reads without a TypeError; on any other kept record
      the conversion throws and nothing catches it. */
  predicate WellFormed(record: Value) {
    var claim := Claim(record);
    var encounter := Encounter(record);
    // `encounter?.patientcontacts[0]` and `encounter?.patientaddress[0]`
    && !IsNullish(Prop(encounter, "patientcontacts"))
    && !IsNullish(Prop(encounter, "patientaddress"))
    && ForEachable(Prop(record, "payment"))
    && ForEachable(Prop(record, "log"))
    && ForEachable(Prop(claim, "diagnosis"))
    // `d.display`
    && (forall d <- Diagnoses(record) :: !IsNullish(d))
    // `(claim?.treatments ?? []).forEach` and `claim.treatments[0]`
    && Prop(claim, "treatments").Arr?
    && ForEachable(Prop(Prop(claim, "amount"), "calculatedamount"))
    && (forall d <- CalculatedAmounts(record) :: ItemReadable(d))
    // `claim.dischargedate.split("/")` and `claim.admissiondate.split("/")`
    && Prop(claim, "dischargedate").Str?
    && Prop(claim, "admissiondate").Str?
  }

  /** Every record the conversion keeps is well formed. */
  predicate Convertible(records: seq<Value>) {
    forall r <- records :: Kept(r) ==> WellFormed(r)
  }

  // ---------------------------------------------------------------- breakup lines

  const Gap: string := "    "

  function PaymentTypeIsTds(p: Value): bool {
    LooseEqualsString(Prop(p, "paymenttype"), "TDS")
  }

  function IsQuery(l: Value): bool {
    LooseEqualsString(Prop(l, "status"), "Claim Queried")
  }

  function IsApproved(d: Value): bool {
    LooseEqualsString(Prop(d, "status"), "Approved")
  }

  /** An item is a base deduction when its `approvedfactor` is text holding a `%` and the
      integer that leads the text before the first `%` is below 100. */
  function IsBaseDeduction(d: Value): bool {
    var factor := Prop(d, "approvedfactor");
    factor.Str? && |Split(factor.s, '%')| > 1
    && var p := ParseInt(Split(factor.s, '%')[0]); p.Num? && p.n < 100
  }

  function LogLine(l: Value): (r: string)
    ensures |r| >= 1 && r[|r| - 1] == '\n'
  {
    Show(Prop(l, "sno")) + Gap + Show(Prop(l, "process")) + Gap + Show(Prop(l, "raiseddate")) + Gap
    + Show(Prop(l, "updateddate")) + Gap + Show(Prop(l, "type")) + Gap + Show(Prop(l, "status")) + Gap
    + Show(Prop(l, "remarks")) + Gap + Show(Prop(l, "user")) + Gap + Show(Prop(l, "amount")) + "\n"
  }

  function DiagnosisLine(d: Value): (r: string)
    ensures |r| >= 1 && r[|r| - 1] == '\n'
  {
    Show(Prop(d, "sno")) + Gap + Show(Prop(d, "display")) + "\n"
  }

  function TreatmentLine(t: Value): (r: string)
    ensures |r| >= 1 && r[|r| - 1] == '\n'
  {
    Show(Prop(t, "sno")) + Gap + Show(Prop(t, "proceduretype")) + Gap + Show(Prop(t, "procedurename")) + Gap
    + Show(Prop(t, "typedesc")) + Gap + Show(Prop(t, "amount")) + Gap + Show(Prop(t, "packagecode")) + Gap
    + Show(Prop(t, "packagename")) + Gap + Show(Prop(t, "status")) + "\n"
  }

  /** The line each pass over `calculatedamount` writes for an item. */
  function AmountLine(d: Value): (r: string)
    ensures |r| >= 1 && r[|r| - 1] == '\n'
  {
    Show(Prop(d, "packagecost")) + Gap + Show(Prop(d, "status")) + Gap + "qnty: " + Show(Prop(d, "quantity")) + Gap
    + Show(Prop(d, "approvedfactor")) + Gap + Show(Prop(d, "amount")) + "\n"
  }

  function DeductionLine(x: Value): (r: string)
    ensures |r| >= 1 && r[|r| - 1] == '\n'
  {
    Show(Prop(x, "deductedamount")) + Gap + Show(Prop(x, "deductiondescription")) + "\n"
  }

  /** All deduction lines of one `calculatedamount` item. */
  function DeductionLines(d: Value): string {
    Concat(DeductionEntries(d), DeductionLine)
  }

  /** `items.forEach(x => acc += line(x))` from `acc = ""`. */
  function Concat(items: seq<Value>, line: Value -> string): string {
    if items == [] then "" else Concat(items[..|items| - 1], line) + line(items[|items| - 1])
  }

  /** `items.forEach(x => { if (keep(x)) acc += line(x) })` from `acc = ""`. */
  function ConcatWhere(items: seq<Value>, keep: Value -> bool, line: Value -> string): string {
    if items == [] then ""
    else
      var prefix := ConcatWhere(items[..|items| - 1], keep, line);
      var last := items[|items| - 1];
      if keep(last) then prefix + line(last) else prefix
  }

  /** `items.forEach(x => { if (keep(x)) n++ })` from `n = 0`. */
  function CountWhere(items: seq<Value>, keep: Value -> bool): nat {
    if items == [] then 0
    else CountWhere(items[..|items| - 1], keep) + (if keep(items[|items| - 1]) then 1 else 0)
  }

  /** The positions of `items` that `keep` selects. */
  function IndicesWhere(items: seq<Value>, keep: Value -> bool): set<nat> {
    set i: nat | i < |items| && keep(items[i])
  }

  // ---------------------------------------------------------------- TDS

  /** The TDS cells: amount, status and settlement date. */
  datatype Tds = Tds(amount: Value, status: Value, date: Value)

  /** The TDS cells' initial values: amount zero, empty status, null date. */
  const NoTds: Tds := Tds(Num(0), Str(""), Null)

  function TdsOf(p: Value): Tds {
    Tds(Prop(p, "transactionamount"), Prop(p, "paymentstatus"), Prop(p, "transactiondate"))
  }

  /** The TDS cells after the pass over `payments`. */
  function TdsAfter(payments: seq<Value>): Tds {
    if payments == [] then NoTds
    else
      var last := payments[|payments| - 1];
      if PaymentTypeIsTds(last) then TdsOf(last) else TdsAfter(payments[..|payments| - 1])
  }

  // ---------------------------------------------------------------- dates

  /** The day/month swap: split on `/`, exchange the first two parts, join with `/`.
      A text without `/` splits into one part; assigning index 1 extends the array with
      a hole that `join` writes as empty text. */
  function SwappedDate(date: string): string {
    var parts := Split(date, '/');
    var padded := if |parts| == 1 then parts + [""] else parts;
    Join([padded[1], padded[0]] + padded[2..], "/")
  }

  // ---------------------------------------------------------------- the row

  /** `addressline1`, then four spaces and `addressline2` when the latter is truthy. */
  function PatientAddress(encounter: Value): (r: string)
    ensures var first := At(Prop(encounter, "patientaddress"), 0); var line1 := Show(Prop(first, "addressline1"));
      && |r| >= |line1| && r[..|line1|] == line1
      && (!Truthy(Prop(first, "addressline2")) ==> r == line1)
      && (Truthy(Prop(first, "addressline2")) ==> r[|line1|..] == Gap + Show(Prop(first, "addressline2")))
  {
    var first := At(Prop(encounter, "patientaddress"), 0);
    Show(Prop(first, "addressline1"))
      + (if Truthy(Prop(first, "addressline2")) then Gap + Show(Prop(first, "addressline2")) else "")
  }

  /** The 28 values of a record's row, before escaping. */
  function PatientCells(record: Value, ops: FloatOps): (cells: seq<Value>)
    requires WellFormed(record)
    ensures |cells| == Width
  {
    var claim := Claim(record);
    var encounter := Encounter(record);
    var amount := Amount(record);
    var items := CalculatedAmounts(record);
    var tds := TdsAfter(Payments(record));
    var discharge := Str(SwappedDate(Prop(claim, "dischargedate").s));
    var admission := Str(SwappedDate(Prop(claim, "admissiondate").s));
    var baseDeduction := Subtract(Prop(amount, "packageamount"), Prop(amount, "totalpackageamount"));
    var deduction := Subtract(Prop(amount, "totalamount"), Prop(amount, "amountapproved"));
    [ Prop(encounter, "patientnumber"),
      Prop(encounter, "patientname"),
      Prop(At(Prop(encounter, "patientcontacts"), 0), "contactnumber"),
      Str(PatientAddress(encounter)),
      Str(Concat(Diagnoses(record), DiagnosisLine)),
      Prop(At(Prop(claim, "treatments"), 0), "procedurename"),
      Prop(claim, "admissiondate"),
      Prop(claim, "dischargedate"),
      ops.ceilDays(discharge, admission),
      Str(Concat(Treatments(record), TreatmentLine)),
      Prop(amount, "packageamount"),
      Prop(amount, "totalpackageamount"),
      baseDeduction,
      ops.percentOf(baseDeduction, Prop(amount, "packageamount")),
      Str(ConcatWhere(items, IsBaseDeduction, AmountLine)),
      Str(Concat(items, AmountLine)),
      Prop(amount, "totalamount"),
      Prop(amount, "amountapproved"),
      tds.amount,
      tds.status,
      tds.date,
      Str(ConcatWhere(items, IsApproved, AmountLine)),
      Str(Concat(Logs(record), LogLine)),
      ops.ceilDays(tds.date, discharge),
      deduction,
      ops.percentOf(deduction, Prop(amount, "totalamount")),
      Num(CountWhere(Logs(record), IsQuery)),
      Str(Concat(items, DeductionLines))
    ]
  }

  /** The records that get a row, in input order. */
  function KeptRecords(records: seq<Value>): seq<Value> {
    if records == [] then []
    else
      var last := records[|records| - 1];
      KeptRecords(records[..|records| - 1]) + (if Kept(last) then [last] else [])
  }

  /** The rows pushed to `rows.patients`, in order. */
  function PatientRows(records: seq<Value>, ops: FloatOps): seq<string>
    requires Convertible(records)
  {
    if records == [] then []
    else
      var last := records[|records| - 1];
      PatientRows(records[..|records| - 1], ops)
        + (if Kept(last) then [RowText(PatientCells(last, ops))] else [])
  }

  /** The text of `patients.csv`: the header line, then the rows, joined by line feeds. */
  function PatientsCsv(records: seq<Value>, ops: FloatOps): string
    requires Convertible(records)
  {
    Join([HeaderLine] + PatientRows(records, ops), "\n")
  }

  // ---------------------------------------------------------------- the imperative passes

  /** The pass over `record?.payment ?? []` that keeps the last TDS payment's cells. */
  method ScanPayments(payments: seq<Value>) returns (tds: Tds)
    ensures tds == TdsAfter(payments)
  {
    var amount, date, status := Num(0), Null, Str("");
    for i := 0 to |payments|
      invariant Tds(amount, status, date) == TdsAfter(payments[..i])
    {
      var p := payments[i];
      if PaymentTypeIsTds(p) {
        amount := Prop(p, "transactionamount");
        date := Prop(p, "transactiondate");
        status := Prop(p, "paymentstatus");
      }
      assert payments[..i + 1][..i] == payments[..i];
    }
    assert payments[..|payments|] == payments;
    tds := Tds(amount, status, date);
  }

  /** The pass over `record?.log ?? []`: the log lines and the number of queries. */
  method ScanLogs(logs: seq<Value>) returns (text: string, numQuery: nat)
    ensures text == Concat(logs, LogLine)
    ensures numQuery == CountWhere(logs, IsQuery)
  {
    text, numQuery := "", 0;
    for i := 0 to |logs|
      invariant text == Concat(logs[..i], LogLine)
      invariant numQuery == CountWhere(logs[..i], IsQuery)
    {
      var l := logs[i];
      if IsQuery(l) {
        numQuery := numQuery + 1;
      }
      text := text + LogLine(l);
      assert logs[..i + 1][..i] == logs[..i];
    }
    assert logs[..|logs|] == logs;
  }

  /** A pass that appends one line per element to `acc`. */
  method AppendLines(acc: string, items: seq<Value>, line: Value -> string) returns (text: string)
    ensures text == acc + Concat(items, line)
  {
    text := acc;
    for i := 0 to |items|
      invariant text == acc + Concat(items[..i], line)
    {
      text := text + line(items[i]);
      assert items[..i + 1][..i] == items[..i];
    }
    assert items[..|items|] == items;
  }

  /** A pass that appends one line per element `keep` selects. */
  method ScanLinesWhere(items: seq<Value>, keep: Value -> bool, line: Value -> string) returns (text: string)
    ensures text == ConcatWhere(items, keep, line)
  {
    text := "";
    for i := 0 to |items|
      invariant text == ConcatWhere(items[..i], keep, line)
    {
      if keep(items[i]) {
        text := text + line(items[i]);
      }
      assert items[..i + 1][..i] == items[..i];
    }
    assert items[..|items|] == items;
  }

  /** The pass over `calculatedamount` that writes every deduction of every item. */
  method ScanDeductions(items: seq<Value>) returns (text: string)
    ensures text == Concat(items, DeductionLines)
  {
    text := "";
    for i := 0 to |items|
      invariant text == Concat(items[..i], DeductionLines)
    {
      // the inner loop over the item's deductions, when it has any
      text := AppendLines(text, DeductionEntries(items[i]), DeductionLine);
      assert items[..i + 1][..i] == items[..i];
    }
    assert items[..|items|] == items;
  }

  /** The day/month swap on the array `split` returns. */
  method SwapDateParts(date: string) returns (swapped: string)
    ensures swapped == SwappedDate(date)
  {
    var parts := Split(date, '/');
    var n := if |parts| < 2 then 2 else |parts|;
    // the element past the end reads as undefined, which `join` writes as ""
    var a := new string[n](i requires 0 <= i < n => if i < |parts| then parts[i] else "");
    var first := a[0];
    a[0] := a[1];
    a[1] := first;
    var padded := if |parts| == 1 then parts + [""] else parts;
    assert a[..] == [padded[1], padded[0]] + padded[2..];
    swapped := Join(a[..], "/");
  }

  /** The body of the loop over records, for a record that has a case number. */
  method BuildPatientRow(record: Value, ops: FloatOps) returns (row: string)
    requires WellFormed(record)
    ensures row == RowText(PatientCells(record, ops))
  {
    var claim := Claim(record);
    var encounter := Encounter(record);
    var amount := Amount(record);
    var address := PatientAddress(encounter);
    var deduction := Subtract(Prop(amount, "totalamount"), Prop(amount, "amountapproved"));
    var tds := ScanPayments(Payments(record));
    var logs, numQuery := ScanLogs(Logs(record));
    var diagnosis := AppendLines("", Diagnoses(record), DiagnosisLine);
    var treatments := AppendLines("", Treatments(record), TreatmentLine);
    var items := CalculatedAmounts(record);
    var amounts := AppendLines("", items, AmountLine);
    var approved := ScanLinesWhere(items, IsApproved, AmountLine);
    var baseDeductions := ScanLinesWhere(items, IsBaseDeduction, AmountLine);
    var deductions := ScanDeductions(items);
    var discharge := SwapDateParts(Prop(claim, "dischargedate").s);
    var admission := SwapDateParts(Prop(claim, "admissiondate").s);
    var tat := ops.ceilDays(tds.date, Str(discharge));
    var stay := ops.ceilDays(Str(discharge), Str(admission));
    var baseDeduction := Subtract(Prop(amount, "packageamount"), Prop(amount, "totalpackageamount"));
    var baseDeductionPercentage := ops.percentOf(baseDeduction, Prop(amount, "packageamount"));
    var deductionPercentage := ops.percentOf(deduction, Prop(amount, "totalamount"));
    var cells := [
      Prop(encounter, "patientnumber"), Prop(encounter, "patientname"),
      Prop(At(Prop(encounter, "patientcontacts"), 0), "contactnumber"), Str(address), Str(diagnosis),
      Prop(At(Prop(claim, "treatments"), 0), "procedurename"), Prop(claim, "admissiondate"),
      Prop(claim, "dischargedate"), stay, Str(treatments), Prop(amount, "packageamount"),
      Prop(amount, "totalpackageamount"), baseDeduction, baseDeductionPercentage, Str(baseDeductions),
      Str(amounts), Prop(amount, "totalamount"), Prop(amount, "amountapproved"), tds.amount, tds.status,
      tds.date, Str(approved), Str(logs), tat, deduction, deductionPercentage, Num(numQuery), Str(deductions)
    ];
    assert "" + Concat(items, AmountLine) == Concat(items, AmountLine);
    assert "" + Concat(Diagnoses(record), DiagnosisLine) == Concat(Diagnoses(record), DiagnosisLine);
    assert "" + Concat(Treatments(record), TreatmentLine) == Concat(Treatments(record), TreatmentLine);
    assert cells == PatientCells(record, ops);
    row := RowText(cells);
  }

  /** `convertToMultipleCSVs(records)` */
  method ConvertToMultipleCsvs(records: seq<Value>, ops: FloatOps) returns (files: map<string, string>)
    requires Convertible(records)
    ensures files.Keys == {PatientsFile}
    ensures files[PatientsFile] == PatientsCsv(records, ops)
  {
    var rows: seq<string> := [];
    for i := 0 to |records|
      invariant rows == PatientRows(records[..i], ops)
    {
      var record := records[i];
      assert records[..i + 1][..i] == records[..i];
      if Kept(record) {
        var row := BuildPatientRow(record, ops);
        rows := rows + [row];
      }
    }
    assert records[..|records|] == records;
    files := map[PatientsFile := Join([Join(PatientsHeader, ",")] + rows, "\n")];
  }

  // ---------------------------------------------------------------- what the file means

  /** The header has 28 names, none of which needs quoting, so the unescaped header
      line is also its escaped line. */
  lemma HeaderShape()
    ensures |PatientsHeader| == 28
    ensures forall i :: 0 <= i < |PatientsHeader| ==> !NeedsQuoting(PatientsHeader[i])
    ensures HeaderLine == EscapedLine(PatientsHeader)
  {
    HeaderPlain();
    forall i | 0 <= i < |PatientsHeader|
      ensures !NeedsQuoting(PatientsHeader[i])
    {
      PlainTextNeedsNoQuoting(PatientsHeader[i]);
    }
    PlainLine(PatientsHeader);
  }

  /** Every header name is made of plain characters. */
  lemma HeaderPlain()
    ensures |PatientsHeader| == 28
    ensures forall i :: 0 <= i < |PatientsHeader| ==> PlainText(PatientsHeader[i])
  {
    Columns0To3Plain();
    Columns4To7Plain();
    Columns8To11Plain();
    Columns12To15Plain();
    Columns16To19Plain();
    Columns20To23Plain();
    Columns24To27Plain();
  }

  // Four header names at a time (small groups keep each proof small).

  lemma Columns0To3Plain()
    ensures PlainText("Registration Id")
    ensures PlainText("Patient Name")
    ensures PlainText("Patient Phone")
    ensures PlainText("Patient Address")
  {
  }

  lemma Columns4To7Plain()
    ensures PlainText("Diagnosis")
    ensures PlainText("Treatment")
    ensures PlainText("Date of Admission")
    ensures PlainText("Discharge Date")
  {
  }

  lemma Columns8To11Plain()
    ensures PlainText("Length of stay")
    ensures PlainText("Treatment Plan Breakup")
    ensures PlainText("Claimed Amount")
    ensures PlainText("Claimed amount after Dedcuctions")
  {
  }

  lemma Columns12To15Plain()
    ensures PlainText("Claimed Amount Deduction")
    ensures PlainText("Claimed Amount Deduction(%)")
    ensures PlainText("Claimed Amount Deduction Breakup")
    ensures PlainText("Claimed Amount Breakup")
  {
  }

  lemma Columns16To19Plain()
    ensures PlainText("Total Claims(With Incentives)")
    ensures PlainText("Claims Approved")
    ensures PlainText("TDS")
    ensures PlainText("Settled to Bank")
  {
  }

  lemma Columns20To23Plain()
    ensures PlainText("Settlement Date")
    ensures PlainText("Claims Approved Breakup")
    ensures PlainText("Case Logs")
    ensures PlainText("Payment TAT")
  {
  }

  lemma Columns24To27Plain()
    ensures PlainText("Deduction Amount")
    ensures PlainText("Deduction %")
    ensures PlainText("Num of Queries")
    ensures PlainText("Deduction Breakup")
  {
  }

  /** The cell texts of every record that gets a row, in order. */
  function KeptTable(records: seq<Value>, ops: FloatOps): (table: seq<seq<string>>)
    requires Convertible(records)
    ensures |table| == |KeptRecords(records)|
    ensures forall i :: 0 <= i < |table| ==> |table[i]| == Width
  {
    if records == [] then []
    else
      var init := records[..|records| - 1];
      var last := records[|records| - 1];
      assert forall r <- init :: r in records;
      KeptTable(init, ops) + (if Kept(last) then [CellTexts(PatientCells(last, ops))] else [])
  }

  /** The records that get a row are input records with a case number. */
  lemma {:induction false} KeptRecordsFromInput(records: seq<Value>)
    ensures forall r <- KeptRecords(records) :: r in records && Kept(r)
  {
    if records != [] {
      var init := records[..|records| - 1];
      KeptRecordsFromInput(init);
      assert forall r <- init :: r in records;
    }
  }

  lemma {:induction false} PatientRowsAreKeptTable(records: seq<Value>, ops: FloatOps)
    requires Convertible(records)
    ensures PatientRows(records, ops) == EscapedLines(KeptTable(records, ops))
  {
    if records != [] {
      var init := records[..|records| - 1];
      var last := records[|records| - 1];
      assert forall r <- init :: r in records;
      PatientRowsAreKeptTable(init, ops);
      if Kept(last) {
        EscapedLinesSnoc(KeptTable(init, ops), CellTexts(PatientCells(last, ops)));
      }
    }
  }

  /** Read back as CSV, `patients.csv` is the header followed by one row per record that
      has a case number, in input order, each holding exactly the texts of that record's
      28 cells. */
  lemma PatientsCsvReadsBack(records: seq<Value>, ops: FloatOps)
    requires Convertible(records)
    ensures ReadDocument(PatientsCsv(records, ops)) == [PatientsHeader] + KeptTable(records, ops)
    ensures |ReadDocument(PatientsCsv(records, ops))| == |KeptRecords(records)| + 1
    ensures forall row <- ReadDocument(PatientsCsv(records, ops)) :: |row| == |PatientsHeader|
  {
    var table := [PatientsHeader] + KeptTable(records, ops);
    HeaderWidth();
    FileTable(records, ops);
    DocumentRoundTrip(table);
  }

  /** `patients.csv` is the table of the header and the kept records' cell texts, written
      as escaped lines. */
  lemma FileTable(records: seq<Value>, ops: FloatOps)
    requires Convertible(records)
    ensures var table := [PatientsHeader] + KeptTable(records, ops);
      && PatientsCsv(records, ops) == Join(EscapedLines(table), "\n")
      && forall i :: 0 <= i < |table| ==> |table[i]| == Width
  {
    HeaderShape();
    PatientRowsAreKeptTable(records, ops);
    var body := KeptTable(records, ops);
    TableWidth(body);
    HeaderedDocument(PatientsHeader, PatientRows(records, ops), body);
  }

  lemma TableWidth(body: seq<seq<string>>)
    requires forall i :: 0 <= i < |body| ==> |body[i]| == Width
    ensures var table := [PatientsHeader] + body;
      forall i :: 0 <= i < |table| ==> |table[i]| == Width
  {
    HeaderWidth();
    var table := [PatientsHeader] + body;
    forall i | 0 <= i < |table|
      ensures |table[i]| == Width
    {
      if i > 0 {
        assert table[i] == body[i - 1];
      }
    }
  }

  /** The file never ends in a line feed: its last line is the header or a row of 28 fields. */
  lemma NoTrailingNewline(records: seq<Value>, ops: FloatOps)
    requires Convertible(records)
    ensures var csv := PatientsCsv(records, ops); |csv| >= 1 && csv[|csv| - 1] != '\n'
  {
    FileTable(records, ops);
    TableEnd(PatientsCsv(records, ops), [PatientsHeader] + KeptTable(records, ops));
  }

  /** A document of 28-wide lines ends in a field, never in a line feed. */
  lemma TableEnd(csv: string, table: seq<seq<string>>)
    requires |table| >= 1 && csv == Join(EscapedLines(table), "\n")
    requires forall i :: 0 <= i < |table| ==> |table[i]| == Width
    ensures |csv| >= 1 && csv[|csv| - 1] != '\n'
  {
    DocumentEnd(table);
  }

  /** The header is as wide as a row. */
  lemma HeaderWidth()
    ensures |PatientsHeader| == Width
  {
  }

  /** When no record has a case number, `patients.csv` is the header line alone. */
  lemma {:induction false} HeaderOnlyWithoutCaseNumbers(records: seq<Value>, ops: FloatOps)
    requires forall r <- records :: !Kept(r)
    ensures Convertible(records)
    ensures PatientsCsv(records, ops) == HeaderLine
  {
    if records != [] {
      var init := records[..|records| - 1];
      assert forall r <- init :: r in records;
      HeaderOnlyWithoutCaseNumbers(init, ops);
    }
    assert [HeaderLine] + PatientRows(records, ops) == [HeaderLine];
  }

  /** A record without a case number adds nothing; any other record adds its row at the end. */
  lemma AppendRecord(records: seq<Value>, r: Value, ops: FloatOps)
    requires Convertible(records + [r])
    ensures Convertible(records)
    ensures !Kept(r) ==> PatientRows(records + [r], ops) == PatientRows(records, ops)
    ensures Kept(r) ==>
      PatientRows(records + [r], ops) == PatientRows(records, ops) + [RowText(PatientCells(r, ops))]
  {
    assert (records + [r])[..|records|] == records;
    assert forall x <- records :: x in records + [r];
  }

  /** Filtering respects concatenation, so kept records keep their relative order. */
  lemma {:induction false} KeptRecordsAppend(a: seq<Value>, b: seq<Value>)
    ensures KeptRecords(a + b) == KeptRecords(a) + KeptRecords(b)
  {
    if b == [] {
      assert a + b == a;
    } else {
      var init := b[..|b| - 1];
      assert (a + b)[..|a + b| - 1] == a + init;
      KeptRecordsAppend(a, init);
    }
  }

  /** A fold that counts is the number of positions it selects. */
  lemma {:induction false} CountWhereCountsIndices(items: seq<Value>, keep: Value -> bool)
    ensures CountWhere(items, keep) == |IndicesWhere(items, keep)|
  {
    if items != [] {
      var n := |items| - 1;
      var init := items[..n];
      CountWhereCountsIndices(init, keep);
      var before := IndicesWhere(init, keep);
      if keep(items[n]) {
        assert IndicesWhere(items, keep) == before + {n};
      } else {
        assert IndicesWhere(items, keep) == before;
      }
    }
  }

  /** One row per record with a case number: there are as many rows as such records. */
  lemma {:induction false} KeptRecordsCount(records: seq<Value>)
    ensures |KeptRecords(records)| == |IndicesWhere(records, Kept)|
  {
    KeptRecordsIsCount(records);
    CountWhereCountsIndices(records, Kept);
  }

  lemma {:induction false} KeptRecordsIsCount(records: seq<Value>)
    ensures |KeptRecords(records)| == CountWhere(records, Kept)
  {
    if records != [] {
      KeptRecordsIsCount(records[..|records| - 1]);
    }
  }

  /** The "Num of Queries" cell is the number of log entries whose status is loosely
      equal to "Claim Queried". */
  lemma NumQueryCountsQueries(record: Value, ops: FloatOps)
    requires WellFormed(record)
    ensures PatientCells(record, ops)[26] == Num(|IndicesWhere(Logs(record), IsQuery)|)
    ensures PatientsHeader[26] == "Num of Queries"
  {
    CountWhereCountsIndices(Logs(record), IsQuery);
  }

  /** The TDS cells come from the last payment whose type is "TDS". */
  lemma {:induction false} TdsFromLastTdsPayment(payments: seq<Value>, k: nat)
    requires k < |payments| && PaymentTypeIsTds(payments[k])
    requires forall j :: k < j < |payments| ==> !PaymentTypeIsTds(payments[j])
    ensures TdsAfter(payments) == TdsOf(payments[k])
  {
    if k < |payments| - 1 {
      var init := payments[..|payments| - 1];
      TdsFromLastTdsPayment(init, k);
    }
  }

  /** Without a TDS payment the TDS cells are 0, "" and null. */
  lemma {:induction false} TdsDefaults(payments: seq<Value>)
    requires forall p <- payments :: !PaymentTypeIsTds(p)
    ensures TdsAfter(payments) == NoTds
  {
    if payments != [] {
      var init := payments[..|payments| - 1];
      assert forall p <- init :: p in payments;
      TdsDefaults(init);
    }
  }

  /** The "TDS", "Settled to Bank" and "Settlement Date" cells of a record without a TDS
      payment read "0", "" and "". */
  lemma TdsDefaultCells(record: Value, ops: FloatOps)
    requires WellFormed(record)
    requires forall p <- Payments(record) :: !PaymentTypeIsTds(p)
    ensures PatientCells(record, ops)[18..21] == [Num(0), Str(""), Null]
  {
    TdsDefaults(Payments(record));
    TdsCells(record, ops);
  }

  /** The default TDS values are written as `0`, empty and empty. */
  lemma NoTdsWritten()
    ensures EscapeCsv(NoTds.amount) == "0"
    ensures EscapeCsv(NoTds.status) == "" && EscapeCsv(NoTds.date) == ""
  {
  }

  /** Cells 18 to 20 are what the payment loop leaves in `tds`, `status` and `transactionDate`. */
  lemma TdsCells(record: Value, ops: FloatOps)
    requires WellFormed(record)
    ensures var tds := TdsAfter(Payments(record));
      PatientCells(record, ops)[18..21] == [tds.amount, tds.status, tds.date]
  {
  }

  /** Columns 18 to 20 are the TDS columns. */
  lemma TdsColumns()
    ensures PatientsHeader[18..21] == ["TDS", "Settled to Bank", "Settlement Date"]
  {
  }

  /** Appending lines of one line feed each adds one line feed per selected element. */
  lemma {:induction false} ConcatWhereLineCount(items: seq<Value>, keep: Value -> bool, line: Value -> string)
    requires forall x <- items :: Count(line(x), '\n') == 1
    ensures Count(ConcatWhere(items, keep, line), '\n') == CountWhere(items, keep)
  {
    if items != [] {
      var init := items[..|items| - 1];
      var last := items[|items| - 1];
      assert forall x <- init :: x in items;
      ConcatWhereLineCount(init, keep, line);
      if keep(last) {
        CountAppend(ConcatWhere(init, keep, line), line(last), '\n');
      }
    }
  }

  /** Text with no line feed in it. */
  predicate OneLine(t: string) {
    '\n' !in t
  }

  /** An item's breakup line ends in its only line feed when the values it shows hold none. */
  lemma AmountLineIsOneLine(d: Value)
    requires OneLine(Show(Prop(d, "packagecost"))) && OneLine(Show(Prop(d, "status")))
    requires OneLine(Show(Prop(d, "quantity"))) && OneLine(Show(Prop(d, "approvedfactor")))
    requires OneLine(Show(Prop(d, "amount")))
    ensures Count(AmountLine(d), '\n') == 1
    ensures AmountLine(d)[|AmountLine(d)| - 1] == '\n'
  {
    var body := AmountLine(d)[..|AmountLine(d)| - 1];
    assert AmountLine(d) == body + "\n";
    assert OneLine(body);
    CountAbsent(body, '\n');
    CountAppend(body, "\n", '\n');
  }

  /** The "Claims Approved Breakup" cell has one line per approved `calculatedamount`
      item, when the values its lines show hold no line feed. */
  lemma ApprovedBreakupLines(items: seq<Value>)
    requires forall d <- items ::
      && OneLine(Show(Prop(d, "packagecost"))) && OneLine(Show(Prop(d, "status")))
      && OneLine(Show(Prop(d, "quantity"))) && OneLine(Show(Prop(d, "approvedfactor")))
      && OneLine(Show(Prop(d, "amount")))
    ensures Count(ConcatWhere(items, IsApproved, AmountLine), '\n') == |IndicesWhere(items, IsApproved)|
  {
    forall d <- items
      ensures Count(AmountLine(d), '\n') == 1
    {
      AmountLineIsOneLine(d);
    }
    ConcatWhereLineCount(items, IsApproved, AmountLine);
    CountWhereCountsIndices(items, IsApproved);
  }

  /** Swapping the first two parts twice gives back a date that has a `/`. */
  lemma SwappedDateInvolution(date: string)
    requires '/' in date
    ensures SwappedDate(SwappedDate(date)) == date
  {
    var parts := Split(date, '/');
    SplitJoin(date, '/');
    CountPositive(date, '/');
    var swapped := [parts[1], parts[0]] + parts[2..];
    assert forall i :: 0 <= i < |swapped| ==> '/' !in swapped[i] by {
      forall i | 0 <= i < |swapped| ensures '/' !in swapped[i] {
        if i >= 2 { assert swapped[i] == parts[i]; }
      }
    }
    JoinSplit(swapped, '/');
    assert [swapped[1], swapped[0]] + swapped[2..] == parts;
  }

  lemma {:induction false} CountPositive(s: string, c: char)
    requires c in s
    ensures Count(s, c) >= 1
  {
    if s[0] != c {
      CountPositive(s[1..], c);
    }
  }

  /** A date without `/` comes out with a `/` in front. */
  lemma SwappedDateWithoutSlash(date: string)
    requires '/' !in date
    ensures SwappedDate(date) == "/" + date
  {
    SplitNoSeparator(date, '/');
    var padded := Split(date, '/') + [""];
    assert padded == [date, ""];
    assert [padded[1], padded[0]] + padded[2..] == ["", date];
    assert Join(["", date], "/") == "" + "/" + Join([date], "/");
  }

  /** Day and month change places in a `DD/MM/YYYY` date. */
  lemma SwappedDayMonth(d: string, m: string, y: string)
    requires '/' !in d && '/' !in m && '/' !in y
    ensures SwappedDate(d + "/" + m + "/" + y) == m + "/" + d + "/" + y
  {
    assert d + "/" + m + "/" + y == d + ['/'] + (m + ['/'] + y);
    SplitPrefix(d, m + ['/'] + y, '/');
    SplitPrefix(m, y, '/');
    SplitNoSeparator(y, '/');
    assert Split(d + "/" + m + "/" + y, '/') == [d, m, y];
    assert [d, y][1..] == [y];
    assert Join([d, y], "/") == d + "/" + y;
    assert [m, d, y][1..] == [d, y];
    assert Join([m, d, y], "/") == m + "/" + Join([d, y], "/");
    assert [m, d] + [d, m, y][2..] == [m, d, y];
  }

  // ---------------------------------------------------------------- defaults and amounts

  /** `claim`, `encounter` and `amount` are never null or undefined, and reading a
      property of `encounter` or `amount` (even with a plain `.`) gives what the
      optional chain from the record gives. */
  lemma DefaultsReadThrough(record: Value, key: string)
    ensures !IsNullish(Claim(record)) && !IsNullish(Encounter(record)) && !IsNullish(Amount(record))
    ensures Prop(Encounter(record), key) == Prop(Prop(Prop(record, "claim"), "encounter"), key)
    ensures Prop(Amount(record), key) == Prop(Prop(Prop(record, "claim"), "amount"), key)
  {
    OrEmptyReadsThrough(Prop(record, "claim"), "encounter");
    OrEmptyReadsThrough(Prop(record, "claim"), "amount");
    OrEmptyReadsThrough(Prop(Claim(record), "encounter"), key);
    OrEmptyReadsThrough(Prop(Claim(record), "amount"), key);
  }

  /** Cell 12 is `packageamount - totalpackageamount`. */
  lemma BaseDeductionCell(record: Value, ops: FloatOps)
    requires WellFormed(record)
    ensures var amount := Amount(record);
      PatientCells(record, ops)[12] == Subtract(Prop(amount, "packageamount"), Prop(amount, "totalpackageamount"))
  {
    var cells := PatientCells(record, ops);
    assert cells[10..] == cells[10..][..4] + cells[14..];
  }

  /** Cell 24 is `totalamount - amountapproved`. */
  lemma DeductionCell(record: Value, ops: FloatOps)
    requires WellFormed(record)
    ensures var amount := Amount(record);
      PatientCells(record, ops)[24] == Subtract(Prop(amount, "totalamount"), Prop(amount, "amountapproved"))
  {
  }

  /** The "Deduction Amount" cell is the claimed total less the approved amount, when both
      are numbers or decimal text. */
  lemma DeductionOfAmounts(record: Value, ops: FloatOps, total: int, approved: int)
    requires WellFormed(record)
    requires IsAmount(Prop(Amount(record), "totalamount"), total)
    requires IsAmount(Prop(Amount(record), "amountapproved"), approved)
    ensures PatientCells(record, ops)[24] == Num(total - approved)
    ensures PatientsHeader[24] == "Deduction Amount"
  {
    DeductionCell(record, ops);
    SubtractAmounts(Prop(Amount(record), "totalamount"), Prop(Amount(record), "amountapproved"), total, approved);
  }

  /** The "Claimed Amount Deduction" cell is the package amount less the total package
      amount, when both are numbers or decimal text. */
  lemma BaseDeductionOfAmounts(record: Value, ops: FloatOps, package: int, totalPackage: int)
    requires WellFormed(record)
    requires IsAmount(Prop(Amount(record), "packageamount"), package)
    requires IsAmount(Prop(Amount(record), "totalpackageamount"), totalPackage)
    ensures PatientCells(record, ops)[12] == Num(package - totalPackage)
    ensures PatientsHeader[12] == "Claimed Amount Deduction"
  {
    BaseDeductionCell(record, ops);
    SubtractAmounts(Prop(Amount(record), "packageamount"), Prop(Amount(record), "totalpackageamount"), package, totalPackage);
  }

  // ---------------------------------------------------------------- base deductions

  /** An item whose `approvedfactor` reads `NN%...` is a base deduction exactly when `NN < 100`. */
  lemma BaseDeductionFactor(d: Value, n: nat, rest: string)
    requires Prop(d, "approvedfactor") == Str(NatToString(n) + "%" + rest)
    ensures IsBaseDeduction(d) <==> n < 100
  {
    var p := NatToString(n);
    assert '%' !in p by {
      forall i | 0 <= i < |p| ensures p[i] != '%' {
        assert IsDigit(p[i]);
      }
    }
    assert p + "%" + rest == p + ['%'] + rest;
    SplitPrefix(p, rest, '%');
    ParseIntOfDecimal(n, "");
    assert p + "" == p;
  }

  /** An item whose `approvedfactor` has no `%` (or is not text) is never a base deduction. */
  lemma NoPercentNoBaseDeduction(d: Value)
    requires Prop(d, "approvedfactor").Str? ==> '%' !in Prop(d, "approvedfactor").s
    ensures !IsBaseDeduction(d)
  {
    if Prop(d, "approvedfactor").Str? {
      SplitNoSeparator(Prop(d, "approvedfactor").s, '%');
    }
  }

  // ---------------------------------------------------------------- one line per item

  /** The lines of two lists one after the other are the lines of the joined list. */
  lemma {:induction false} ConcatAppend(a: seq<Value>, b: seq<Value>, line: Value -> string)
    ensures Concat(a + b, line) == Concat(a, line) + Concat(b, line)
  {
    if b == [] {
      assert a + b == a;
    } else {
      var ab := a + b;
      assert ab[..|ab| - 1] == a + b[..|b| - 1];
      assert ab[|ab| - 1] == b[|b| - 1];
      ConcatAppend(a, b[..|b| - 1], line);
    }
  }

  /** When every item's line holds one line feed, the text holds one per item. */
  lemma {:induction false} ConcatLineCount(items: seq<Value>, line: Value -> string)
    requires forall x <- items :: Count(line(x), '\n') == 1
    ensures Count(Concat(items, line), '\n') == |items|
  {
    if items != [] {
      var init := items[..|items| - 1];
      assert forall x <- init :: x in items;
      ConcatLineCount(init, line);
      CountAppend(Concat(init, line), line(items[|items| - 1]), '\n');
    }
  }

  /** A line ending in a line feed, with none before it, holds exactly one. */
  lemma TerminatedLine(t: string)
    requires |t| >= 1 && t[|t| - 1] == '\n' && OneLine(t[..|t| - 1])
    ensures Count(t, '\n') == 1
  {
    var body := t[..|t| - 1];
    assert t == body + "\n";
    CountAbsent(body, '\n');
    CountAppend(body, "\n", '\n');
  }

  /** The "Diagnosis" cell has one line per diagnosis, when the values its lines show
      hold no line feed. */
  lemma DiagnosisLines(record: Value)
    requires forall d <- Diagnoses(record) :: OneLine(Show(Prop(d, "sno"))) && OneLine(Show(Prop(d, "display")))
    ensures Count(Concat(Diagnoses(record), DiagnosisLine), '\n') == |Diagnoses(record)|
  {
    forall d <- Diagnoses(record)
      ensures Count(DiagnosisLine(d), '\n') == 1
    {
      var t := DiagnosisLine(d);
      assert t[..|t| - 1] == Show(Prop(d, "sno")) + Gap + Show(Prop(d, "display"));
      TerminatedLine(t);
    }
    ConcatLineCount(Diagnoses(record), DiagnosisLine);
  }

  /** The number of deduction entries the nested loop visits: those of every item with
      truthy `deductions`. */
  function DeductionCount(items: seq<Value>): nat {
    if items == [] then 0 else DeductionCount(items[..|items| - 1]) + |DeductionEntries(items[|items| - 1])|
  }

  /** The deduction values shown in a breakup line hold no line feed. */
  predicate DeductionShowsOneLine(x: Value) {
    OneLine(Show(Prop(x, "deductedamount"))) && OneLine(Show(Prop(x, "deductiondescription")))
  }

  /** One item writes one line per deduction entry. */
  lemma DeductionItemLines(d: Value)
    requires forall x <- DeductionEntries(d) :: DeductionShowsOneLine(x)
    ensures Count(DeductionLines(d), '\n') == |DeductionEntries(d)|
  {
    forall x <- DeductionEntries(d)
      ensures Count(DeductionLine(x), '\n') == 1
    {
      var t := DeductionLine(x);
      assert t[..|t| - 1] == Show(Prop(x, "deductedamount")) + Gap + Show(Prop(x, "deductiondescription"));
      TerminatedLine(t);
    }
    ConcatLineCount(DeductionEntries(d), DeductionLine);
  }

  /** The "Deduction Breakup" text has one line per deduction entry of every item whose
      `deductions` is truthy, when the values its lines show hold no line feed. */
  lemma {:induction false} DeductionBreakupLines(items: seq<Value>)
    requires forall d <- items :: forall x <- DeductionEntries(d) :: DeductionShowsOneLine(x)
    ensures Count(Concat(items, DeductionLines), '\n') == DeductionCount(items)
  {
    if items != [] {
      var init := items[..|items| - 1];
      var last := items[|items| - 1];
      assert forall d <- init :: d in items;
      DeductionBreakupLines(init);
      DeductionItemLines(last);
      CountAppend(Concat(init, DeductionLines), DeductionLines(last), '\n');
    }
  }

  /** The "Deduction Breakup" cell, the last of the row, counts one line per deduction entry. */
  lemma DeductionBreakupCell(record: Value, ops: FloatOps)
    requires WellFormed(record)
    requires forall d <- CalculatedAmounts(record) :: forall x <- DeductionEntries(d) :: DeductionShowsOneLine(x)
    ensures PatientCells(record, ops)[27].Str?
    ensures Count(PatientCells(record, ops)[27].s, '\n') == DeductionCount(CalculatedAmounts(record))
    ensures PatientsHeader[27] == "Deduction Breakup"
  {
    DeductionBreakupLines(CalculatedAmounts(record));
  }

  // ---------------------------------------------------------------- the table, row by row

  /** The row of each kept record, for any way `row` of writing one. */
  function KeptMap(records: seq<Value>, row: Value -> seq<string>): (table: seq<seq<string>>)
    ensures |table| == |KeptRecords(records)|
  {
    if records == [] then []
    else
      var last := records[|records| - 1];
      KeptMap(records[..|records| - 1], row) + (if Kept(last) then [row(last)] else [])
  }

  /** Line `i` of such a table is the row of the `i`-th kept record. */
  lemma {:induction false} KeptMapRows(records: seq<Value>, row: Value -> seq<string>)
    ensures forall i :: 0 <= i < |KeptMap(records, row)| ==> KeptMap(records, row)[i] == row(KeptRecords(records)[i])
  {
    if records != [] {
      var init := records[..|records| - 1];
      KeptMapRows(init, row);
      var table, kept := KeptMap(records, row), KeptRecords(records);
      if Kept(records[|records| - 1]) {
        forall i | 0 <= i < |table|
          ensures table[i] == row(kept[i])
        {
          if i < |KeptMap(init, row)| {
            assert table[i] == KeptMap(init, row)[i] && kept[i] == KeptRecords(init)[i];
          }
        }
      }
    }
  }

  /** The cell texts of a well-formed record; nothing for any other. */
  function RowTexts(ops: FloatOps): Value -> seq<string> {
    r => if WellFormed(r) then CellTexts(PatientCells(r, ops)) else []
  }

  /** The table of cell texts writes each kept record with `RowTexts`. */
  lemma {:induction false} KeptTableIsKeptMap(records: seq<Value>, ops: FloatOps)
    requires Convertible(records)
    ensures KeptTable(records, ops) == KeptMap(records, RowTexts(ops))
  {
    if records != [] {
      var init := records[..|records| - 1];
      assert forall r <- init :: r in records;
      KeptTableIsKeptMap(init, ops);
    }
  }

  /** Every kept record of a convertible input is well formed. */
  lemma KeptRecordsWellFormed(records: seq<Value>)
    requires Convertible(records)
    ensures forall i :: 0 <= i < |KeptRecords(records)| ==> WellFormed(KeptRecords(records)[i])
  {
    KeptRecordsFromInput(records);
  }

  /** Line `i` of the table is the cell texts of the `i`-th kept record. */
  lemma KeptTableRows(records: seq<Value>, ops: FloatOps)
    requires Convertible(records)
    ensures forall i :: 0 <= i < |KeptRecords(records)| ==> WellFormed(KeptRecords(records)[i])
    ensures forall i :: 0 <= i < |KeptTable(records, ops)| ==>
      KeptTable(records, ops)[i] == CellTexts(PatientCells(KeptRecords(records)[i], ops))
  {
    KeptRecordsWellFormed(records);
    KeptTableIsKeptMap(records, ops);
    KeptMapRows(records, RowTexts(ops));
  }

  /** A kept record with empty contact, address and treatment lists and text dates is
      converted without a TypeError. */
  lemma SmallestConvertibleRecord(caseNumber: string)
    requires caseNumber != ""
    ensures var encounter := Obj(map["patientcontacts" := Arr([]), "patientaddress" := Arr([])]);
      var claim := Obj(map["casenumber" := Str(caseNumber), "encounter" := encounter, "treatments" := Arr([]),
        "dischargedate" := Str(""), "admissiondate" := Str("")]);
      Kept(Obj(map["claim" := claim])) && WellFormed(Obj(map["claim" := claim]))
  {
  }
}
