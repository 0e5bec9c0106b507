/**
  * Row processing of `src/utils/excelProcessor.ts`: resolving a logical column
  * against its alias list, classifying a row as skipped, invalid or valid,
  * building the lead of a valid row, and the batch loop that sorts every row
  * into `validLeads`, `errors` or `skippedRows`.
  *
  * A decoded row maps header strings to cells. Cells keep JavaScript's
  * truthiness visible: `''`, the number 0 and `null` are falsy.
  */
module ExcelProcessor {
  import opened Base
  import opened Text
  import opened Seqs
  import opened Leads

  /** A spreadsheet cell as the decoder hands it over. */
  datatype Cell = Str(s: string) | Num(n: real) | Null

  type Row = map<string, Cell>

  /**
    * What the row processing takes from its surroundings: today's date (ISO
    * calendar date), how JavaScript renders a number as a string, `parseFloat`,
    * and `new Date(v).toISOString().split('T')[0]`, which throws on a date it
    * cannot represent.
    */
  datatype Env = Env(
    today: string,
    showNumber: real -> string,
    parseFloat: string -> JsNumber,
    toIsoDate: Cell -> Result<string>)

  // The alias lists of COLUMN_MAPPINGS, in their listed order.
  const DateAliases: seq<string> := ["Dato", "Date", "dato"]
  const CompanyAliases: seq<string> := ["Firmanavn", "Company", "firmanavn", "Firma"]
  const OrgNumberAliases: seq<string> :=
    ["Org.nr", "Org nr", "Organization Number", "org.nr", "org nr", "Orgnr", "orgnr"]
  const StatusAliases: seq<string> := ["Status", "status"]
  const SourceAliases: seq<string> := ["Kanal", "Channel", "Source", "kanal", "channel", "source"]
  const SellerAliases: seq<string> :=
    ["Ansvarlig selger", "Responsible Seller", "Seller", "ansvarlig selger", "seller"]
  const ContactAliases: seq<string> :=
    ["Kontaktperson", "Contact Person", "Contact", "kontaktperson", "contact"]
  const ExistingCustomerAliases: seq<string> :=
    ["Eksisterende kunde", "Existing Customer", "eksisterende kunde", "existing customer"]
  const KwpAliases: seq<string> := ["kWp", "KWP", "kwp"]
  const PpaPriceAliases: seq<string> := ["PPA pris", "PPA Price", "ppa pris", "ppa price"]

  /** Every alias of a required column. */
  const RequiredAliases: seq<string> := CompanyAliases + OrgNumberAliases + StatusAliases

  const DefaultSource := "Nettside"
  const DefaultSeller := "Unknown"

  /**
    * `String(cell).trim() === ''`, stated as "every character is whitespace"
    * (see `BlankCellTrims`). JavaScript renders every number with a digit or a
    * letter, never blank.
    */
  predicate BlankCell(c: Cell) {
    match c
    case Str(s) => AllSpace(s)
    case Num(_) => false
    case Null => true
  }

  lemma BlankCellTrims(s: string)
    ensures BlankCell(Str(s)) <==> Trim(s) == ""
  {
    TrimBlank(s);
  }

  /** The test `findColumnValue` applies to one alias: present, not null, not blank. */
  predicate Qualifies(row: Row, name: string) {
    name in row && row[name] != Null && !BlankCell(row[name])
  }

  /**
    * `findColumnValue`: the cell of the first alias, in list order, that
    * qualifies; `None` (the source's `null`) when none does. Keys are compared
    * by exact equality only.
    */
  function Resolve(row: Row, names: seq<string>): Option<Cell>
    decreases |names|
  {
    if names == [] then None
    else if Qualifies(row, names[0]) then Some(row[names[0]])
    else Resolve(row, names[1..])
  }

  /** Alias `i` is the first in the list that qualifies. */
  predicate FirstQualifying(row: Row, names: seq<string>, i: int) {
    0 <= i < |names| && Qualifies(row, names[i]) && forall j :: 0 <= j < i ==> !Qualifies(row, names[j])
  }

  /**
    * Resolution finds nothing exactly when no alias qualifies, and otherwise
    * returns the cell of the first alias that qualifies.
    */
  lemma {:induction false} ResolveFindsFirst(row: Row, names: seq<string>)
    ensures Resolve(row, names).None? <==> forall i :: 0 <= i < |names| ==> !Qualifies(row, names[i])
    ensures Resolve(row, names).Some? ==>
      exists i :: FirstQualifying(row, names, i) && Resolve(row, names).value == row[names[i]]
    decreases |names|
  {
    if names != [] && !Qualifies(row, names[0]) {
      ResolveFindsFirst(row, names[1..]);
      assert forall i :: 1 <= i < |names| ==> names[1..][i - 1] == names[i];
      var r := Resolve(row, names);
      if r.Some? {
        var i :| FirstQualifying(row, names[1..], i) && r.value == row[names[1..][i]];
        forall j | 0 <= j < i + 1 ensures !Qualifies(row, names[j]) {
          if j > 0 { assert names[j] == names[1..][j - 1]; }
        }
        assert FirstQualifying(row, names, i + 1);
      }
    } else if names != [] {
      assert FirstQualifying(row, names, 0);
    }
  }

  /** Resolution looks only at the keys in the alias list: rows that agree there resolve alike. */
  lemma {:induction false} ResolveLocal(r1: Row, r2: Row, names: seq<string>)
    requires forall i :: 0 <= i < |names| ==> (names[i] in r1 <==> names[i] in r2)
    requires forall i :: 0 <= i < |names| && names[i] in r1 ==> r1[names[i]] == r2[names[i]]
    ensures Resolve(r1, names) == Resolve(r2, names)
    decreases |names|
  {
    if names != [] {
      assert forall i :: 0 <= i < |names| - 1 ==> names[1..][i] == names[i + 1];
      ResolveLocal(r1, r2, names[1..]);
    }
  }

  /** A header that is not one of the aliases, such as one differing from an alias only by case, never changes the resolved value. */
  lemma ResolveIgnoresOtherKeys(row: Row, names: seq<string>, key: string, c: Cell)
    requires key !in names
    ensures Resolve(row[key := c], names) == Resolve(row, names)
  {
    ResolveLocal(row[key := c], row, names);
  }

  /** The loop of `findColumnValue`, with its early return. */
  method FindColumnValue(row: Row, names: seq<string>) returns (r: Option<Cell>)
    ensures r == Resolve(row, names)
  {
    for i := 0 to |names|
      invariant Resolve(row, names[i..]) == Resolve(row, names)
    {
      var name := names[i];
      if name in row && row[name] != Null && !BlankCell(row[name]) {
        return Some(row[name]);
      }
      assert names[i..][1..] == names[i + 1..];
    }
    assert names[|names|..] == [];
    return None;
  }

  /** JavaScript truthiness of a resolved value. */
  predicate Truthy(v: Option<Cell>) {
    match v
    case None => false
    case Some(Str(s)) => s != ""
    case Some(Num(n)) => n != 0.0
    case Some(Null) => false
  }

  /** `Boolean(v && String(v).trim())`. */
  predicate Present(v: Option<Cell>) {
    Truthy(v) && !BlankCell(v.value)
  }

  /** Every logical column of a row, resolved against its aliases. */
  datatype Columns = Columns(
    date: Option<Cell>,
    company: Option<Cell>,
    orgNumber: Option<Cell>,
    status: Option<Cell>,
    source: Option<Cell>,
    seller: Option<Cell>,
    contact: Option<Cell>,
    existingCustomer: Option<Cell>,
    kwp: Option<Cell>,
    ppaPrice: Option<Cell>)

  function ColumnsOf(row: Row): Columns {
    Columns(
      Resolve(row, DateAliases), Resolve(row, CompanyAliases), Resolve(row, OrgNumberAliases),
      Resolve(row, StatusAliases), Resolve(row, SourceAliases), Resolve(row, SellerAliases),
      Resolve(row, ContactAliases), Resolve(row, ExistingCustomerAliases), Resolve(row, KwpAliases),
      Resolve(row, PpaPriceAliases))
  }

  /** A resolved value is never blank, so for it being present and being truthy coincide. */
  lemma PresentIsTruthy(row: Row, names: seq<string>)
    ensures Present(Resolve(row, names)) == Truthy(Resolve(row, names))
  {
    ResolveFindsFirst(row, names);
  }

  /** The three required fields, in the order the error message lists them. */
  datatype RequiredField = RequiredCompany | RequiredOrgNumber | RequiredStatus {
    function Of(c: Columns): Option<Cell> {
      match this
      case RequiredCompany => c.company
      case RequiredOrgNumber => c.orgNumber
      case RequiredStatus => c.status
    }
    function Label(): string {
      match this
      case RequiredCompany => "Company/Firmanavn"
      case RequiredOrgNumber => "Org.nr"
      case RequiredStatus => "Status"
    }
  }

  const RequiredFields: seq<RequiredField> := [RequiredCompany, RequiredOrgNumber, RequiredStatus]

  /** `isRowEmpty`: company, org number and status all resolve to nothing truthy. */
  predicate IsRowEmpty(c: Columns) {
    !Truthy(c.company) && !Truthy(c.orgNumber) && !Truthy(c.status)
  }

  /** `hasRequiredFields`: company, org number and status are all present. */
  predicate HasRequiredFields(c: Columns) {
    Present(c.company) && Present(c.orgNumber) && Present(c.status)
  }

  /** The labels of the fields of `fs` that are not present in `c`, in the order of `fs`. */
  function MissingFrom(fs: seq<RequiredField>, c: Columns): seq<string> {
    if fs == [] then []
    else (if Present(fs[0].Of(c)) then [] else [fs[0].Label()]) + MissingFrom(fs[1..], c)
  }

  /** The labels of the required fields that are not present, in the fixed order. */
  function MissingLabels(c: Columns): seq<string> {
    MissingFrom(RequiredFields, c)
  }

  /** The visual row number: one for the header, one because the index counts from zero. */
  function RowLabel(rowIndex: nat): string {
    "Row " + NatToString(rowIndex + 2)
  }

  function MissingFieldsError(rowIndex: nat, missing: seq<string>): string {
    RowLabel(rowIndex) + ": Missing required fields: " + Join(missing, ", ")
  }

  function ProcessingError(rowIndex: nat, detail: string): string {
    RowLabel(rowIndex) + ": Error processing data - " + detail
  }

  /** `String(cell)`. */
  function CellText(c: Cell, env: Env): string {
    match c
    case Str(s) => s
    case Num(n) => env.showNumber(n)
    case Null => "null"
  }

  /** `v ? String(v).trim() : fallback`. */
  function TextOr(v: Option<Cell>, fallback: string, env: Env): string {
    if Truthy(v) then Trim(CellText(v.value, env)) else fallback
  }

  /** `v ? String(v).trim() : undefined`. */
  function OptionalText(v: Option<Cell>, env: Env): Option<string> {
    if Truthy(v) then Some(Trim(CellText(v.value, env))) else None
  }

  /** `v ? parseFloat(String(v)) : undefined`. */
  function OptionalNumber(v: Option<Cell>, env: Env): Option<JsNumber> {
    if Truthy(v) then Some(env.parseFloat(CellText(v.value, env))) else None
  }

  /** `v ? String(v).toLowerCase().trim() === 'ja' : false`. */
  function IsYes(v: Option<Cell>, env: Env): bool {
    Truthy(v) && Trim(ToLower(CellText(v.value, env))) == "ja"
  }

  /** The date column converted to an ISO date; today's date when it resolves to nothing truthy. */
  function LeadDate(c: Columns, env: Env): Result<string> {
    if Truthy(c.date) then env.toIsoDate(c.date.value) else Ok(env.today)
  }

  /** The lead literal of `mapExcelRowToLead`. */
  function BuildLead(c: Columns, date: string, env: Env): Lead {
    Lead(
      None,
      date,
      Trim(CellText(c.company.GetOr(Null), env)),
      Trim(CellText(c.orgNumber.GetOr(Null), env)),
      Trim(CellText(c.status.GetOr(Null), env)),
      TextOr(c.source, DefaultSource, env),
      TextOr(c.seller, DefaultSeller, env),
      OptionalText(c.contact, env),
      Some(IsYes(c.existingCustomer, env)),
      OptionalNumber(c.kwp, env),
      OptionalNumber(c.ppaPrice, env),
      None,
      None)
  }

  /** What `mapExcelRowToLead` returns: `{}`, `{ error }` or `{ lead }`. */
  datatype RowOutcome = Skipped | Invalid(error: string) | Valid(lead: Lead)

  /** The outcome of a row whose columns resolve to `c`, with index `rowIndex` counted from zero. */
  function Classify(c: Columns, rowIndex: nat, env: Env): RowOutcome {
    if IsRowEmpty(c) then Skipped
    else if !HasRequiredFields(c) then Invalid(MissingFieldsError(rowIndex, MissingLabels(c)))
    else
      match LeadDate(c, env)
      case Err(detail) => Invalid(ProcessingError(rowIndex, detail))
      case Ok(date) => Valid(BuildLead(c, date, env))
  }

  function RowResult(row: Row, rowIndex: nat, env: Env): RowOutcome {
    Classify(ColumnsOf(row), rowIndex, env)
  }

  /** `mapExcelRowToLead`, building the list of missing fields with `push`. */
  method MapExcelRowToLead(row: Row, rowIndex: nat, env: Env) returns (outcome: RowOutcome)
    ensures outcome == RowResult(row, rowIndex, env)
  {
    var company := FindColumnValue(row, CompanyAliases);
    var orgNumber := FindColumnValue(row, OrgNumberAliases);
    var status := FindColumnValue(row, StatusAliases);
    var date := FindColumnValue(row, DateAliases);
    var source := FindColumnValue(row, SourceAliases);
    var seller := FindColumnValue(row, SellerAliases);
    var contact := FindColumnValue(row, ContactAliases);
    var existing := FindColumnValue(row, ExistingCustomerAliases);
    var kwp := FindColumnValue(row, KwpAliases);
    var ppaPrice := FindColumnValue(row, PpaPriceAliases);
    var c := Columns(date, company, orgNumber, status, source, seller, contact, existing, kwp, ppaPrice);
    assert c == ColumnsOf(row);
    outcome := MapColumns(c, rowIndex, env);
  }

  /** The body of `mapExcelRowToLead` once the columns are resolved. */
  method MapColumns(c: Columns, rowIndex: nat, env: Env) returns (outcome: RowOutcome)
    ensures outcome == Classify(c, rowIndex, env)
  {
    if !Truthy(c.company) && !Truthy(c.orgNumber) && !Truthy(c.status) {
      return Skipped;
    }
    if !(Present(c.company) && Present(c.orgNumber) && Present(c.status)) {
      var missing: seq<string> := [];
      if !Present(c.company) { missing := missing + ["Company/Firmanavn"]; }
      if !Present(c.orgNumber) { missing := missing + ["Org.nr"]; }
      if !Present(c.status) { missing := missing + ["Status"]; }
      MissingLabelsUnfold(c);
      assert missing == MissingLabels(c);
      return Invalid(MissingFieldsError(rowIndex, missing));
    }
    var date := if Truthy(c.date) then env.toIsoDate(c.date.value) else Ok(env.today);
    if date.Err? {
      return Invalid(ProcessingError(rowIndex, date.message));
    }
    outcome := Valid(BuildLead(c, date.value, env));
  }

  /** The missing-field list spelled out: one optional label per required field, in order. */
  lemma MissingLabelsUnfold(c: Columns)
    ensures MissingLabels(c) ==
      (if !Present(c.company) then ["Company/Firmanavn"] else []) +
      (if !Present(c.orgNumber) then ["Org.nr"] else []) +
      (if !Present(c.status) then ["Status"] else [])
  {
    var fs := RequiredFields;
    assert fs[1..][1..][1..] == [];
    assert MissingFrom(fs[2..], c) == (if Present(c.status) then [] else ["Status"]) + MissingFrom(fs[3..], c);
    assert MissingFrom(fs[1..], c) == (if Present(c.orgNumber) then [] else ["Org.nr"]) + MissingFrom(fs[2..], c);
  }

  /** A row is skipped exactly when none of company, org number and status resolves to a truthy value. */
  lemma SkippedIff(c: Columns, rowIndex: nat, env: Env)
    ensures Classify(c, rowIndex, env).Skipped? <==> forall f :: f in RequiredFields ==> !Truthy(f.Of(c))
  {
    assert RequiredFields[0] == RequiredCompany && RequiredFields[1] == RequiredOrgNumber;
    assert RequiredFields[2] == RequiredStatus;
    assert RequiredCompany in RequiredFields && RequiredOrgNumber in RequiredFields && RequiredStatus in RequiredFields;
  }

  /** Whether a row is skipped, and the error for missing fields, depend on the three required columns only. */
  lemma ClassifyDependsOnRequired(c1: Columns, c2: Columns, index: nat, env: Env)
    requires c1.company == c2.company && c1.orgNumber == c2.orgNumber && c1.status == c2.status
    ensures Classify(c1, index, env).Skipped? == Classify(c2, index, env).Skipped?
    ensures HasRequiredFields(c1) == HasRequiredFields(c2)
    ensures !HasRequiredFields(c1) ==> Classify(c1, index, env) == Classify(c2, index, env)
  {
    MissingLabelsUnfold(c1);
    MissingLabelsUnfold(c2);
  }

  /** Keys outside the company, org number and status aliases cannot make a row skipped or invalid for missing fields. */
  lemma ClassificationIgnoresOtherColumns(r1: Row, r2: Row, index: nat, env: Env)
    requires forall k :: k in RequiredAliases ==> (k in r1 <==> k in r2) && (k in r1 ==> r1[k] == r2[k])
    ensures RowResult(r1, index, env).Skipped? == RowResult(r2, index, env).Skipped?
    ensures !HasRequiredFields(ColumnsOf(r1)) ==> RowResult(r1, index, env) == RowResult(r2, index, env)
  {
    forall i | 0 <= i < |CompanyAliases| ensures CompanyAliases[i] in RequiredAliases {
      assert RequiredAliases[i] == CompanyAliases[i];
    }
    forall i | 0 <= i < |OrgNumberAliases| ensures OrgNumberAliases[i] in RequiredAliases {
      assert RequiredAliases[|CompanyAliases| + i] == OrgNumberAliases[i];
    }
    forall i | 0 <= i < |StatusAliases| ensures StatusAliases[i] in RequiredAliases {
      assert RequiredAliases[|CompanyAliases| + |OrgNumberAliases| + i] == StatusAliases[i];
    }
    ResolveLocal(r1, r2, CompanyAliases);
    ResolveLocal(r1, r2, OrgNumberAliases);
    ResolveLocal(r1, r2, StatusAliases);
    ClassifyDependsOnRequired(ColumnsOf(r1), ColumnsOf(r2), index, env);
  }

  /**
    * A row that is not skipped but lacks a required field yields exactly one
    * error and no lead; the message names exactly the missing fields, in the
    * order company, org number, status. Stated for the columns `c` a row
    * resolves to (`RowResult(row, i, env) == Classify(ColumnsOf(row), i, env)`).
    */
  lemma MissingFieldsReported(c: Columns, rowIndex: nat, env: Env)
    requires !IsRowEmpty(c) && !HasRequiredFields(c)
    ensures Classify(c, rowIndex, env) ==
      Invalid(RowLabel(rowIndex) + ": Missing required fields: " + Join(MissingLabels(c), ", "))
    ensures forall f :: f in RequiredFields ==> (f.Label() in MissingLabels(c) <==> !Present(f.Of(c)))
    ensures MissingLabels(c) != []
    ensures IsSubsequence(MissingLabels(c), ["Company/Firmanavn", "Org.nr", "Status"])
  {
    MissingLabelsExact(c);
    MissingSubsequence(c);
  }

  /** A label is listed exactly when its field is missing, and an incomplete row lists at least one. */
  lemma MissingLabelsExact(c: Columns)
    ensures forall f :: f in RequiredFields ==> (f.Label() in MissingLabels(c) <==> !Present(f.Of(c)))
    ensures !HasRequiredFields(c) ==> MissingLabels(c) != []
  {
    MissingLabelsUnfold(c);
    forall f | f in RequiredFields ensures f.Label() in MissingLabels(c) <==> !Present(f.Of(c)) {
      var a: seq<string> := if !Present(c.company) then ["Company/Firmanavn"] else [];
      var b: seq<string> := if !Present(c.orgNumber) then ["Org.nr"] else [];
      var d: seq<string> := if !Present(c.status) then ["Status"] else [];
      assert MissingLabels(c) == a + b + d;
      assert f.Label() in a + b + d <==> f.Label() in a || f.Label() in b || f.Label() in d;
    }
  }

  /** The missing labels are a subsequence of the three labels in their fixed order. */
  lemma MissingSubsequence(c: Columns)
    ensures IsSubsequence(MissingLabels(c), ["Company/Firmanavn", "Org.nr", "Status"])
  {
    MissingLabelsUnfold(c);
    var s := ["Company/Firmanavn", "Org.nr", "Status"];
    assert s[1..] == ["Org.nr", "Status"] && s[1..][1..] == ["Status"];
  }

  /**
    * The lead of a valid row: company, org number and status are the trimmed
    * resolved cells; source and seller fall back to their defaults; contact, kWp
    * and PPA price stay undefined when unresolved; existing customer holds
    * exactly when the cell reads 'ja'; the id is left to the store.
    */
  lemma ValidLeadFields(c: Columns, rowIndex: nat, env: Env)
    requires Classify(c, rowIndex, env).Valid?
    ensures var lead := Classify(c, rowIndex, env).lead;
      && HasRequiredFields(c)
      && lead.id.None?
      && lead.company == Trim(CellText(c.company.value, env))
      && lead.org_number == Trim(CellText(c.orgNumber.value, env))
      && lead.status == Trim(CellText(c.status.value, env))
      && (lead.source == if Truthy(c.source) then Trim(CellText(c.source.value, env)) else "Nettside")
      && (lead.seller == if Truthy(c.seller) then Trim(CellText(c.seller.value, env)) else "Unknown")
      && (lead.contact.None? <==> !Truthy(c.contact))
      && (lead.kwp.None? <==> !Truthy(c.kwp))
      && (lead.ppa_price.None? <==> !Truthy(c.ppaPrice))
      && (lead.is_existing_customer == Some(true) <==>
            Truthy(c.existingCustomer) && Trim(ToLower(CellText(c.existingCustomer.value, env))) == "ja")
      && lead.is_existing_customer.Some?
  {
  }

  /**
    * The company, text or number, reaches the lead trimmed and non-empty,
    * given that a numeric company is not rendered blank (`String(n)` never is).
    */
  lemma ValidCompanyNonEmpty(c: Columns, rowIndex: nat, env: Env)
    requires Classify(c, rowIndex, env).Valid?
    requires c.company.Some? && c.company.value.Num? ==> !AllSpace(env.showNumber(c.company.value.n))
    ensures Classify(c, rowIndex, env).lead.company != ""
    ensures Classify(c, rowIndex, env).lead.company == Trim(Classify(c, rowIndex, env).lead.company)
  {
    var s := CellText(c.company.value, env);
    TrimBlank(s);
    TrimIdempotent(s);
  }

  /** A complete row without a truthy date gets today's date. */
  lemma MissingDateIsToday(c: Columns, rowIndex: nat, env: Env)
    requires !IsRowEmpty(c) && HasRequiredFields(c) && !Truthy(c.date)
    ensures Classify(c, rowIndex, env) == Valid(BuildLead(c, env.today, env))
    ensures Classify(c, rowIndex, env).lead.date == env.today
  {
  }

  /** A date that cannot be converted makes the row an error; it is not defaulted. */
  lemma BadDateIsError(c: Columns, rowIndex: nat, env: Env)
    requires !IsRowEmpty(c) && HasRequiredFields(c)
    requires Truthy(c.date) && env.toIsoDate(c.date.value).Err?
    ensures Classify(c, rowIndex, env) ==
      Invalid(RowLabel(rowIndex) + ": Error processing data - " + env.toIsoDate(c.date.value).message)
  {
  }

  /** The aggregate `processExcelFile` resolves with. */
  datatype ImportResult = ImportResult(validLeads: seq<Lead>, errors: seq<string>, totalRows: nat, skippedRows: nat)

  /** The outcome of every row, in input order. */
  function RowOutcomes(rows: seq<Row>, env: Env): (outs: seq<RowOutcome>)
    ensures |outs| == |rows| && forall i :: 0 <= i < |rows| ==> outs[i] == RowResult(rows[i], i, env)
  {
    seq(|rows|, i requires 0 <= i < |rows| => RowResult(rows[i], i, env))
  }

  /** One more row: its lead or its error is appended, or it is counted as skipped. */
  function Absorb(r: ImportResult, o: RowOutcome): ImportResult {
    match o
    case Valid(lead) => r.(validLeads := r.validLeads + [lead], totalRows := r.totalRows + 1)
    case Invalid(e) => r.(errors := r.errors + [e], totalRows := r.totalRows + 1)
    case Skipped => r.(skippedRows := r.skippedRows + 1, totalRows := r.totalRows + 1)
  }

  /** What the `forEach` accumulates over a list of outcomes, in order. */
  function Collect(outs: seq<RowOutcome>): (r: ImportResult)
    ensures r.totalRows == |outs|
    decreases |outs|
  {
    if outs == [] then ImportResult([], [], 0, 0)
    else Absorb(Collect(outs[..|outs| - 1]), outs[|outs| - 1])
  }

  /** The aggregate of a decoded sheet. */
  function BatchResult(rows: seq<Row>, env: Env): ImportResult {
    Collect(RowOutcomes(rows, env))
  }

  predicate IsValidOutcome(o: RowOutcome) { o.Valid? }
  predicate IsInvalidOutcome(o: RowOutcome) { o.Invalid? }
  predicate IsSkippedOutcome(o: RowOutcome) { o.Skipped? }

  /**
    * Every row lands in exactly one of `validLeads`, `errors` and
    * `skippedRows`: each count is the number of rows with that outcome, and
    * together they make up `totalRows`.
    */
  lemma {:induction false} CollectCounts(outs: seq<RowOutcome>)
    ensures var r := Collect(outs);
      && |r.validLeads| == Count(outs, IsValidOutcome)
      && |r.errors| == Count(outs, IsInvalidOutcome)
      && r.skippedRows == Count(outs, IsSkippedOutcome)
      && |r.validLeads| + |r.errors| + r.skippedRows == r.totalRows
    decreases |outs|
  {
    if outs != [] {
      var init := outs[..|outs| - 1];
      var last := outs[|outs| - 1];
      assert outs == init + [last];
      CollectCounts(init);
      CountAppend(init, [last], IsValidOutcome);
      CountAppend(init, [last], IsInvalidOutcome);
      CountAppend(init, [last], IsSkippedOutcome);
      assert [last][1..] == [];
    }
  }

  /** Appending one more outcome extends exactly one of the three lists. */
  lemma CollectSnoc(outs: seq<RowOutcome>, o: RowOutcome)
    ensures var r := Collect(outs); var r' := Collect(outs + [o]);
      r' == match o
        case Valid(lead) => r.(validLeads := r.validLeads + [lead], totalRows := |outs| + 1)
        case Invalid(e) => r.(errors := r.errors + [e], totalRows := |outs| + 1)
        case Skipped => r.(skippedRows := r.skippedRows + 1, totalRows := |outs| + 1)
  {
    assert (outs + [o])[..|outs|] == outs;
  }

  lemma CollectPrefix(outs: seq<RowOutcome>, n: nat)
    requires n < |outs|
    ensures Collect(outs[..n + 1]) == Absorb(Collect(outs[..n]), outs[n])
  {
    assert outs[..n + 1][..n] == outs[..n];
  }

  /** The batch loop of `processExcelFile`, over the decoded rows. */
  method ProcessRows(rows: seq<Row>, env: Env) returns (result: ImportResult)
    ensures result == BatchResult(rows, env)
    ensures result.totalRows == |rows|
    ensures |result.validLeads| + |result.errors| + result.skippedRows == |rows|
  {
    var validLeads: seq<Lead> := [];
    var errors: seq<string> := [];
    var skippedRows: nat := 0;
    ghost var outs := RowOutcomes(rows, env);
    for index := 0 to |rows|
      invariant Collect(outs[..index]) == ImportResult(validLeads, errors, index, skippedRows)
    {
      var outcome := MapExcelRowToLead(rows[index], index, env);
      assert outcome == outs[index];
      CollectPrefix(outs, index);
      match outcome {
        case Valid(lead) => validLeads := validLeads + [lead];
        case Invalid(e) => errors := errors + [e];
        case Skipped => skippedRows := skippedRows + 1;
      }
    }
    assert outs[..|rows|] == outs;
    result := ImportResult(validLeads, errors, |rows|, skippedRows);
    CollectCounts(outs);
  }

  /** What the file reader delivers to the row processing. */
  datatype FileInput = ReadFailed | DecodeFailed(detail: string) | Decoded(rows: seq<Row>)

  /** `processExcelFile`: a read or decode failure gives no leads, one error and zero counts. */
  method ProcessExcelFile(input: FileInput, env: Env) returns (result: ImportResult)
    ensures input.Decoded? ==> result == BatchResult(input.rows, env)
    ensures input.ReadFailed? ==> result == ImportResult([], ["Failed to read file"], 0, 0)
    ensures input.DecodeFailed? ==>
      result == ImportResult([], ["Failed to process Excel file: " + input.detail], 0, 0)
    ensures input.Decoded? ==> |result.validLeads| + |result.errors| + result.skippedRows == result.totalRows
  {
    match input {
      case ReadFailed =>
        result := ImportResult([], ["Failed to read file"], 0, 0);
      case DecodeFailed(detail) =>
        result := ImportResult([], ["Failed to process Excel file: " + detail], 0, 0);
      case Decoded(rows) =>
        result := ProcessRows(rows, env);
    }
  }
}
