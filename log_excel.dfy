/** The lead log of the lead-intake product: a spreadsheet with a header row
    whose `lead_id` column is read to avoid logging a lead twice. The sheet
    is modelled as its sequence of rows of cell values; the file is present
    or not. */
module LeadLog {
  import opened Wrappers
  import opened Strings
  import opened Values
  import opened LeadContracts

  /** `HEADERS`. */
  const Headers: seq<string> := ["received_at", "lead_id", "from_address", "subject", "urgency", "status", "raw_ref"]

  type Row = seq<Value>

  function HeaderRow(): (r: Row)
    ensures |r| == |Headers| && forall i :: 0 <= i < |Headers| ==> r[i] == VStr(Headers[i])
  {
    seq(|Headers|, i requires 0 <= i < |Headers| => VStr(Headers[i]))
  }

  /** The rows once `ensure_workbook` has run: a missing file is created
      holding the header row alone, an existing one is kept as it is. */
  function Ensured(present: bool, rows: seq<Row>): seq<Row> {
    if present then rows else [HeaderRow()]
  }

  /** `row.index(v)`, or `None` when `v` is not in `row`. */
  function FirstIndex(row: Row, v: Value): (r: Option<nat>)
    ensures r.Some? ==> r.value < |row| && row[r.value] == v && v !in row[..r.value]
    ensures r.None? ==> v !in row
    decreases |row|
  {
    if row == [] then None
    else if row[0] == v then Some(0)
    else
      match FirstIndex(row[1..], v)
      case None => None
      case Some(k) =>
        assert row[..k + 1] == [row[0]] + row[1..][..k];
        Some(k + 1)
  }

  /** The `lead_id` column: where the header row first holds `"lead_id"`. */
  function IdColumn(rows: seq<Row>): Option<nat> {
    if rows == [] then None else FirstIndex(rows[0], VStr("lead_id"))
  }

  /** The id a row contributes: its cell in column `col`, stripped, when that
      is a string that is not blank. A row shorter than the sheet holds
      empty cells at its end. */
  function IdAt(row: Row, col: nat): Option<string> {
    if col < |row| && row[col].VStr? && Strip(row[col].s) != [] then Some(Strip(row[col].s)) else None
  }

  /** The ids of `rs`, read in column `col`. */
  function IdsIn(rs: seq<Row>, col: nat): set<string>
    decreases |rs|
  {
    if rs == [] then {}
    else
      var last := rs[|rs| - 1];
      IdsIn(rs[..|rs| - 1], col) + (if IdAt(last, col).Some? then {IdAt(last, col).value} else {})
  }

  /** What `get_existing_lead_ids` returns for a sheet holding `rows`. */
  function IdsOf(rows: seq<Row>): set<string> {
    match IdColumn(rows)
    case None => {}
    case Some(col) => IdsIn(rows[1..], col)
  }

  /** The row `append_lead` writes, in `HEADERS` order. */
  function LeadRow(lead: Lead, urgency: Urgency, status: string): Row {
    [VStr(lead.receivedAt), VStr(lead.leadId), VStr(lead.fromAddress), VStr(lead.subject),
     VStr(UrgencyValue(urgency)), VStr(status), VStr(lead.rawRef)]
  }

  /** The rows after `append_lead` on an ensured sheet. */
  function AfterAppend(rows: seq<Row>, lead: Lead, urgency: Urgency, status: string): seq<Row> {
    if lead.leadId in IdsOf(rows) then rows else rows + [LeadRow(lead, urgency, status)]
  }

  /** The workbook file at the log path. */
  class LeadWorkbook {
    var present: bool
    var rows: seq<Row>

    constructor (present: bool, rows: seq<Row>)
      ensures this.present == present && this.rows == rows
    {
      this.present := present;
      this.rows := rows;
    }

    /** `ensure_workbook(path)`. */
    method EnsureWorkbook()
      modifies this
      ensures present && rows == Ensured(old(present), old(rows))
    {
      if present {
        return;
      }
      rows := [HeaderRow()];
      present := true;
    }

    /** `get_existing_lead_ids(path)`. */
    method GetExistingLeadIds() returns (ids: set<string>)
      modifies this
      ensures present && rows == Ensured(old(present), old(rows))
      ensures ids == IdsOf(rows)
    {
      EnsureWorkbook();
      var col := IdColumn(rows);
      if col.None? {
        return {};
      }
      ids := {};
      var i := 1;
      while i < |rows|
        invariant 1 <= i <= |rows|
        invariant ids == IdsIn(rows[1..i], col.value)
      {
        assert rows[1..i + 1][..i - 1] == rows[1..i];
        var cell := IdAt(rows[i], col.value);
        if cell.Some? {
          ids := ids + {cell.value};
        }
        i := i + 1;
      }
      assert rows[1..i] == rows[1..];
    }

    /** `append_lead(path, lead, urgency, status)`. */
    method AppendLead(lead: Lead, urgency: Urgency, status: string) returns (added: bool)
      modifies this
      ensures present
      ensures added <==> lead.leadId !in IdsOf(Ensured(old(present), old(rows)))
      ensures rows == AfterAppend(Ensured(old(present), old(rows)), lead, urgency, status)
    {
      EnsureWorkbook();
      var existing := GetExistingLeadIds();
      if lead.leadId in existing {
        return false;
      }
      rows := rows + [LeadRow(lead, urgency, status)];
      return true;
    }
  }

  // ---------------------------------------------------------------------------
  // Properties
  // ---------------------------------------------------------------------------

  /** A new workbook's only row is the header row, whose `lead_id` column is
      the second, and it holds no ids. */
  lemma NewWorkbook()
    ensures Ensured(false, []) == [HeaderRow()]
    ensures IdColumn([HeaderRow()]) == Some(1)
    ensures IdsOf([HeaderRow()]) == {}
  {
    var h := HeaderRow();
    assert h[0] == VStr("received_at") && h[1] == VStr("lead_id");
    assert h[0] != VStr("lead_id");
    assert h[1..][0] == h[1];
  }

  lemma {:induction false} IdsInSpec(rs: seq<Row>, col: nat, x: string)
    ensures x in IdsIn(rs, col) <==> exists i :: 0 <= i < |rs| && IdAt(rs[i], col) == Some(x)
    decreases |rs|
  {
    if rs != [] {
      var init := rs[..|rs| - 1];
      IdsInSpec(init, col, x);
      assert forall i :: 0 <= i < |init| ==> init[i] == rs[i];
      if exists i :: 0 <= i < |rs| && IdAt(rs[i], col) == Some(x) {
        var i :| 0 <= i < |rs| && IdAt(rs[i], col) == Some(x);
        if i < |init| {
          assert IdAt(init[i], col) == Some(x);
        }
      }
    }
  }

  /** The existing ids are the stripped, non-blank string cells of the
      `lead_id` column below the header, and there are none when the header
      has no `lead_id` column. */
  lemma IdsOfSpec(rows: seq<Row>, x: string)
    ensures IdColumn(rows).None? ==> IdsOf(rows) == {}
    ensures IdColumn(rows).Some? ==>
      (x in IdsOf(rows) <==>
         exists i :: 1 <= i < |rows| && IdColumn(rows).value < |rows[i]|
           && rows[i][IdColumn(rows).value].VStr?
           && Strip(rows[i][IdColumn(rows).value].s) == x && x != [])
  {
    if IdColumn(rows).Some? {
      var col := IdColumn(rows).value;
      IdsInSpec(rows[1..], col, x);
      assert forall i :: 1 <= i < |rows| ==> rows[1..][i - 1] == rows[i];
      if exists i :: 1 <= i < |rows| && col < |rows[i]| && rows[i][col].VStr?
           && Strip(rows[i][col].s) == x && x != [] {
        var i :| 1 <= i < |rows| && col < |rows[i]| && rows[i][col].VStr?
                 && Strip(rows[i][col].s) == x && x != [];
        assert IdAt(rows[1..][i - 1], col) == Some(x);
      }
    }
  }

  /** A lead already logged is not logged again; any other lead adds
      exactly one row, in `HEADERS` order, and nothing else changes. */
  lemma AfterAppendSpec(rows: seq<Row>, lead: Lead, urgency: Urgency, status: string)
    ensures lead.leadId in IdsOf(rows) ==> AfterAppend(rows, lead, urgency, status) == rows
    ensures lead.leadId !in IdsOf(rows) ==>
      var r := AfterAppend(rows, lead, urgency, status);
      |r| == |rows| + 1 && r[..|rows|] == rows && |r[|rows|]| == |Headers|
      && r[|rows|][1] == VStr(lead.leadId) && r[|rows|][0] == VStr(lead.receivedAt)
      && r[|rows|][2] == VStr(lead.fromAddress) && r[|rows|][3] == VStr(lead.subject)
      && r[|rows|][4] == VStr(UrgencyValue(urgency)) && r[|rows|][5] == VStr(status)
      && r[|rows|][6] == VStr(lead.rawRef)
  {
    if lead.leadId !in IdsOf(rows) {
      var r := AfterAppend(rows, lead, urgency, status);
      assert r[..|rows|] == rows;
    }
  }

  /** The id of an appended row is read back. */
  lemma AppendedIdRead(rows: seq<Row>, lead: Lead, urgency: Urgency, status: string)
    requires IdColumn(rows) == Some(1)
    requires Strip(lead.leadId) == lead.leadId && lead.leadId != []
    ensures lead.leadId in IdsOf(AfterAppend(rows, lead, urgency, status))
  {
    var r := AfterAppend(rows, lead, urgency, status);
    if lead.leadId !in IdsOf(rows) {
      var row := LeadRow(lead, urgency, status);
      assert r[0] == rows[0];
      assert IdColumn(r) == Some(1);
      assert IdAt(row, 1) == Some(lead.leadId);
      IdsInSpec(r[1..], 1, lead.leadId);
      assert r[1..][|r| - 2] == row;
    }
  }

  /** Logging the same lead twice adds one row only, when the sheet's
      `lead_id` column is where `HEADERS` puts it and the id is non-blank
      with no surrounding whitespace, as a valid lead's id made by
      `make_lead` is. */
  lemma AppendTwice(rows: seq<Row>, lead: Lead, urgency: Urgency, status: string)
    requires IdColumn(rows) == Some(1)
    requires Strip(lead.leadId) == lead.leadId && lead.leadId != []
    ensures var once := AfterAppend(rows, lead, urgency, status);
      AfterAppend(once, lead, urgency, status) == once
      && |once| <= |rows| + 1
  {
    AppendedIdRead(rows, lead, urgency, status);
  }

  /** A stripped id with surrounding whitespace is not recognised: the log
      holds `Strip(id)` but the lookup uses the id as given. */
  lemma PaddedIdLoggedTwice(rows: seq<Row>, lead: Lead, urgency: Urgency, status: string)
    requires IdColumn(rows) == Some(1)
    requires Strip(lead.leadId) != lead.leadId
    requires lead.leadId !in IdsOf(rows)
    ensures var once := AfterAppend(rows, lead, urgency, status);
      AfterAppend(once, lead, urgency, status) == once + [LeadRow(lead, urgency, status)]
  {
    var once := AfterAppend(rows, lead, urgency, status);
    var row := LeadRow(lead, urgency, status);
    assert once == rows + [row];
    assert IdColumn(once) == Some(1) by { assert once[0] == rows[0]; }
    IdsOfSpec(once, lead.leadId);
    IdsOfSpec(rows, lead.leadId);
    assert forall i :: 1 <= i < |rows| ==> once[i] == rows[i];
    assert once[|rows|] == row;
  }
}
