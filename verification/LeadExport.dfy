/**
 The paged CSV export of a workspace's leads, over a table that does not change
 while it runs.
 */
module LeadExport {
  import opened Wrappers
  import opened Csv

  // Ids and creation times matter only through their order; a null field is absent.
  datatype Lead = Lead(id: nat, createdAt: nat, fields: map<string, string>)

  const HEADERS: seq<string> := [
    "id", "businessName", "contactName", "email", "phone", "website", "city", "category", "score", "stage",
    "sourceTag", "notes", "aiSummary", "outreachAngle", "createdAt", "updatedAt"]

  const PAGE := 500
  const MAX := 50000

  function Row(l: Lead, headers: seq<string>): (row: seq<string>)
    ensures |row| == |headers|
  {
    seq(|headers|, i requires 0 <= i < |headers| => if headers[i] in l.fields then l.fields[headers[i]] else "")
  }

  function Rows(leads: seq<Lead>, headers: seq<string>): (rows: seq<seq<string>>)
    ensures |rows| == |leads|
  {
    seq(|leads|, i requires 0 <= i < |leads| => Row(leads[i], headers))
  }

  // ---- The order of the rows ----------------------------------------------------------------

  // createdAt descending, then id descending.
  predicate Before(a: Lead, b: Lead) {
    a.createdAt > b.createdAt || (a.createdAt == b.createdAt && a.id > b.id)
  }

  predicate Ordered(leads: seq<Lead>) {
    forall i, j :: 0 <= i < j < |leads| ==> Before(leads[i], leads[j])
  }

  predicate DistinctIds(leads: seq<Lead>) {
    forall i, j :: 0 <= i < j < |leads| ==> leads[i].id != leads[j].id
  }

  function Place(l: Lead, leads: seq<Lead>): (placed: seq<Lead>)
    ensures |placed| == |leads| + 1
  {
    if leads == [] || Before(l, leads[0]) then [l] + leads else [leads[0]] + Place(l, leads[1..])
  }

  // The table as ORDER BY lists it.
  function InOrder(table: seq<Lead>): (all: seq<Lead>)
    ensures |all| == |table|
  {
    if table == [] then [] else Place(table[0], InOrder(table[1..]))
  }

  lemma {:induction false} PlaceOrders(l: Lead, leads: seq<Lead>)
    requires Ordered(leads) && forall i :: 0 <= i < |leads| ==> leads[i].id != l.id
    ensures multiset(Place(l, leads)) == multiset(leads) + multiset{l}
    ensures Ordered(Place(l, leads))
  {
    if leads == [] || Before(l, leads[0]) {
    } else {
      var rest := Place(l, leads[1..]);
      PlaceOrders(l, leads[1..]);
      assert leads == [leads[0]] + leads[1..];
      forall j | 0 <= j < |rest| ensures Before(leads[0], rest[j]) {
        assert rest[j] in multiset(rest);
        assert rest[j] == l || rest[j] in leads[1..];
      }
    }
  }

  // Whatever order the table is stored in, it is listed in (createdAt, id) descending
  // order, with no row lost or repeated.
  lemma {:induction false} ListingIsOrdered(table: seq<Lead>)
    requires DistinctIds(table)
    ensures multiset(InOrder(table)) == multiset(table) && Ordered(InOrder(table))
  {
    if table != [] {
      var rest := InOrder(table[1..]);
      ListingIsOrdered(table[1..]);
      assert table == [table[0]] + table[1..];
      forall i | 0 <= i < |rest| ensures rest[i].id != table[0].id {
        assert rest[i] in multiset(rest);
      }
      PlaceOrders(table[0], rest);
    }
  }

  // ---- One page -----------------------------------------------------------------------------

  function Min(a: nat, b: nat): nat {
    if a < b then a else b
  }

  // findMany with skip 1 and a cursor: the rows after the one with that id. A cursor
  // that names no row finds nothing.
  function After(all: seq<Lead>, id: nat): seq<Lead> {
    if all == [] then [] else if all[0].id == id then all[1..] else After(all[1..], id)
  }

  function Page(all: seq<Lead>, cursor: Option<nat>): seq<Lead> {
    var from := if cursor.Some? then After(all, cursor.value) else all;
    from[..Min(PAGE, |from|)]
  }

  lemma {:induction false} AfterSkips(all: seq<Lead>, k: nat)
    requires DistinctIds(all) && k < |all|
    ensures After(all, all[k].id) == all[k + 1..]
  {
    if k > 0 {
      AfterSkips(all[1..], k - 1);
    }
  }

  // The cursor left by the first `written` rows.
  function CursorAt(all: seq<Lead>, written: nat): Option<nat>
    requires written <= |all|
  {
    if written == 0 then None else Some(all[written - 1].id)
  }

  lemma PageContinues(all: seq<Lead>, written: nat)
    requires DistinctIds(all) && written <= |all|
    ensures Page(all, CursorAt(all, written)) == all[written..Min(written + PAGE, |all|)]
  {
    if written > 0 {
      AfterSkips(all, written - 1);
    }
  }

  // ---- The export ----------------------------------------------------------------------------

  lemma ListingHasDistinctIds(table: seq<Lead>)
    requires DistinctIds(table)
    ensures DistinctIds(InOrder(table))
  {
    var all := InOrder(table);
    ListingIsOrdered(table);
    forall i, j | 0 <= i < j < |all| ensures all[i].id != all[j].id {
      assert Before(all[i], all[j]) && !Before(all[i], all[i]);
      assert all[i] in multiset(all) && all[j] in multiset(all);
      assert all[i] in table && all[j] in table;
    }
  }

  // The header is joined as it is, so no column name may need quotes.
  predicate PrintPlainly(headers: seq<string>) {
    forall i :: 0 <= i < |headers| ==> !NeedsQuote(headers[i])
  }

  predicate Letters(s: string) {
    forall k :: 0 <= k < |s| ==> 'A' <= s[k] <= 'z'
  }

  lemma HeadersPrintPlainly()
    ensures PrintPlainly(HEADERS)
  {
    forall i | 0 <= i < |HEADERS| ensures !NeedsQuote(HEADERS[i]) {
      assert Letters(HEADERS[i]);
    }
  }

  // The text once the first n rows are out.
  function Text(all: seq<Lead>, n: nat, headers: seq<string>): string
    requires n <= |all|
  {
    Plain(headers) + "\n" + Lines(Rows(all, headers), n)
  }

  lemma TextGrows(all: seq<Lead>, n: nat, headers: seq<string>)
    requires n < |all|
    ensures Text(all, n + 1, headers) == Text(all, n, headers) + Line(Row(all[n], headers))
  {
  }

  // The rows of one page.
  method Write(text: string, batch: seq<Lead>, headers: seq<string>, ghost all: seq<Lead>, ghost n: nat)
    returns (longer: string)
    requires n + |batch| <= |all| && batch == all[n..n + |batch|]
    requires text == Text(all, n, headers)
    ensures longer == Text(all, n + |batch|, headers)
  {
    longer := text;
    for i := 0 to |batch|
      invariant longer == Text(all, n + i, headers)
    {
      TextGrows(all, n + i, headers);
      longer := longer + Line(Row(batch[i], headers));
    }
  }

  // The header, then page after page until one comes back short or MAX rows are out.
  method Export(table: seq<Lead>, headers: seq<string>) returns (text: string)
    requires DistinctIds(table)
    ensures text == Text(InOrder(table), Min(MAX, |table|), headers)
  {
    ListingHasDistinctIds(table);
    ListingIsOrdered(table);
    text := WritePages(InOrder(table), headers);
  }

  method WritePages(all: seq<Lead>, headers: seq<string>) returns (text: string)
    requires DistinctIds(all)
    ensures text == Text(all, Min(MAX, |all|), headers)
  {
    text := Plain(headers) + "\n";
    var cursor: Option<nat> := None;
    var totalWritten := 0;
    ghost var pages := 0;
    TextStarts(all, headers);
    while totalWritten < MAX
      invariant totalWritten == PAGE * pages && totalWritten <= Min(MAX, |all|)
      invariant cursor == CursorAt(all, totalWritten)
      invariant text == Text(all, totalWritten, headers)
      decreases |all| - totalWritten
    {
      var batch := Page(all, cursor);
      PageContinues(all, totalWritten);
      if |batch| == 0 { break; }
      text := Write(text, batch, headers, all, totalWritten);
      totalWritten := totalWritten + |batch|;
      cursor := Some(batch[|batch| - 1].id);
      if |batch| < PAGE { break; }
      pages := pages + 1;
    }
  }

  lemma TextStarts(all: seq<Lead>, headers: seq<string>)
    ensures Text(all, 0, headers) == Plain(headers) + "\n"
  {
  }

  // The exported text, read back, is the header and the first MAX leads by creation
  // time and id, no lead lost or repeated among them.
  lemma {:induction false} ExportReadsBack(table: seq<Lead>, headers: seq<string>)
    requires DistinctIds(table) && headers != [] && PrintPlainly(headers)
    ensures var all, n := InOrder(table), Min(MAX, |table|);
      && Parse(Text(all, n, headers)) == Some([headers] + Rows(all, headers)[..n])
      && Ordered(all) && multiset(all) == multiset(table)
  {
    ListingIsOrdered(table);
    TextReadsBack(InOrder(table), Min(MAX, |table|), headers);
  }

  lemma {:induction false} TextReadsBack(all: seq<Lead>, n: nat, headers: seq<string>)
    requires n <= |all| && headers != [] && PrintPlainly(headers)
    ensures Parse(Text(all, n, headers)) == Some([headers] + Rows(all, headers)[..n])
  {
    PlainIsJoined(headers);
    HeadedTextReadsBack(headers, Rows(all, headers), n);
  }

  // Read back, the cell of a lead's row under a column holds that field of the lead, or
  // nothing if the lead has no such field.
  lemma {:induction false} CellHoldsItsField(table: seq<Lead>, headers: seq<string>, r: nat, column: nat)
    requires DistinctIds(table) && headers != [] && PrintPlainly(headers)
    requires r < Min(MAX, |table|) && column < |headers|
    ensures var all := InOrder(table);
      var read := Parse(Text(all, Min(MAX, |table|), headers));
      && read.Some? && |read.value| == Min(MAX, |table|) + 1
      && |read.value[0]| == |read.value[r + 1]| == |headers|
      && var field := read.value[0][column];
         read.value[r + 1][column] == if field in all[r].fields then all[r].fields[field] else ""
  {
    ExportReadsBack(table, headers);
  }
}
