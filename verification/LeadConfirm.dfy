/** Confirming a previewed import, and what a second preview of the same file then finds. */
module LeadConfirm {
  import opened Common
  import opened LeadImport

  /** The lead table and the running tallies of one confirmation. */
  datatype Tally = Tally(leads: seq<Lead>, nextId: nat, created: nat, updated: nat, skipped: nat, createdIds: seq<nat>)

  function IndexOf(leads: seq<Lead>, id: nat): (i: Option<nat>)
    ensures i.Some? ==> i.value < |leads| && leads[i.value].id == id
    ensures i.None? ==> forall k :: 0 <= k < |leads| ==> leads[k].id != id
  {
    if leads == [] then None
    else if leads[|leads| - 1].id == id then Some(|leads| - 1)
    else IndexOf(leads[..|leads| - 1], id)
  }

  predicate Offers(d: Data, f: Field) {
    f in d.fields && d.fields[f] != []
  }

  /** New values overwrite only where there is one; the do-not-contact flag is only ever raised. */
  function Overlaid(d: Data, incoming: Data): Data {
    d.(fields := map f | f in d.fields.Keys + incoming.fields.Keys && (f in d.fields || Offers(incoming, f)) ::
                   if Offers(incoming, f) then incoming.fields[f] else d.fields[f],
       doNotContact := d.doNotContact || incoming.doNotContact)
  }

  function Skipped(t: Tally): Tally {
    t.(skipped := t.skipped + 1)
  }

  function Created(t: Tally, d: Data, batch: nat): Tally {
    t.(leads := t.leads + [Lead(t.nextId, d, Some(batch))], nextId := t.nextId + 1, created := t.created + 1,
       createdIds := t.createdIds + [t.nextId])
  }

  function Updated(t: Tally, i: nat, d: Data, batch: nat): Tally
    requires i < |t.leads|
  {
    t.(leads := t.leads[i := t.leads[i].(data := Overlaid(t.leads[i].data, d), batch := Some(batch))],
       updated := t.updated + 1)
  }

  function ConfirmRow(t: Tally, r: Row, skip: set<int>, strategy: Strategy, batch: nat): Tally {
    if r.number in skip || r.status == Invalid then Skipped(t)
    else if r.status == Duplicate && strategy == SkipDuplicates then Skipped(t)
    else if r.status == Duplicate && strategy == UpdateExisting && r.existing.Some? then
      var i := IndexOf(t.leads, r.existing.value);
      if i.None? then Skipped(t) else Updated(t, i.value, r.data, batch)
    else Created(t, r.data, batch)
  }

  function ConfirmAll(t: Tally, rows: seq<Row>, skip: set<int>, strategy: Strategy, batch: nat): Tally {
    if rows == [] then t
    else ConfirmRow(ConfirmAll(t, rows[..|rows| - 1], skip, strategy, batch), rows[|rows| - 1], skip, strategy, batch)
  }

  class LeadTable {
    var leads: seq<Lead>
    var nextId: nat

    method ApplyConfirm(rows: seq<Row>, skip: set<int>, strategy: Strategy, batch: nat)
      returns (created: nat, updated: nat, skipped: nat, createdIds: seq<nat>)
      modifies this
      ensures Tally(leads, nextId, created, updated, skipped, createdIds)
              == ConfirmAll(Tally(old(leads), old(nextId), 0, 0, 0, []), rows, skip, strategy, batch)
    {
      created, updated, skipped, createdIds := 0, 0, 0, [];
      ghost var start := Tally(leads, nextId, 0, 0, 0, []);
      for n := 0 to |rows|
        invariant Tally(leads, nextId, created, updated, skipped, createdIds)
                  == ConfirmAll(start, rows[..n], skip, strategy, batch)
      {
        assert rows[..n + 1][..n] == rows[..n];
        var row := rows[n];
        if row.number in skip || row.status == Invalid {
          skipped := skipped + 1;
          continue;
        }
        if row.status == Duplicate {
          if strategy == SkipDuplicates {
            skipped := skipped + 1;
            continue;
          }
          if strategy == UpdateExisting && row.existing.Some? {
            var i := IndexOf(leads, row.existing.value);
            if i.None? {
              skipped := skipped + 1;
              continue;
            }
            var lead := leads[i.value];
            leads := leads[i.value := lead.(data := Overlaid(lead.data, row.data), batch := Some(batch))];
            updated := updated + 1;
            continue;
          }
        }
        leads := leads + [Lead(nextId, row.data, Some(batch))];
        createdIds := createdIds + [nextId];
        nextId := nextId + 1;
        created := created + 1;
      }
      assert rows[..|rows|] == rows;
    }
  }

  // ---- every confirmation ----

  /** Every row is counted once, and the table grows by exactly the created leads. */
  lemma {:induction false} CountsAddUp(t: Tally, rows: seq<Row>, skip: set<int>, strategy: Strategy, batch: nat)
    ensures var c := ConfirmAll(t, rows, skip, strategy, batch);
            && c.created + c.updated + c.skipped == t.created + t.updated + t.skipped + |rows|
            && |c.leads| == |t.leads| + (c.created - t.created)
            && c.created >= t.created
  {
    if rows != [] {
      CountsAddUp(t, rows[..|rows| - 1], skip, strategy, batch);
    }
  }

  /** What an import may do to a lead that is already stored. */
  predicate KeptLead(before: Lead, after: Lead) {
    && after.id == before.id
    && after.data.businessName == before.data.businessName
    && after.data.leadStatus == before.data.leadStatus
    && (before.data.doNotContact ==> after.data.doNotContact)
    && forall f :: Offers(before.data, f) ==> Offers(after.data, f)
  }

  /** No stored lead is removed, no value blanked and no do-not-contact flag cleared, under any strategy. */
  lemma {:induction false} StoredLeadsKept(t: Tally, rows: seq<Row>, skip: set<int>, strategy: Strategy, batch: nat, k: nat)
    requires k < |t.leads|
    ensures var c := ConfirmAll(t, rows, skip, strategy, batch);
            k < |c.leads| && KeptLead(t.leads[k], c.leads[k])
  {
    if rows != [] {
      StoredLeadsKept(t, rows[..|rows| - 1], skip, strategy, batch, k);
    }
  }

  // ---- confirming with "skip" ----

  function ValidIds(rows: seq<Row>): (ids: seq<nat>)
    ensures forall i: nat :: i in ids <==> i < |rows| && rows[i].status == Valid
    ensures forall j, k :: 0 <= j < k < |ids| ==> ids[j] < ids[k]
  {
    if rows == [] then []
    else
      var n := |rows| - 1;
      var front := ValidIds(rows[..n]);
      assert forall k :: 0 <= k < |front| ==> front[k] in front;
      if rows[n].status == Valid then front + [n] else front
  }

  /** Lead k of the table is the lead made from valid row ids[k]. */
  predicate MadeFrom(leads: seq<Lead>, rows: seq<Row>, ids: seq<nat>) {
    |leads| == |ids| && forall k :: 0 <= k < |ids| ==> ids[k] < |rows| && leads[k].data == rows[ids[k]].data
  }

  /** With the skip strategy and no row skipped by hand, exactly the valid rows are appended, in order. */
  lemma {:induction false} SkipAppendsValid(t: Tally, rows: seq<Row>, batch: nat)
    ensures var c := ConfirmAll(t, rows, {}, SkipDuplicates, batch);
            && |c.leads| >= |t.leads| && c.leads[..|t.leads|] == t.leads
            && MadeFrom(c.leads[|t.leads|..], rows, ValidIds(rows))
  {
    if rows != [] {
      var n := |rows| - 1;
      SkipAppendsValid(t, rows[..n], batch);
      SkipOneMore(t.leads, ConfirmAll(t, rows[..n], {}, SkipDuplicates, batch), rows, batch);
    }
  }

  lemma SkipOneMore(leads: seq<Lead>, before: Tally, rows: seq<Row>, batch: nat)
    requires rows != [] && |before.leads| >= |leads| && before.leads[..|leads|] == leads
    requires MadeFrom(before.leads[|leads|..], rows[..|rows| - 1], ValidIds(rows[..|rows| - 1]))
    ensures var after := ConfirmRow(before, rows[|rows| - 1], {}, SkipDuplicates, batch);
            && |after.leads| >= |leads| && after.leads[..|leads|] == leads
            && MadeFrom(after.leads[|leads|..], rows, ValidIds(rows))
  {
    var last := rows[|rows| - 1];
    if last.status == Valid {
      var made := Lead(before.nextId, last.data, Some(batch));
      assert (before.leads + [made])[|leads|..] == before.leads[|leads|..] + [made];
      assert (before.leads + [made])[..|leads|] == before.leads[..|leads|];
    }
  }

  // ---- what the marking guarantees ----

  /** A nonempty question to the table. */
  predicate Asked(q: Query) {
    match q
    case ByEmail(email) => email != []
    case ByNameCity(name, city) => name != [] && city != []
  }

  function EmailQuery(lower: string -> string, d: Data): Query {
    ByEmail(EmailKey(lower, d))
  }

  function NameQuery(lower: string -> string, d: Data): Query {
    ByNameCity(NameKey(lower, d), CityKey(lower, d))
  }

  predicate MatchesLead(lower: string -> string, l: Lead, d: Data) {
    || (Asked(EmailQuery(lower, d)) && Answers(lower, l, EmailQuery(lower, d)))
    || (Asked(NameQuery(lower, d)) && Answers(lower, l, NameQuery(lower, d)))
  }

  lemma NotFoundIff(lower: string -> string, leads: seq<Lead>, d: Data)
    requires Existing(lower, leads, d).Ok?
    ensures Existing(lower, leads, d).value.None? <==> forall k :: 0 <= k < |leads| ==> !MatchesLead(lower, leads[k], d)
  {
  }

  /** After the marking, the valid rows clash with each other nowhere. */
  lemma ValidRowsApart(lower: string -> string, leads: seq<Lead>, rows: seq<Row>, marked: seq<Row>, j: nat, k: nat)
    requires Marked(lower, leads, rows, marked) && j < |marked| && k < |marked| && j != k
    requires marked[j].status == Valid && marked[k].status == Valid
    ensures !Clash(lower, marked[j].data, marked[k].data)
  {
    ApartInOrder(lower, leads, rows, marked, if j < k then j else k, if j < k then k else j);
  }

  lemma ApartInOrder(lower: string -> string, leads: seq<Lead>, rows: seq<Row>, marked: seq<Row>, j: nat, k: nat)
    requires Marked(lower, leads, rows, marked) && j < k < |marked|
    requires marked[j].status == Valid && marked[k].status == Valid
    ensures !Clash(lower, marked[j].data, marked[k].data)
  {
    assert Decided(lower, leads, rows, marked, k);
    assert ClashesBefore(lower, marked, k, rows[k].data) || !KeptClash(lower, marked[j], rows[k].data);
  }

  /** After the marking, no valid row matches a stored lead. */
  lemma ValidRowsNew(lower: string -> string, leads: seq<Lead>, rows: seq<Row>, marked: seq<Row>, k: nat, l: nat)
    requires Marked(lower, leads, rows, marked) && k < |marked| && l < |leads|
    requires marked[k].status == Valid
    ensures !MatchesLead(lower, leads[l], marked[k].data)
  {
    assert Decided(lower, leads, rows, marked, k);
    NotFoundIff(lower, leads, rows[k].data);
  }

  // ---- uniqueness of the table ----

  predicate BothAnswer(lower: string -> string, l: Lead, m: Lead, q: Query) {
    Answers(lower, l, q) && Answers(lower, m, q)
  }

  /** No two stored leads share a nonempty email, or a nonempty name and city. */
  ghost predicate UniqueLeads(lower: string -> string, leads: seq<Lead>) {
    forall q, j, k :: Asked(q) && 0 <= j < k < |leads| ==> !BothAnswer(lower, leads[j], leads[k], q)
  }

  lemma {:induction false} OneHit(lower: string -> string, leads: seq<Lead>, q: Query)
    requires UniqueLeads(lower, leads) && Asked(q)
    ensures |Hits(lower, leads, q)| <= 1
  {
    if leads != [] {
      var n := |leads| - 1;
      assert UniqueLeads(lower, leads[..n]) by {
        forall p, j, k | Asked(p) && 0 <= j < k < n ensures !BothAnswer(lower, leads[..n][j], leads[..n][k], p) {
          assert !BothAnswer(lower, leads[j], leads[k], p);
        }
      }
      OneHit(lower, leads[..n], q);
      if Answers(lower, leads[n], q) {
        forall j | 0 <= j < n ensures !Answers(lower, leads[..n][j], q) {
          assert !BothAnswer(lower, leads[j], leads[n], q);
        }
      }
    }
  }

  /** Over a unique table a preview never raises. */
  lemma UniqueNeverRaises(lower: string -> string, leads: seq<Lead>, r: Row)
    requires UniqueLeads(lower, leads)
    ensures !LookupRaises(lower, leads, r)
  {
    if Asked(EmailQuery(lower, r.data)) {
      OneHit(lower, leads, EmailQuery(lower, r.data));
    }
    if Asked(NameQuery(lower, r.data)) {
      OneHit(lower, leads, NameQuery(lower, r.data));
    }
  }

  /** A lead made from row data answers a nonempty question exactly when it is the row's own question. */
  lemma LeadAnswersOwn(lower: string -> string, l: Lead, q: Query)
    requires lower([]) == [] && Asked(q)
    ensures Answers(lower, l, q) <==> q == EmailQuery(lower, l.data) || q == NameQuery(lower, l.data)
  {
  }

  lemma SharedQuestionClash(lower: string -> string, d: Data, e: Data, q: Query)
    requires Asked(q) && (q == EmailQuery(lower, d) || q == NameQuery(lower, d))
    requires q == EmailQuery(lower, e) || q == NameQuery(lower, e)
    ensures Clash(lower, d, e)
  {
  }

  predicate FromFile(rows: seq<Row>) {
    forall k :: 0 <= k < |rows| ==> rows[k].status != Duplicate
  }

  function Imported(leads: seq<Lead>, nextId: nat, marked: seq<Row>, batch: nat): seq<Lead> {
    ConfirmAll(Tally(leads, nextId, 0, 0, 0, []), marked, {}, SkipDuplicates, batch).leads
  }

  /** A lead of the imported table is an old lead or comes from a row that was previewed as valid. */
  lemma ImportedLead(leads: seq<Lead>, nextId: nat, marked: seq<Row>, batch: nat, k: nat) returns (i: nat)
    requires k < |Imported(leads, nextId, marked, batch)|
    ensures |Imported(leads, nextId, marked, batch)| >= |leads|
    ensures k < |leads| ==> Imported(leads, nextId, marked, batch)[k] == leads[k]
    ensures k >= |leads| ==>
              && i < |marked| && marked[i].status == Valid
              && k - |leads| < |ValidIds(marked)| && i == ValidIds(marked)[k - |leads|]
              && Imported(leads, nextId, marked, batch)[k].data == marked[i].data
  {
    SkipAppendsValid(Tally(leads, nextId, 0, 0, 0, []), marked, batch);
    var after := Imported(leads, nextId, marked, batch);
    if k < |leads| {
      assert after[k] == after[..|leads|][k];
      i := 0;
    } else {
      assert after[k] == after[|leads|..][k - |leads|];
      i := ValidIds(marked)[k - |leads|];
      assert i in ValidIds(marked);
    }
  }

  /** An import keeps the table unique. */
  lemma ImportKeepsUnique(lower: string -> string, leads: seq<Lead>, rows: seq<Row>, marked: seq<Row>, nextId: nat, batch: nat)
    requires lower([]) == [] && UniqueLeads(lower, leads) && Marked(lower, leads, rows, marked)
    ensures UniqueLeads(lower, Imported(leads, nextId, marked, batch))
  {
    var after := Imported(leads, nextId, marked, batch);
    forall q, j, k | Asked(q) && 0 <= j < k < |after| ensures !BothAnswer(lower, after[j], after[k], q) {
      var x := ImportedLead(leads, nextId, marked, batch, j);
      var y := ImportedLead(leads, nextId, marked, batch, k);
      LeadAnswersOwn(lower, after[j], q);
      LeadAnswersOwn(lower, after[k], q);
      if k < |leads| {
        assert !BothAnswer(lower, leads[j], leads[k], q);
      } else if j < |leads| {
        ValidRowsNew(lower, leads, rows, marked, y, j);
      } else {
        ValidRowsApart(lower, leads, rows, marked, x, y);
        if BothAnswer(lower, after[j], after[k], q) {
          SharedQuestionClash(lower, marked[x].data, marked[y].data, q);
        }
      }
    }
  }

  // ---- previewing the same file again ----

  predicate EmailStored(lower: string -> string, leads: seq<Lead>, email: string) {
    exists k :: 0 <= k < |leads| && Answers(lower, leads[k], ByEmail(email))
  }

  predicate EmailImported(lower: string -> string, marked: seq<Row>, email: string) {
    exists k :: 0 <= k < |marked| && marked[k].status == Valid && EmailKey(lower, marked[k].data) == email
  }

  /** Nothing of the row can be found in the table after the import. */
  predicate Lost(lower: string -> string, leads: seq<Lead>, marked: seq<Row>, d: Data) {
    && CityKey(lower, d) == []
    && (EmailKey(lower, d) != [] ==>
          !EmailStored(lower, leads, EmailKey(lower, d)) && !EmailImported(lower, marked, EmailKey(lower, d)))
  }

  lemma StoredStays(lower: string -> string, leads: seq<Lead>, nextId: nat, marked: seq<Row>, batch: nat, d: Data, k: nat)
    requires k < |leads| && MatchesLead(lower, leads[k], d)
    ensures exists l :: 0 <= l < |Imported(leads, nextId, marked, batch)|
                        && MatchesLead(lower, Imported(leads, nextId, marked, batch)[l], d)
  {
    SkipAppendsValid(Tally(leads, nextId, 0, 0, 0, []), marked, batch);
    assert Imported(leads, nextId, marked, batch)[k] == Imported(leads, nextId, marked, batch)[..|leads|][k];
    assert MatchesLead(lower, Imported(leads, nextId, marked, batch)[k], d);
  }

  /** A valid row's lead is in the table afterwards and answers every row that shares its email or its name and city. */
  lemma ImportedFound(lower: string -> string, leads: seq<Lead>, nextId: nat, marked: seq<Row>, batch: nat, d: Data,
                      i: nat, q: Query)
    requires lower([]) == [] && i < |marked| && marked[i].status == Valid && Asked(q)
    requires q == EmailQuery(lower, d) || q == NameQuery(lower, d)
    requires q == EmailQuery(lower, marked[i].data) || q == NameQuery(lower, marked[i].data)
    ensures exists l :: 0 <= l < |Imported(leads, nextId, marked, batch)|
                        && MatchesLead(lower, Imported(leads, nextId, marked, batch)[l], d)
  {
    SkipAppendsValid(Tally(leads, nextId, 0, 0, 0, []), marked, batch);
    var after := Imported(leads, nextId, marked, batch);
    assert i in ValidIds(marked);
    var n :| 0 <= n < |ValidIds(marked)| && ValidIds(marked)[n] == i;
    assert after[|leads|..][n] == after[|leads| + n];
    LeadAnswersOwn(lower, after[|leads| + n], q);
    assert MatchesLead(lower, after[|leads| + n], d);
  }

  lemma NotLostFound(lower: string -> string, leads: seq<Lead>, rows: seq<Row>, marked: seq<Row>, nextId: nat, batch: nat, k: nat)
    requires lower([]) == [] && Marked(lower, leads, rows, marked) && FromFile(rows)
    requires k < |rows| && rows[k].status == Valid && NameKey(lower, rows[k].data) != []
    requires !Lost(lower, leads, marked, rows[k].data)
    ensures exists l :: 0 <= l < |Imported(leads, nextId, marked, batch)|
                        && MatchesLead(lower, Imported(leads, nextId, marked, batch)[l], rows[k].data)
  {
    var d := rows[k].data;
    assert Decided(lower, leads, rows, marked, k);
    if CityKey(lower, d) == [] {
      if EmailStored(lower, leads, EmailKey(lower, d)) {
        var l :| 0 <= l < |leads| && Answers(lower, leads[l], ByEmail(EmailKey(lower, d)));
        StoredStays(lower, leads, nextId, marked, batch, d, l);
      } else {
        var i :| 0 <= i < |marked| && marked[i].status == Valid && EmailKey(lower, marked[i].data) == EmailKey(lower, d);
        ImportedFound(lower, leads, nextId, marked, batch, d, i, EmailQuery(lower, d));
      }
    } else if marked[k].status == Valid {
      ImportedFound(lower, leads, nextId, marked, batch, d, k, NameQuery(lower, d));
    } else if ClashesBefore(lower, marked, k, d) {
      var j :| 0 <= j < k && KeptClash(lower, marked[j], d);
      var byEmail := EmailKey(lower, d) != [] && EmailKey(lower, marked[j].data) == EmailKey(lower, d);
      ImportedFound(lower, leads, nextId, marked, batch, d, j, if byEmail then EmailQuery(lower, d) else NameQuery(lower, d));
    } else {
      NotFoundIff(lower, leads, d);
      var l :| 0 <= l < |leads| && MatchesLead(lower, leads[l], d);
      StoredStays(lower, leads, nextId, marked, batch, d, l);
    }
  }

  lemma LostNotFound(lower: string -> string, leads: seq<Lead>, marked: seq<Row>, nextId: nat, batch: nat, d: Data, k: nat)
    requires lower([]) == [] && Lost(lower, leads, marked, d) && k < |Imported(leads, nextId, marked, batch)|
    ensures !MatchesLead(lower, Imported(leads, nextId, marked, batch)[k], d)
  {
    var after := Imported(leads, nextId, marked, batch);
    var i := ImportedLead(leads, nextId, marked, batch, k);
    if MatchesLead(lower, after[k], d) {
      LeadAnswersOwn(lower, after[k], EmailQuery(lower, d));
      if k < |leads| {
        assert EmailStored(lower, leads, EmailKey(lower, d));
      } else {
        assert EmailImported(lower, marked, EmailKey(lower, d));
      }
      assert false;
    }
  }

  predicate NoneValid(rows: seq<Row>) {
    forall k :: 0 <= k < |rows| ==> rows[k].status != Valid
  }

  /**
   * After confirming with "skip" and no row skipped by hand, previewing the same file again finds no
   * valid row exactly when no row that passed validation lacks both a city and a findable email.
   */
  lemma SecondPreviewIff(lower: string -> string, leads: seq<Lead>, rows: seq<Row>, marked: seq<Row>, again: seq<Row>,
                         nextId: nat, batch: nat)
    requires lower([]) == [] && FromFile(rows)
    requires forall k :: 0 <= k < |rows| && rows[k].status == Valid ==> NameKey(lower, rows[k].data) != []
    requires Marked(lower, leads, rows, marked)
    requires Marked(lower, Imported(leads, nextId, marked, batch), rows, again)
    ensures NoneValid(again) <==>
            forall k :: 0 <= k < |rows| && rows[k].status == Valid ==> !Lost(lower, leads, marked, rows[k].data)
  {
    var after := Imported(leads, nextId, marked, batch);
    if k :| 0 <= k < |rows| && rows[k].status == Valid && Lost(lower, leads, marked, rows[k].data) {
      LostStaysValid(lower, leads, rows, marked, again, nextId, batch, k);
    } else {
      forall k | 0 <= k < |again| ensures again[k].status != Valid {
        if rows[k].status == Valid {
          NotLostFound(lower, leads, rows, marked, nextId, batch, k);
        }
        FoundNotValid(lower, after, rows, again, k);
      }
    }
  }

  lemma FoundNotValid(lower: string -> string, leads: seq<Lead>, rows: seq<Row>, again: seq<Row>, k: nat)
    requires Marked(lower, leads, rows, again) && k < |rows|
    requires rows[k].status == Valid ==> exists l :: 0 <= l < |leads| && MatchesLead(lower, leads[l], rows[k].data)
    ensures again[k].status != Valid
  {
    assert Decided(lower, leads, rows, again, k);
    if rows[k].status == Valid && !ClashesBefore(lower, again, k, rows[k].data) {
      NotFoundIff(lower, leads, rows[k].data);
    }
  }

  lemma LostStaysValid(lower: string -> string, leads: seq<Lead>, rows: seq<Row>, marked: seq<Row>, again: seq<Row>,
                       nextId: nat, batch: nat, k: nat)
    requires lower([]) == [] && k < |rows| && rows[k].status == Valid && Lost(lower, leads, marked, rows[k].data)
    requires Marked(lower, Imported(leads, nextId, marked, batch), rows, again)
    ensures !NoneValid(again)
  {
    var after := Imported(leads, nextId, marked, batch);
    var d := rows[k].data;
    assert Decided(lower, after, rows, again, k);
    if ClashesBefore(lower, again, k, d) {
      var j :| 0 <= j < k && KeptClash(lower, again[j], d);
    } else {
      forall l | 0 <= l < |after| ensures !MatchesLead(lower, after[l], d) {
        LostNotFound(lower, leads, marked, nextId, batch, d, l);
      }
      NotFoundIff(lower, after, d);
    }
  }

  /** A file whose every row has a city imports once and for all, and over a unique table the second preview does not raise. */
  lemma CitiesImportOnce(lower: string -> string, leads: seq<Lead>, rows: seq<Row>, marked: seq<Row>, again: seq<Row>,
                         nextId: nat, batch: nat)
    requires lower([]) == [] && FromFile(rows) && UniqueLeads(lower, leads)
    requires forall k :: 0 <= k < |rows| && rows[k].status == Valid ==>
               NameKey(lower, rows[k].data) != [] && CityKey(lower, rows[k].data) != []
    requires Marked(lower, leads, rows, marked)
    ensures forall k :: 0 <= k < |rows| ==> !LookupRaises(lower, Imported(leads, nextId, marked, batch), rows[k])
    ensures Marked(lower, Imported(leads, nextId, marked, batch), rows, again) ==> NoneValid(again)
  {
    ImportKeepsUnique(lower, leads, rows, marked, nextId, batch);
    forall k | 0 <= k < |rows| ensures !LookupRaises(lower, Imported(leads, nextId, marked, batch), rows[k]) {
      UniqueNeverRaises(lower, Imported(leads, nextId, marked, batch), rows[k]);
    }
    if Marked(lower, Imported(leads, nextId, marked, batch), rows, again) {
      SecondPreviewIff(lower, leads, rows, marked, again, nextId, batch);
    }
  }
}
