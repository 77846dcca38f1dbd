/** Which stored lead a duplicate points to, and what confirming then overwrites and creates. */
module LeadUpdates {
  import opened Common
  import opened LeadImport
  import opened LeadConfirm

  // ---- lookups ----

  predicate Ascending(ks: seq<nat>) {
    forall a, b :: 0 <= a < b < |ks| ==> ks[a] < ks[b]
  }

  /** The ids a query returns are those of the leads at these places, which are all that answer it. */
  predicate HitsAt(lower: string -> string, leads: seq<Lead>, q: Query, ids: seq<nat>, ks: seq<nat>) {
    && |ks| == |ids| && Ascending(ks)
    && (forall j :: 0 <= j < |ks| ==> ks[j] < |leads| && Answers(lower, leads[ks[j]], q) && ids[j] == leads[ks[j]].id)
    && (forall k: nat :: k < |leads| && Answers(lower, leads[k], q) ==> k in ks)
  }

  lemma {:induction false} HitsPlaces(lower: string -> string, leads: seq<Lead>, q: Query) returns (ks: seq<nat>)
    ensures HitsAt(lower, leads, q, Hits(lower, leads, q), ks)
  {
    if leads == [] {
      ks := [];
    } else {
      var n := |leads| - 1;
      var front := HitsPlaces(lower, leads[..n], q);
      FrontPlaces(lower, leads, q, Hits(lower, leads[..n], q), front);
      if Answers(lower, leads[n], q) {
        ks := front + [n];
        LastPlace(lower, leads, q, Hits(lower, leads[..n], q), front);
      } else {
        ks := front;
      }
    }
  }

  /** The places found among all leads but the last. */
  predicate FrontHits(lower: string -> string, leads: seq<Lead>, q: Query, ids: seq<nat>, ks: seq<nat>) {
    && |ks| == |ids| && Ascending(ks) && leads != []
    && (forall j :: 0 <= j < |ks| ==>
          ks[j] < |leads| - 1 && Answers(lower, leads[ks[j]], q) && ids[j] == leads[ks[j]].id)
    && (forall k: nat :: k < |leads| - 1 && Answers(lower, leads[k], q) ==> k in ks)
  }

  lemma FrontPlaces(lower: string -> string, leads: seq<Lead>, q: Query, ids: seq<nat>, ks: seq<nat>)
    requires leads != [] && HitsAt(lower, leads[..|leads| - 1], q, ids, ks)
    ensures FrontHits(lower, leads, q, ids, ks)
    ensures !Answers(lower, leads[|leads| - 1], q) ==> HitsAt(lower, leads, q, ids, ks)
  {
    var n := |leads| - 1;
    assert forall j :: 0 <= j < |ks| ==> leads[..n][ks[j]] == leads[ks[j]];
    assert forall k: nat :: k < n ==> leads[..n][k] == leads[k];
  }

  lemma LastPlace(lower: string -> string, leads: seq<Lead>, q: Query, ids: seq<nat>, ks: seq<nat>)
    requires FrontHits(lower, leads, q, ids, ks) && Answers(lower, leads[|leads| - 1], q)
    ensures HitsAt(lower, leads, q, ids + [leads[|leads| - 1].id], ks + [|leads| - 1])
  {
    var n := |leads| - 1;
    forall k: nat | k < |leads| && Answers(lower, leads[k], q) ensures k in ks + [n] {
      assert k < n ==> k in ks;
    }
  }

  /** Exactly one stored lead answers, and this is its id. */
  predicate OnlyAnswer(lower: string -> string, leads: seq<Lead>, q: Query, k: nat) {
    k < |leads| && Answers(lower, leads[k], q) && forall j :: 0 <= j < |leads| && Answers(lower, leads[j], q) ==> j == k
  }

  /** A lookup raises exactly when two leads answer, finds nothing exactly when none does, and otherwise finds the one. */
  lemma LookupIs(lower: string -> string, leads: seq<Lead>, q: Query)
    ensures Lookup(lower, leads, q).Err? <==>
            exists j, k :: 0 <= j < k < |leads| && Answers(lower, leads[j], q) && Answers(lower, leads[k], q)
    ensures Lookup(lower, leads, q) == Ok(None) <==> forall k :: 0 <= k < |leads| ==> !Answers(lower, leads[k], q)
    ensures forall id :: Lookup(lower, leads, q) == Ok(Some(id)) ==>
              exists k: nat :: OnlyAnswer(lower, leads, q, k) && leads[k].id == id
  {
    var ids := Hits(lower, leads, q);
    var ks := HitsPlaces(lower, leads, q);
    if |ids| > 1 {
      assert ks[0] < ks[1] && Answers(lower, leads[ks[0]], q) && Answers(lower, leads[ks[1]], q);
    } else if |ids| == 1 {
      assert OnlyAnswer(lower, leads, q, ks[0]);
    }
  }

  // ---- where a duplicate points ----

  predicate SharesEmail(lower: string -> string, l: Lead, d: Data) {
    var email := lower(FieldOr(d, Email));
    email != [] && Email in l.data.fields && lower(l.data.fields[Email]) == email
  }

  predicate SharesNameCity(lower: string -> string, l: Lead, d: Data) {
    var name, city := lower(d.businessName), lower(FieldOr(d, City));
    name != [] && city != [] && lower(l.data.businessName) == name
    && City in l.data.fields && lower(l.data.fields[City]) == city
  }

  predicate PointsByEmail(lower: string -> string, leads: seq<Lead>, r: Row, l: nat) {
    l < |leads| && r.existing == Some(leads[l].id) && SharesEmail(lower, leads[l], r.data)
  }

  predicate PointsByName(lower: string -> string, leads: seq<Lead>, r: Row, l: nat) {
    l < |leads| && r.existing == Some(leads[l].id) && SharesNameCity(lower, leads[l], r.data)
  }

  /** A row that stayed valid has the nonempty email, or the nonempty name and the city, of these data. */
  predicate RepeatedBy(lower: string -> string, r: Row, d: Data) {
    && r.status == Valid
    && var email, name := lower(FieldOr(d, Email)), lower(d.businessName);
       || (email != [] && lower(FieldOr(r.data, Email)) == email)
       || (name != [] && lower(r.data.businessName) == name
           && lower(FieldOr(r.data, City)) == lower(FieldOr(d, City)))
  }

  /** A row as it comes from the file. */
  predicate Unmarked(r: Row) {
    r.status == Valid && r.cause == None && r.existing == None
  }

  /**
   * Why a valid row of the file was marked, and where it points: an email duplicate to a stored lead with its email, a
   * name duplicate to one with its name and city when no stored lead has its email, a duplicate within the file nowhere.
   * It is a duplicate within the file exactly when it repeats an earlier row that stayed valid.
   */
  lemma DuplicatePoints(lower: string -> string, leads: seq<Lead>, rows: seq<Row>, marked: seq<Row>, k: nat)
    requires Marked(lower, leads, rows, marked) && k < |rows| && Unmarked(rows[k])
    ensures var r := marked[k];
            && r.number == rows[k].number && r.data == rows[k].data
            && match r.cause
               case None => r.status == Valid && r.existing == None
               case Some(InBatch) =>
                 r.status == Duplicate && r.existing == None
               case Some(SameEmail) =>
                 r.status == Duplicate && exists l: nat :: PointsByEmail(lower, leads, r, l)
               case Some(SameNameCity) =>
                 r.status == Duplicate && (exists l: nat :: PointsByName(lower, leads, r, l))
                 && forall l :: 0 <= l < |leads| ==> !SharesEmail(lower, leads[l], r.data)
    ensures marked[k].cause == Some(InBatch) <==>
            exists j :: 0 <= j < k && RepeatedBy(lower, marked[j], marked[k].data)
  {
    assert Decided(lower, leads, rows, marked, k);
    ClashIsRepeat(lower, marked, k, rows[k].data);
    if !ClashesBefore(lower, marked, k, rows[k].data) {
      ExistingPoints(lower, leads, rows[k].data);
      var found := Existing(lower, leads, rows[k].data).value;
      if found.Some? && found.value.cause == SameEmail {
        var l: nat :| FoundByEmail(lower, leads, rows[k].data, found.value.id, l);
        assert PointsByEmail(lower, leads, marked[k], l);
      } else if found.Some? {
        var l: nat :| FoundByName(lower, leads, rows[k].data, found.value.id, l);
        assert PointsByName(lower, leads, marked[k], l);
      }
    }
  }

  lemma ClashIsRepeat(lower: string -> string, marked: seq<Row>, k: nat, d: Data)
    requires k <= |marked|
    ensures ClashesBefore(lower, marked, k, d) <==> exists j :: 0 <= j < k && RepeatedBy(lower, marked[j], d)
  {
    forall j | 0 <= j < k ensures KeptClash(lower, marked[j], d) <==> RepeatedBy(lower, marked[j], d) {
    }
  }

  predicate FoundByEmail(lower: string -> string, leads: seq<Lead>, d: Data, id: nat, l: nat) {
    l < |leads| && leads[l].id == id && SharesEmail(lower, leads[l], d)
  }

  predicate FoundByName(lower: string -> string, leads: seq<Lead>, d: Data, id: nat, l: nat) {
    l < |leads| && leads[l].id == id && SharesNameCity(lower, leads[l], d)
  }

  /** What a found lead has to do with the row. */
  ghost predicate PointsRightly(lower: string -> string, leads: seq<Lead>, d: Data, found: Found) {
    if found.cause == SameEmail then exists l: nat :: FoundByEmail(lower, leads, d, found.id, l)
    else
      && found.cause == SameNameCity && (exists l: nat :: FoundByName(lower, leads, d, found.id, l))
      && forall l :: 0 <= l < |leads| ==> !SharesEmail(lower, leads[l], d)
  }

  lemma ExistingPoints(lower: string -> string, leads: seq<Lead>, d: Data)
    ensures var r := Existing(lower, leads, d);
            r.Ok? && r.value.Some? ==> PointsRightly(lower, leads, d, r.value.value)
  {
    var email, names := EmailQuery(lower, d), NameQuery(lower, d);
    LookupIs(lower, leads, email);
    LookupIs(lower, leads, names);
    EmailAnswers(lower, leads, d);
    var r := Existing(lower, leads, d);
    if r.Ok? && r.value.Some? {
      var id := r.value.value.id;
      if r.value.value.cause == SameEmail {
        var l: nat :| OnlyAnswer(lower, leads, email, l) && leads[l].id == id;
        assert FoundByEmail(lower, leads, d, id, l);
      } else {
        var l: nat :| OnlyAnswer(lower, leads, names, l) && leads[l].id == id;
        assert FoundByName(lower, leads, d, id, l);
      }
    }
  }

  lemma EmailAnswers(lower: string -> string, leads: seq<Lead>, d: Data)
    ensures forall l :: 0 <= l < |leads| ==>
              (SharesEmail(lower, leads[l], d) <==>
               EmailKey(lower, d) != [] && Answers(lower, leads[l], EmailQuery(lower, d)))
  {
  }

  // ---- what confirming with "update" overwrites ----

  predicate DistinctLeads(leads: seq<Lead>, nextId: nat) {
    && (forall k :: 0 <= k < |leads| ==> leads[k].id < nextId)
    && forall j, k :: 0 <= j < k < |leads| ==> leads[j].id != leads[k].id
  }

  /** The row is to overwrite the lead with this id. */
  predicate Overwrites(r: Row, skip: set<int>, id: nat) {
    r.number !in skip && r.status == Duplicate && r.existing == Some(id)
  }

  /** The lead's data after the rows that overwrite it, in order. */
  function OverlaidBy(d: Data, rows: seq<Row>, skip: set<int>, id: nat): Data {
    if rows == [] then d
    else
      var before, last := OverlaidBy(d, rows[..|rows| - 1], skip, id), rows[|rows| - 1];
      if Overwrites(last, skip, id) then Overlaid(before, last.data) else before
  }

  /** Values and the do-not-contact flag after one overwriting: new where there is a new one, old otherwise. */
  lemma OverlaidIs(d: Data, incoming: Data, f: Field)
    ensures var after := Overlaid(d, incoming);
            && after.businessName == d.businessName && after.leadStatus == d.leadStatus
            && (after.doNotContact <==> d.doNotContact || incoming.doNotContact)
            && (f in incoming.fields && incoming.fields[f] != [] ==> f in after.fields && after.fields[f] == incoming.fields[f])
            && (f !in incoming.fields || incoming.fields[f] == [] ==>
                  (f in after.fields <==> f in d.fields) && (f in d.fields ==> after.fields[f] == d.fields[f]))
  {
  }

  /** The tallies' leads keep their places and ids, and new ones have new ids. */
  lemma {:induction false} IdsKept(t: Tally, rows: seq<Row>, skip: set<int>, strategy: Strategy, batch: nat)
    requires DistinctLeads(t.leads, t.nextId)
    ensures var c := ConfirmAll(t, rows, skip, strategy, batch);
            && DistinctLeads(c.leads, c.nextId) && |c.leads| >= |t.leads| && c.nextId >= t.nextId
            && (forall k :: 0 <= k < |t.leads| ==> c.leads[k].id == t.leads[k].id)
            && (forall k :: |t.leads| <= k < |c.leads| ==> c.leads[k].id >= t.nextId)
  {
    if rows != [] {
      IdsKept(t, rows[..|rows| - 1], skip, strategy, batch);
    }
  }

  lemma IndexIs(leads: seq<Lead>, nextId: nat, l: nat)
    requires DistinctLeads(leads, nextId) && l < |leads|
    ensures IndexOf(leads, leads[l].id) == Some(l)
  {
    var i := IndexOf(leads, leads[l].id);
    if i.Some? {
      IdPlace(leads, nextId, l, i.value);
    }
  }

  lemma IdPlace(leads: seq<Lead>, nextId: nat, l: nat, m: nat)
    requires DistinctLeads(leads, nextId) && l < |leads| && m < |leads|
    ensures leads[m].id == leads[l].id ==> m == l
  {
  }

  /** Each stored lead ends with the values of the rows that overwrite it laid over its own, and is otherwise untouched. */
  lemma {:induction false} UpdateOverwrites(t: Tally, rows: seq<Row>, skip: set<int>, batch: nat, l: nat)
    requires DistinctLeads(t.leads, t.nextId) && l < |t.leads|
    ensures var c := ConfirmAll(t, rows, skip, UpdateExisting, batch);
            && l < |c.leads| && c.leads[l].data == OverlaidBy(t.leads[l].data, rows, skip, t.leads[l].id)
            && c.leads[l].batch ==
                 if exists k :: 0 <= k < |rows| && Overwrites(rows[k], skip, t.leads[l].id) then Some(batch)
                 else t.leads[l].batch
  {
    IdsKept(t, rows, skip, UpdateExisting, batch);
    if rows != [] {
      var n := |rows| - 1;
      var before := ConfirmAll(t, rows[..n], skip, UpdateExisting, batch);
      IdsKept(t, rows[..n], skip, UpdateExisting, batch);
      UpdateOverwrites(t, rows[..n], skip, batch, l);
      LastOverwrites(before, rows[n], skip, batch, l);
      assert forall k :: 0 <= k < n ==> rows[..n][k] == rows[k];
    }
  }

  lemma LastOverwrites(t: Tally, r: Row, skip: set<int>, batch: nat, l: nat)
    requires DistinctLeads(t.leads, t.nextId) && l < |t.leads|
    ensures var c := ConfirmRow(t, r, skip, UpdateExisting, batch);
            && l < |c.leads|
            && c.leads[l] == if Overwrites(r, skip, t.leads[l].id)
                             then t.leads[l].(data := Overlaid(t.leads[l].data, r.data), batch := Some(batch))
                             else t.leads[l]
  {
    if r.existing.Some? {
      IndexIs(t.leads, t.nextId, l);
      var i := IndexOf(t.leads, r.existing.value);
    }
  }

  /** A lead that confirming changed matches, by email or by name and city, a row that overwrote it. */
  lemma OverwrittenMatches(lower: string -> string, leads: seq<Lead>, nextId: nat, rows: seq<Row>, marked: seq<Row>,
                           skip: set<int>, batch: nat, l: nat)
    requires DistinctLeads(leads, nextId) && Marked(lower, leads, rows, marked) && l < |leads|
    requires forall k :: 0 <= k < |rows| ==> rows[k].status == Invalid || Unmarked(rows[k])
    requires var c := ConfirmAll(Tally(leads, nextId, 0, 0, 0, []), marked, skip, UpdateExisting, batch);
             l < |c.leads| && c.leads[l] != leads[l]
    ensures exists k :: 0 <= k < |marked| && Overwrites(marked[k], skip, leads[l].id)
                        && (SharesEmail(lower, leads[l], marked[k].data) || SharesNameCity(lower, leads[l], marked[k].data))
  {
    var t := Tally(leads, nextId, 0, 0, 0, []);
    UpdateOverwrites(t, marked, skip, batch, l);
    IdsKept(t, marked, skip, UpdateExisting, batch);
    UntouchedOverlay(leads[l].data, marked, skip, leads[l].id);
    LabelKept(t, marked, skip, UpdateExisting, batch, l);
    var k :| 0 <= k < |marked| && Overwrites(marked[k], skip, leads[l].id);
    assert Decided(lower, leads, rows, marked, k);
    DuplicatePoints(lower, leads, rows, marked, k);
    PointsThere(lower, leads, nextId, marked[k], l);
  }

  lemma LabelKept(t: Tally, rows: seq<Row>, skip: set<int>, strategy: Strategy, batch: nat, l: nat)
    requires l < |t.leads|
    ensures l < |ConfirmAll(t, rows, skip, strategy, batch).leads|
    ensures ConfirmAll(t, rows, skip, strategy, batch).leads[l].id == t.leads[l].id
  {
    StoredLeadsKept(t, rows, skip, strategy, batch, l);
  }

  lemma {:induction false} UntouchedOverlay(d: Data, rows: seq<Row>, skip: set<int>, id: nat)
    ensures (forall k :: 0 <= k < |rows| ==> !Overwrites(rows[k], skip, id)) ==> OverlaidBy(d, rows, skip, id) == d
  {
    if rows != [] {
      var n := |rows| - 1;
      UntouchedOverlay(d, rows[..n], skip, id);
      assert forall k :: 0 <= k < n ==> rows[..n][k] == rows[k];
    }
  }

  lemma PointsThere(lower: string -> string, leads: seq<Lead>, nextId: nat, r: Row, l: nat)
    requires DistinctLeads(leads, nextId) && l < |leads| && r.existing == Some(leads[l].id)
    ensures (exists m: nat :: PointsByEmail(lower, leads, r, m)) ==> SharesEmail(lower, leads[l], r.data)
    ensures (exists m: nat :: PointsByName(lower, leads, r, m)) ==> SharesNameCity(lower, leads[l], r.data)
  {
    forall m: nat | m < |leads| && leads[m].id == leads[l].id ensures m == l {
      IdPlace(leads, nextId, l, m);
    }
  }

  // ---- what confirming creates ----

  /** The row becomes a new lead: it is neither skipped, invalid, a skipped duplicate, nor pointed at a lead to update. */
  predicate Creates(r: Row, skip: set<int>, strategy: Strategy) {
    && r.number !in skip && r.status != Invalid
    && (r.status == Duplicate ==>
          strategy == CreateAnyway || (strategy == UpdateExisting && r.existing == None))
  }

  function CreatingIds(rows: seq<Row>, skip: set<int>, strategy: Strategy): (ids: seq<nat>)
    ensures forall i: nat :: i in ids <==> i < |rows| && Creates(rows[i], skip, strategy)
    ensures Ascending(ids)
  {
    if rows == [] then []
    else
      var n := |rows| - 1;
      var front := CreatingIds(rows[..n], skip, strategy);
      assert forall k :: 0 <= k < |front| ==> front[k] in front;
      if Creates(rows[n], skip, strategy) then front + [n] else front
  }

  /** Under every strategy the table grows by exactly the rows that create, in order. */
  lemma {:induction false} ConfirmCreates(t: Tally, rows: seq<Row>, skip: set<int>, strategy: Strategy, batch: nat)
    requires DistinctLeads(t.leads, t.nextId)
    requires forall k :: 0 <= k < |rows| && rows[k].existing.Some? ==> rows[k].existing.value < t.nextId
    ensures var c := ConfirmAll(t, rows, skip, strategy, batch);
            |c.leads| >= |t.leads| && MadeFrom(c.leads[|t.leads|..], rows, CreatingIds(rows, skip, strategy))
  {
    IdsKept(t, rows, skip, strategy, batch);
    if rows != [] {
      var n := |rows| - 1;
      assert forall k :: 0 <= k < n ==> rows[..n][k] == rows[k];
      ConfirmCreates(t, rows[..n], skip, strategy, batch);
      IdsKept(t, rows[..n], skip, strategy, batch);
      LastCreates(t, ConfirmAll(t, rows[..n], skip, strategy, batch), rows, skip, strategy, batch);
    }
  }

  lemma LastCreates(t: Tally, before: Tally, rows: seq<Row>, skip: set<int>, strategy: Strategy, batch: nat)
    requires rows != [] && |before.leads| >= |t.leads|
    requires forall k :: |t.leads| <= k < |before.leads| ==> before.leads[k].id >= t.nextId
    requires rows[|rows| - 1].existing.Some? ==> rows[|rows| - 1].existing.value < t.nextId
    requires var n := |rows| - 1;
             MadeFrom(before.leads[|t.leads|..], rows[..n], CreatingIds(rows[..n], skip, strategy))
    ensures var after := ConfirmRow(before, rows[|rows| - 1], skip, strategy, batch);
            |after.leads| >= |t.leads| && MadeFrom(after.leads[|t.leads|..], rows, CreatingIds(rows, skip, strategy))
  {
    var n := |rows| - 1;
    var made, ids := before.leads[|t.leads|..], CreatingIds(rows[..n], skip, strategy);
    MadeFromFront(made, rows, ids);
    if Creates(rows[n], skip, strategy) {
      AppendedMade(before.leads, |t.leads|, Lead(before.nextId, rows[n].data, Some(batch)), rows, ids);
    } else {
      OldLeadsOnly(before, rows[n], skip, strategy, batch, |t.leads|, t.nextId);
    }
  }

  lemma AppendedMade(leads: seq<Lead>, from: nat, new_: Lead, rows: seq<Row>, ids: seq<nat>)
    requires from <= |leads| && rows != [] && MadeFrom(leads[from..], rows, ids) && new_.data == rows[|rows| - 1].data
    ensures MadeFrom((leads + [new_])[from..], rows, ids + [|rows| - 1])
  {
    assert (leads + [new_])[from..] == leads[from..] + [new_];
  }

  lemma MadeFromFront(made: seq<Lead>, rows: seq<Row>, ids: seq<nat>)
    requires rows != [] && MadeFrom(made, rows[..|rows| - 1], ids)
    ensures MadeFrom(made, rows, ids)
  {
  }

  /** A row that creates nothing leaves the leads with new ids alone. */
  lemma OldLeadsOnly(before: Tally, r: Row, skip: set<int>, strategy: Strategy, batch: nat, n: nat, nextId: nat)
    requires !Creates(r, skip, strategy) && n <= |before.leads|
    requires forall k :: n <= k < |before.leads| ==> before.leads[k].id >= nextId
    requires r.existing.Some? ==> r.existing.value < nextId
    ensures var after := ConfirmRow(before, r, skip, strategy, batch);
            |after.leads| == |before.leads| && after.leads[n..] == before.leads[n..]
  {
    if r.existing.Some? {
      var i := IndexOf(before.leads, r.existing.value);
    }
  }
}
