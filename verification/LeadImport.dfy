/** Importing leads from a spreadsheet: duplicate marking in place, then the confirm step. */
module LeadImport {
  import opened Common

  datatype Field =
    | Category | City | Suburb | Address | Phone | Whatsapp | Email | Website | SourceUrl
    | PreferredContact | Verification | Notes

  /** A row's values; a field without a value is absent. */
  datatype Data = Data(businessName: string, fields: map<Field, string>, leadStatus: string, doNotContact: bool)

  datatype RowStatus = Valid | Duplicate | Invalid

  datatype Cause = InBatch | SameEmail | SameNameCity

  datatype Row = Row(number: int, status: RowStatus, data: Data, cause: Option<Cause>, existing: Option<nat>)

  datatype Lead = Lead(id: nat, data: Data, batch: Option<nat>)

  /** A lookup that expects at most one row raises when it finds more. */
  datatype LookupError = MultipleLeads

  datatype Strategy = SkipDuplicates | UpdateExisting | CreateAnyway

  // ---- keys ----

  function FieldOr(d: Data, f: Field): string {
    if f in d.fields then d.fields[f] else []
  }

  function EmailKey(lower: string -> string, d: Data): string {
    lower(FieldOr(d, Email))
  }

  function NameKey(lower: string -> string, d: Data): string {
    lower(d.businessName)
  }

  function CityKey(lower: string -> string, d: Data): string {
    lower(FieldOr(d, City))
  }

  /** Two rows of one file that may not both be valid. */
  predicate Clash(lower: string -> string, d: Data, e: Data) {
    || (EmailKey(lower, e) != [] && EmailKey(lower, d) == EmailKey(lower, e))
    || (NameKey(lower, e) != [] && NameKey(lower, d) == NameKey(lower, e) && CityKey(lower, d) == CityKey(lower, e))
  }

  predicate LeadHasEmail(lower: string -> string, l: Lead, email: string) {
    Email in l.data.fields && lower(l.data.fields[Email]) == email
  }

  predicate LeadHasNameCity(lower: string -> string, l: Lead, name: string, city: string) {
    lower(l.data.businessName) == name && City in l.data.fields && lower(l.data.fields[City]) == city
  }

  // ---- lookups ----

  /** Whether a stored lead answers a lookup. */
  datatype Query = ByEmail(email: string) | ByNameCity(name: string, city: string)

  predicate Answers(lower: string -> string, l: Lead, q: Query) {
    match q
    case ByEmail(email) => LeadHasEmail(lower, l, email)
    case ByNameCity(name, city) => LeadHasNameCity(lower, l, name, city)
  }

  function Hits(lower: string -> string, leads: seq<Lead>, q: Query): (ids: seq<nat>)
    ensures ids == [] <==> forall k :: 0 <= k < |leads| ==> !Answers(lower, leads[k], q)
  {
    if leads == [] then []
    else
      var n := |leads| - 1;
      var front := Hits(lower, leads[..n], q);
      assert forall k :: 0 <= k < n ==> leads[..n][k] == leads[k];
      if Answers(lower, leads[n], q) then front + [leads[n].id] else front
  }

  function Lookup(lower: string -> string, leads: seq<Lead>, q: Query): Result<Option<nat>, LookupError> {
    var ids := Hits(lower, leads, q);
    if |ids| > 1 then Err(MultipleLeads) else if |ids| == 1 then Ok(Some(ids[0])) else Ok(None)
  }

  datatype Found = Found(id: nat, cause: Cause)

  /** The stored lead a row duplicates: by email if it has one, else by name and city if it has both. */
  function Existing(lower: string -> string, leads: seq<Lead>, d: Data): Result<Option<Found>, LookupError> {
    var email := EmailKey(lower, d);
    var first := if email != [] then Lookup(lower, leads, ByEmail(email)) else Ok(None);
    if first.Err? then Err(first.error)
    else if first.value.Some? then Ok(Some(Found(first.value.value, SameEmail)))
    else if NameKey(lower, d) == [] || CityKey(lower, d) == [] then Ok(None)
    else
      var second := Lookup(lower, leads, ByNameCity(NameKey(lower, d), CityKey(lower, d)));
      if second.Err? then Err(second.error)
      else if second.value.Some? then Ok(Some(Found(second.value.value, SameNameCity)))
      else Ok(None)
  }

  // ---- what the marking decides ----

  /** Row k clashes with an earlier row that stayed valid. */
  ghost predicate ClashesBefore(lower: string -> string, marked: seq<Row>, k: nat, d: Data)
    requires k <= |marked|
  {
    exists j :: 0 <= j < k && KeptClash(lower, marked[j], d)
  }

  predicate KeptClash(lower: string -> string, r: Row, d: Data) {
    r.status == Valid && Clash(lower, r.data, d)
  }

  function Verdict(r: Row, found: Option<Found>): Row {
    if found.Some? then r.(status := Duplicate, cause := Some(found.value.cause), existing := Some(found.value.id)) else r
  }

  /** Row k after marking, from the row before, the earlier marked rows and the stored leads. */
  ghost predicate Decided(lower: string -> string, leads: seq<Lead>, rows: seq<Row>, marked: seq<Row>, k: nat)
    requires k < |rows| && k < |marked|
  {
    if rows[k].status != Valid then marked[k] == rows[k]
    else if ClashesBefore(lower, marked, k, rows[k].data) then
      marked[k] == InBatchRow(rows[k])
    else
      var found := Existing(lower, leads, rows[k].data);
      found.Ok? && marked[k] == Verdict(rows[k], found.value)
  }

  ghost predicate Marked(lower: string -> string, leads: seq<Lead>, rows: seq<Row>, marked: seq<Row>) {
    |marked| == |rows| && forall k :: 0 <= k < |rows| ==> Decided(lower, leads, rows, marked, k)
  }

  /** The sets of keys seen so far stand for the valid rows seen so far. */
  ghost predicate SeenBy(lower: string -> string, marked: seq<Row>, n: nat, emails: set<string>, names: set<(string, string)>)
    requires n <= |marked|
  {
    EmailsSeen(lower, marked, n, emails) && NamesSeen(lower, marked, n, names)
  }

  ghost predicate EmailsSeen(lower: string -> string, marked: seq<Row>, n: nat, emails: set<string>)
    requires n <= |marked|
  {
    && (forall j :: 0 <= j < n && marked[j].status == Valid && EmailKey(lower, marked[j].data) != [] ==>
          EmailKey(lower, marked[j].data) in emails)
    && (forall e :: e in emails ==> EmailHolder(lower, marked, n, e))
  }

  ghost predicate NamesSeen(lower: string -> string, marked: seq<Row>, n: nat, names: set<(string, string)>)
    requires n <= |marked|
  {
    && (forall j :: 0 <= j < n && marked[j].status == Valid && NameKey(lower, marked[j].data) != [] ==>
          NameCity(lower, marked[j].data) in names)
    && (forall p :: p in names ==> NameHolder(lower, marked, n, p))
  }

  function NameCity(lower: string -> string, d: Data): (string, string) {
    (NameKey(lower, d), CityKey(lower, d))
  }

  ghost predicate EmailHolder(lower: string -> string, marked: seq<Row>, n: nat, e: string)
    requires n <= |marked|
  {
    exists j :: 0 <= j < n && marked[j].status == Valid && EmailKey(lower, marked[j].data) == e
  }

  ghost predicate NameHolder(lower: string -> string, marked: seq<Row>, n: nat, p: (string, string))
    requires n <= |marked|
  {
    exists j :: 0 <= j < n && marked[j].status == Valid && NameCity(lower, marked[j].data) == p
  }

  lemma SeenIff(lower: string -> string, marked: seq<Row>, n: nat, emails: set<string>, names: set<(string, string)>, d: Data)
    requires n <= |marked| && SeenBy(lower, marked, n, emails, names)
    ensures InSeen(lower, d, emails, names) <==> ClashesBefore(lower, marked, n, d)
  {
  }

  function WithEmail(emails: set<string>, email: string): set<string> {
    if email != [] then emails + {email} else emails
  }

  function WithName(names: set<(string, string)>, p: (string, string)): set<(string, string)> {
    if p.0 != [] then names + {p} else names
  }

  lemma EmailsSeenValid(lower: string -> string, marked: seq<Row>, n: nat, emails: set<string>)
    requires n < |marked| && EmailsSeen(lower, marked, n, emails) && marked[n].status == Valid
    ensures EmailsSeen(lower, marked, n + 1, WithEmail(emails, EmailKey(lower, marked[n].data)))
  {
  }

  lemma NamesSeenValid(lower: string -> string, marked: seq<Row>, n: nat, names: set<(string, string)>)
    requires n < |marked| && NamesSeen(lower, marked, n, names) && marked[n].status == Valid
    ensures NamesSeen(lower, marked, n + 1, WithName(names, NameCity(lower, marked[n].data)))
  {
  }

  lemma SeenOther(lower: string -> string, marked: seq<Row>, n: nat, emails: set<string>, names: set<(string, string)>)
    requires n < |marked| && SeenBy(lower, marked, n, emails, names) && marked[n].status != Valid
    ensures SeenBy(lower, marked, n + 1, emails, names)
  {
  }

  /** What has been decided and seen about the first n rows depends on those rows only. */
  lemma SameFront(lower: string -> string, leads: seq<Lead>, rows: seq<Row>, before: seq<Row>, after: seq<Row>, n: nat,
                  emails: set<string>, names: set<(string, string)>)
    requires n <= |rows| == |before| == |after| && before[..n] == after[..n]
    requires SeenBy(lower, before, n, emails, names)
    requires forall k :: 0 <= k < n ==> Decided(lower, leads, rows, before, k)
    ensures SeenBy(lower, after, n, emails, names)
    ensures forall k :: 0 <= k < n ==> Decided(lower, leads, rows, after, k)
    ensures forall d :: ClashesBefore(lower, before, n, d) <==> ClashesBefore(lower, after, n, d)
  {
    assert forall j :: 0 <= j < n ==> before[j] == before[..n][j] == after[j];
    forall e | e in emails ensures EmailHolder(lower, after, n, e) {
      assert EmailHolder(lower, before, n, e);
    }
    forall p | p in names ensures NameHolder(lower, after, n, p) {
      assert NameHolder(lower, before, n, p);
    }
    forall k | 0 <= k < n ensures Decided(lower, leads, rows, after, k) {
      assert Decided(lower, leads, rows, before, k);
      assert ClashesBefore(lower, before, k, rows[k].data) <==> ClashesBefore(lower, after, k, rows[k].data);
    }
  }

  /** What holds before row n is looked at. */
  ghost predicate Progress(lower: string -> string, leads: seq<Lead>, was: seq<Row>, now: seq<Row>, n: nat,
                           emails: set<string>, names: set<(string, string)>) {
    && n <= |was| == |now|
    && now[n..] == was[n..]
    && SeenBy(lower, now, n, emails, names)
    && forall k :: 0 <= k < n ==> Decided(lower, leads, was, now, k)
  }

  predicate InSeen(lower: string -> string, d: Data, emails: set<string>, names: set<(string, string)>) {
    || (EmailKey(lower, d) != [] && EmailKey(lower, d) in emails)
    || (NameKey(lower, d) != [] && NameCity(lower, d) in names)
  }

  function InBatchRow(r: Row): Row {
    r.(status := Duplicate, cause := Some(InBatch))
  }

  /** One turn of the loop: row n becomes r, and the seen keys grow if it stayed valid. */
  lemma Advance(lower: string -> string, leads: seq<Lead>, was: seq<Row>, now: seq<Row>, n: nat, r: Row,
                emails: set<string>, names: set<(string, string)>)
    requires Progress(lower, leads, was, now, n, emails, names) && n < |was|
    requires was[n].status != Valid ==> r == was[n]
    requires was[n].status == Valid && InSeen(lower, was[n].data, emails, names) ==> r == InBatchRow(was[n])
    requires was[n].status == Valid && !InSeen(lower, was[n].data, emails, names) ==>
               Existing(lower, leads, was[n].data).Ok? && r == Verdict(was[n], Existing(lower, leads, was[n].data).value)
    ensures Progress(lower, leads, was, now[n := r], n + 1,
                     if r.status == Valid then WithEmail(emails, EmailKey(lower, r.data)) else emails,
                     if r.status == Valid then WithName(names, NameCity(lower, r.data)) else names)
  {
    var after := now[n := r];
    assert now[..n] == after[..n] && after[n + 1..] == was[n + 1..] by {
      assert now[n..][1..] == was[n..][1..];
      assert now[n..][1..] == now[n + 1..] && was[n..][1..] == was[n + 1..];
    }
    SeenIff(lower, now, n, emails, names, was[n].data);
    SameFront(lower, leads, was, now, after, n, emails, names);
    DecideNext(lower, leads, was, after, n, emails, names);
    if r.status == Valid {
      EmailsSeenValid(lower, after, n, emails);
      NamesSeenValid(lower, after, n, names);
    } else {
      SeenOther(lower, after, n, emails, names);
    }
  }

  lemma DecideNext(lower: string -> string, leads: seq<Lead>, was: seq<Row>, after: seq<Row>, n: nat,
                   emails: set<string>, names: set<(string, string)>)
    requires n < |was| == |after|
    requires InSeen(lower, was[n].data, emails, names) <==> ClashesBefore(lower, after, n, was[n].data)
    requires was[n].status != Valid ==> after[n] == was[n]
    requires was[n].status == Valid && InSeen(lower, was[n].data, emails, names) ==> after[n] == InBatchRow(was[n])
    requires was[n].status == Valid && !InSeen(lower, was[n].data, emails, names) ==>
               Existing(lower, leads, was[n].data).Ok? && after[n] == Verdict(was[n], Existing(lower, leads, was[n].data).value)
    ensures Decided(lower, leads, was, after, n)
  {
  }

  /** Raises only when some row's lookup matches several stored leads. */
  method FindDuplicates(lower: string -> string, leads: seq<Lead>, rows: array<Row>) returns (raised: bool)
    modifies rows
    ensures !raised ==> Marked(lower, leads, old(rows[..]), rows[..])
    ensures raised ==> exists r :: r in old(rows[..]) && LookupRaises(lower, leads, r)
  {
    var emails: set<string>, names: set<(string, string)> := {}, {};
    ghost var was := rows[..];
    for n := 0 to rows.Length
      invariant Progress(lower, leads, was, rows[..], n, emails, names)
    {
      var row := rows[n];
      assert row == rows[..][n..][0] == was[n..][0];
      ghost var now := rows[..];
      ghost var emails0, names0 := emails, names;
      if row.status == Valid {
        if InSeen(lower, row.data, emails, names) {
          rows[n] := InBatchRow(row);
        } else {
          var found := Existing(lower, leads, row.data);
          if found.Err? {
            assert row in was && LookupRaises(lower, leads, row);
            return true;
          }
          rows[n] := Verdict(row, found.value);
          if found.value.None? {
            emails := WithEmail(emails, EmailKey(lower, row.data));
            names := WithName(names, NameCity(lower, row.data));
          }
        }
      }
      Advance(lower, leads, was, now, n, rows[n], emails0, names0);
      assert rows[..] == now[n := rows[n]];
    }
    raised := false;
  }

  predicate LookupRaises(lower: string -> string, leads: seq<Lead>, r: Row) {
    r.status == Valid && Existing(lower, leads, r.data).Err?
  }
}
