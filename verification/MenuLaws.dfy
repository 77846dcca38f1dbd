/** What splitting a menu guarantees: nothing lost, nothing split, nothing too long. */
module MenuLaws {
  import opened Sorting
  import opened Menu

  // ---- content ----

  function Flatten(ms: seq<seq<Entry>>): seq<Entry> {
    if ms == [] then [] else Flatten(ms[..|ms| - 1]) + ms[|ms| - 1]
  }

  /** The entries without the repeated "(cont.)" headings. */
  function DropCont(es: seq<Entry>): seq<Entry> {
    if es == [] then []
    else DropCont(es[..|es| - 1]) + (if es[|es| - 1].Cont? then [] else [es[|es| - 1]])
  }

  lemma {:induction false} DropContConcat(a: seq<Entry>, b: seq<Entry>)
    ensures DropCont(a + b) == DropCont(a) + DropCont(b)
  {
    if b == [] {
      assert a + b == a;
    } else {
      var n := |b| - 1;
      assert (a + b)[..|a + b| - 1] == a + b[..n];
      DropContConcat(a, b[..n]);
    }
  }

  lemma FlattenSnoc(ms: seq<seq<Entry>>, m: seq<Entry>)
    ensures Flatten(ms + [m]) == Flatten(ms) + m
  {
  }

  function Content(st: State): seq<Entry> {
    DropCont(Flatten(st.out + [st.current]))
  }

  lemma AppendContent(st: State, e: Entry, len: int)
    requires DropCont([e]) == [e]
    ensures Content(State(st.out, st.current + [e], len)) == Content(st) + [e]
  {
    var before := Flatten(st.out) + st.current;
    FlattenSnoc(st.out, st.current);
    FlattenSnoc(st.out, st.current + [e]);
    Assoc(Flatten(st.out), st.current, [e]);
    DropContConcat(before, [e]);
  }

  lemma FlushContent(st: State, next: seq<Entry>, len: int, e: Entry)
    requires DropCont(next) == [e]
    ensures Content(State(st.out + [st.current], next, len)) == Content(st) + [e]
  {
    var done := st.out + [st.current];
    FlattenSnoc(done, next);
    DropContConcat(Flatten(done), next);
  }

  lemma PlaceContent(w: Entry -> nat, maxChars: int, st: State, e: Entry)
    requires !e.Cont?
    ensures Content(Place(w, maxChars, st, e)) == Content(st) + [e]
  {
    var n := w(e) + 1;
    Reopened(e);
    if st.currentLen + n <= maxChars {
      AppendContent(st, e, st.currentLen + n);
    } else if e.Item? {
      FlushContent(st, [Cont(e.s), e], w(Cont(e.s)) + 1 + n, e);
    } else {
      FlushContent(st, [e], n, e);
    }
  }

  lemma Reopened(e: Entry)
    requires !e.Cont?
    ensures DropCont([e]) == [e]
    ensures e.Item? ==> DropCont([Cont(e.s), e]) == [e]
  {
  }

  lemma {:induction false} PlacedContent(w: Entry -> nat, maxChars: int, es: seq<Entry>)
    requires forall i :: 0 <= i < |es| ==> !es[i].Cont?
    ensures Content(Placed(w, maxChars, es)) == [Title] + es
  {
    if es == [] {
      FlattenSnoc([], [Title]);
    } else {
      var n := |es| - 1;
      PlacedContent(w, maxChars, es[..n]);
      PlaceContent(w, maxChars, Placed(w, maxChars, es[..n]), es[n]);
      assert [Title] + es == [Title] + es[..n] + [es[n]];
    }
  }

  /** Dropping the repeated headings and concatenating the messages gives back the whole menu, in order. */
  lemma SplitKeepsContent(b: Board, maxChars: int)
    ensures DropCont(Flatten(Split(b, maxChars))) == b.Layout()
  {
    b.BodyPlain(|b.sections|);
    PlacedContent(b.Width(), maxChars, b.Body(|b.sections|) + [Closing]);
    assert b.Layout() == [Title] + (b.Body(|b.sections|) + [Closing]);
  }

  // ---- every item under its own heading ----

  /** The entry belongs to section s: its heading, repeated heading, or one of its items. */
  predicate InSection(e: Entry, s: nat) {
    (e.Heading? || e.Cont? || e.Item?) && e.s == s
  }

  /** Each item directly follows its own section's heading, or another item of that section. */
  predicate Owned(m: seq<Entry>) {
    forall j :: 0 <= j < |m| && m[j].Item? ==> j > 0 && InSection(m[j - 1], m[j].s)
  }

  predicate AllOwned(ms: seq<seq<Entry>>) {
    forall m :: 0 <= m < |ms| ==> Owned(ms[m])
  }

  lemma OwnedConcat(a: seq<Entry>, b: seq<Entry>)
    requires Owned(a) && Owned(b)
    ensures Owned(a + b)
  {
  }

  lemma {:induction false} SectionOwned(b: Board, s: nat, u: nat)
    requires s < |b.sections| && u <= |b.sections[s].items|
    ensures var es := b.SectionEntries(s, u); Owned(es) && es != [] && InSection(es[|es| - 1], s)
  {
    if u > 0 {
      SectionOwned(b, s, u - 1);
    }
  }

  lemma {:induction false} BodyOwned(b: Board, n: nat)
    requires n <= |b.sections|
    ensures Owned(b.Body(n))
  {
    if n > 0 {
      BodyOwned(b, n - 1);
      SectionOwned(b, n - 1, |b.sections[n - 1].items|);
      OwnedConcat(b.Body(n - 1), b.SectionEntries(n - 1, |b.sections[n - 1].items|));
    }
  }

  lemma PlaceOwned(w: Entry -> nat, maxChars: int, st: State, e: Entry)
    requires st.current != [] && AllOwned(st.out) && Owned(st.current) && !e.Cont?
    requires e.Item? ==> InSection(st.current[|st.current| - 1], e.s)
    ensures var st' := Place(w, maxChars, st, e);
            AllOwned(st'.out) && Owned(st'.current) && st'.current != [] && st'.current[|st'.current| - 1] == e
  {
  }

  lemma {:induction false} PlacedOwned(w: Entry -> nat, maxChars: int, es: seq<Entry>)
    requires Owned(es) && forall i :: 0 <= i < |es| ==> !es[i].Cont?
    ensures var st := Placed(w, maxChars, es);
            && AllOwned(st.out) && Owned(st.current) && st.current != []
            && (es != [] ==> st.current[|st.current| - 1] == es[|es| - 1])
  {
    if es != [] {
      var n := |es| - 1;
      assert n > 0 ==> es[..n][n - 1] == es[n - 1];
      PlacedOwned(w, maxChars, es[..n]);
      PlaceOwned(w, maxChars, Placed(w, maxChars, es[..n]), es[n]);
    }
  }

  lemma SplitOwned(b: Board, maxChars: int)
    ensures AllOwned(Split(b, maxChars))
  {
    BodyOwned(b, |b.sections|);
    OwnedConcat(b.Body(|b.sections|), [Closing]);
    b.BodyPlain(|b.sections|);
    PlacedOwned(b.Width(), maxChars, b.Body(|b.sections|) + [Closing]);
  }

  /** The last heading at or before position j, counted from the front; -1 when there is none. */
  function NearestHeading(m: seq<Entry>, j: nat): (h: int)
    requires j < |m|
    ensures -1 <= h <= j
  {
    if m[j].Heading? || m[j].Cont? then j else if j == 0 then -1 else NearestHeading(m, j - 1)
  }

  lemma {:induction false} OwnedNearest(m: seq<Entry>, j: nat, s: nat)
    requires Owned(m) && j < |m| && InSection(m[j], s)
    ensures NearestHeading(m, j) >= 0 && InSection(m[NearestHeading(m, j)], s) && !m[NearestHeading(m, j)].Item?
  {
    if m[j].Item? {
      OwnedNearest(m, j - 1, s);
    }
  }

  /** In every message, the nearest heading above an item is its own section's. */
  lemma ItemsUnderOwnHeading(b: Board, maxChars: int, m: nat, j: nat)
    requires m < |Split(b, maxChars)| && j < |Split(b, maxChars)[m]| && Split(b, maxChars)[m][j].Item?
    ensures var msg := Split(b, maxChars)[m];
            NearestHeading(msg, j) >= 0 && InSection(msg[NearestHeading(msg, j)], msg[j].s)
  {
    SplitOwned(b, maxChars);
    OwnedNearest(Split(b, maxChars)[m], j, Split(b, maxChars)[m][j].s);
  }

  // ---- length ----

  /** Characters in a message made of entries of the given widths: the texts and the newlines between them. */
  function Length(w: Entry -> nat, m: seq<Entry>): nat {
    if m == [] then 0
    else if |m| == 1 then w(m[0])
    else Length(w, m[..|m| - 1]) + 1 + w(m[|m| - 1])
  }

  lemma {:induction false} MessageLength(b: Board, m: seq<Entry>)
    requires b.HasAll(m)
    ensures |b.Message(m)| == Length(b.Width(), m)
  {
    if |m| > 1 {
      MessageLength(b, m[..|m| - 1]);
    }
  }

  lemma LengthSnoc(w: Entry -> nat, m: seq<Entry>, e: Entry)
    requires m != []
    ensures Length(w, m + [e]) == Length(w, m) + 1 + w(e)
  {
  }

  /** What a message starts with: one entry, or a repeated heading with the item it was repeated for. */
  function Opening(m: seq<Entry>): (o: seq<Entry>)
    requires m != []
    ensures o <= m && o != []
  {
    if m[0].Cont? && |m| > 1 then m[..2] else m[..1]
  }

  /** The message is over the limit only if its opening alone already is. */
  predicate AsGoodAsOpening(w: Entry -> nat, maxChars: int, m: seq<Entry>) {
    m != [] && (Length(w, m) <= maxChars || m == Opening(m))
  }

  predicate AllAsGood(w: Entry -> nat, maxChars: int, ms: seq<seq<Entry>>) {
    forall m :: 0 <= m < |ms| ==> AsGoodAsOpening(w, maxChars, ms[m])
  }

  /** The counter is the open message's true length, or one more; before the first flush it is exact. */
  predicate Counted(w: Entry -> nat, st: State) {
    var n := Length(w, st.current);
    n <= st.currentLen <= n + 1 && (st.out == [] ==> st.currentLen == n)
  }

  lemma PlaceCounted(w: Entry -> nat, maxChars: int, st: State, e: Entry)
    requires st.current != [] && !e.Cont? && Counted(w, st)
    ensures Counted(w, Place(w, maxChars, st, e))
    ensures AsGoodAsOpening(w, maxChars, Place(w, maxChars, st, e).current)
  {
  }

  lemma {:induction false} PlacedCounted(w: Entry -> nat, maxChars: int, es: seq<Entry>)
    requires forall i :: 0 <= i < |es| ==> !es[i].Cont?
    ensures var st := Placed(w, maxChars, es);
            && Counted(w, st)
            && AsGoodAsOpening(w, maxChars, st.current)
            && AllAsGood(w, maxChars, st.out)
  {
    if es != [] {
      var n := |es| - 1;
      PlacedCounted(w, maxChars, es[..n]);
      PlaceCounted(w, maxChars, Placed(w, maxChars, es[..n]), es[n]);
    }
  }

  lemma {:induction false} PrefixShorter(w: Entry -> nat, m: seq<Entry>, k: nat)
    requires 0 < k <= |m|
    ensures Length(w, m[..k]) <= Length(w, m)
  {
    if k == |m| {
      assert m[..k] == m;
    } else {
      assert m[..|m| - 1][..k] == m[..k];
      PrefixShorter(w, m[..|m| - 1], k);
    }
  }

  /** For every menu, a message fits exactly when its opening fits. */
  lemma MessageFits(b: Board, maxChars: int, m: nat)
    requires m < |Split(b, maxChars)|
    ensures var msg := Split(b, maxChars)[m];
            |b.Message(msg)| <= maxChars <==> |b.Message(Opening(msg))| <= maxChars
  {
    var msg := Split(b, maxChars)[m];
    b.BodyPlain(|b.sections|);
    PlacedCounted(b.Width(), maxChars, b.Body(|b.sections|) + [Closing]);
    assert AsGoodAsOpening(b.Width(), maxChars, msg);
    MessageLength(b, msg);
    MessageLength(b, Opening(msg));
    assert Opening(msg) == msg[..|Opening(msg)|];
    PrefixShorter(b.Width(), msg, |Opening(msg)|);
  }

  /** Messages open with the title, a heading, the footer, or a repeated heading with one of its items. */
  predicate WellOpened(m: seq<Entry>) {
    m != [] && (m[0].Title? || m[0].Heading? || m[0].Closing? ||
                (m[0].Cont? && |m| > 1 && m[1].Item? && m[1].s == m[0].s))
  }

  lemma {:induction false} PlacedWellOpened(w: Entry -> nat, maxChars: int, es: seq<Entry>)
    requires forall i :: 0 <= i < |es| ==> !es[i].Cont?
    ensures var st := Placed(w, maxChars, es);
            WellOpened(st.current) && forall m :: 0 <= m < |st.out| ==> WellOpened(st.out[m])
  {
    if es != [] {
      PlacedWellOpened(w, maxChars, es[..|es| - 1]);
    }
  }

  /** Header, footer, and every repeated heading together with one of its items fit. */
  ghost predicate PiecesFit(b: Board, maxChars: int) {
    && |b.Text(Title)| <= maxChars
    && |b.Text(Closing)| <= maxChars
    && forall s, u :: b.Has(Item(s, u)) ==> UnitFits(b, maxChars, s, u)
  }

  predicate UnitFits(b: Board, maxChars: int, s: nat, u: nat)
    requires b.Has(Item(s, u))
  {
    |b.Text(Cont(s))| + 1 + |b.Text(Item(s, u))| <= maxChars
  }

  predicate NoEmptySection(sections: seq<Section>) {
    forall s :: 0 <= s < |sections| ==> sections[s].items != []
  }

  lemma OpeningFits(b: Board, maxChars: int, m: seq<Entry>)
    requires PiecesFit(b, maxChars) && NoEmptySection(b.sections)
    requires WellOpened(m) && b.HasAll(m)
    ensures |b.Message(Opening(m))| <= maxChars
  {
    var e := m[0];
    if e.Cont? {
      assert Opening(m) == [e] + [m[1]];
      MessageLength(b, [e] + [m[1]]);
      LengthSnoc(b.Width(), [e], m[1]);
      assert UnitFits(b, maxChars, m[1].s, m[1].u);
    } else {
      assert Opening(m) == [e];
      if e.Heading? {
        assert b.Has(Item(e.s, 0)) && UnitFits(b, maxChars, e.s, 0);
        HeadingShorter(b, e.s);
      }
    }
  }

  lemma HeadingShorter(b: Board, s: nat)
    requires b.Has(Heading(s))
    ensures |b.Text(Heading(s))| <= |b.Text(Cont(s))|
  {
  }

  /** If the pieces fit, every message of every menu fits. */
  lemma AllMessagesFit(b: Board, maxChars: int, m: nat)
    requires PiecesFit(b, maxChars) && NoEmptySection(b.sections)
    requires m < |Split(b, maxChars)|
    ensures |b.Message(Split(b, maxChars)[m])| <= maxChars
  {
    b.BodyPlain(|b.sections|);
    PlacedWellOpened(b.Width(), maxChars, b.Body(|b.sections|) + [Closing]);
    OpeningFits(b, maxChars, Split(b, maxChars)[m]);
    MessageFits(b, maxChars, m);
  }

  /** Every menu built from the catalogue has only non-empty sections. */
  lemma CatalogueSections(categories: seq<Category>, items: seq<MenuItem>)
    ensures NoEmptySection(SectionsOf(categories, items))
  {
    SectionsHaveItems(Sorted(categories, CategoryOrder), items);
  }

  // ---- the common case ----

  /** Nothing has been flushed exactly as long as everything placed so far fits. */
  predicate Unsplit(w: Entry -> nat, maxChars: int, es: seq<Entry>, st: State) {
    && (st.out == [] ==> st.current == [Title] + es)
    && (Length(w, [Title] + es) <= maxChars ==> st.out == [])
    && (es != [] && st.out == [] ==> Length(w, [Title] + es) <= maxChars)
  }

  lemma UnsplitPlace(w: Entry -> nat, maxChars: int, es: seq<Entry>, st: State, e: Entry)
    requires Unsplit(w, maxChars, es, st) && Counted(w, st)
    ensures Unsplit(w, maxChars, es + [e], Place(w, maxChars, st, e))
  {
    assert [Title] + (es + [e]) == ([Title] + es) + [e];
    LengthSnoc(w, [Title] + es, e);
  }

  lemma {:induction false} UnsplitPlaced(w: Entry -> nat, maxChars: int, es: seq<Entry>)
    requires forall i :: 0 <= i < |es| ==> !es[i].Cont?
    ensures Unsplit(w, maxChars, es, Placed(w, maxChars, es))
  {
    if es != [] {
      var n := |es| - 1;
      UnsplitPlaced(w, maxChars, es[..n]);
      PlacedCounted(w, maxChars, es[..n]);
      UnsplitPlace(w, maxChars, es[..n], Placed(w, maxChars, es[..n]), es[n]);
      assert es == es[..n] + [es[n]];
    }
  }

  /** One message comes back exactly when the whole menu fits, and then it is the whole menu. */
  lemma OneMessageIff(b: Board, maxChars: int)
    ensures |Split(b, maxChars)| == 1 <==> |b.Message(b.Layout())| <= maxChars
    ensures |Split(b, maxChars)| == 1 ==> Split(b, maxChars) == [b.Layout()]
  {
    var es := b.Body(|b.sections|) + [Closing];
    b.BodyPlain(|b.sections|);
    UnsplitPlaced(b.Width(), maxChars, es);
    assert b.Layout() == [Title] + es;
    MessageLength(b, b.Layout());
  }

  // ---- compared with the single reply ----

  lemma CollectSnoc(f: Entry -> seq<Part>, es: seq<Entry>, e: Entry)
    ensures Collect(f, es + [e]) == Collect(f, es) + f(e)
  {
  }

  lemma {:induction false} CollectConcat(f: Entry -> seq<Part>, x: seq<Entry>, y: seq<Entry>)
    ensures Collect(f, x + y) == Collect(f, x) + Collect(f, y)
  {
    if y == [] {
      assert x + y == x;
    } else {
      var front, last := y[..|y| - 1], y[|y| - 1];
      assert x + y == (x + front) + [last];
      CollectConcat(f, x, front);
      CollectSnoc(f, x + front, last);
      Assoc(Collect(f, x), Collect(f, front), f(last));
    }
  }

  lemma {:induction false} SectionEntriesParts(f: Entry -> seq<Part>, b: Board, s: nat, u: nat)
    requires s < |b.sections| && u <= |b.sections[s].items|
    requires forall k {:trigger f(Item(s, k))} :: 0 <= k < u ==>
               f(Item(s, k)) == UnitParts(b.style, b.sections[s].items[k], true)
    ensures Collect(f, b.SectionEntries(s, u)) == f(Heading(s)) + ItemsParts(b.style, b.sections[s].items[..u], true)
  {
    var items := b.sections[s].items;
    if u == 0 {
      CollectSnoc(f, [], Heading(s));
      assert [] + [Heading(s)] == [Heading(s)];
    } else {
      SectionEntriesParts(f, b, s, u - 1);
      CollectSnoc(f, b.SectionEntries(s, u - 1), Item(s, u - 1));
      assert items[..u] == items[..u - 1] + [items[u - 1]];
      ItemsPartsSnoc(b.style, items[..u - 1], items[u - 1], true);
      Assoc(f(Heading(s)), ItemsParts(b.style, items[..u - 1], true), f(Item(s, u - 1)));
    }
  }

  lemma WholeSectionParts(b: Board, s: nat)
    requires s < |b.sections|
    ensures Collect(EntryParts(b), b.SectionEntries(s, |b.sections[s].items|)) == SectionParts(b.style, b.sections[s], true)
  {
    var items := b.sections[s].items;
    SectionEntriesParts(EntryParts(b), b, s, |items|);
    assert items[..|items|] == items;
  }

  predicate SectionSays(f: Entry -> seq<Part>, b: Board, k: nat)
    requires k < |b.sections|
  {
    Collect(f, b.SectionEntries(k, |b.sections[k].items|)) == SectionParts(b.style, b.sections[k], true)
  }

  lemma {:induction false} BodyParts(f: Entry -> seq<Part>, b: Board, n: nat)
    requires n <= |b.sections|
    requires forall k :: 0 <= k < n ==> SectionSays(f, b, k)
    ensures Collect(f, b.Body(n)) == SectionsParts(b.style, b.sections[..n], true)
  {
    if n > 0 {
      BodyParts(f, b, n - 1);
      var last := b.sections[n - 1];
      assert SectionSays(f, b, n - 1);
      OneMoreSection(f, b.Body(n - 1), b.SectionEntries(n - 1, |last.items|), b.style, b.sections[..n - 1], last);
      assert b.sections[..n] == b.sections[..n - 1] + [last];
    }
  }

  lemma OneMoreSection(f: Entry -> seq<Part>, body: seq<Entry>, es: seq<Entry>, style: Style,
                       sections: seq<Section>, sec: Section)
    requires Collect(f, body) == SectionsParts(style, sections, true)
    requires Collect(f, es) == SectionParts(style, sec, true)
    ensures Collect(f, body + es) == SectionsParts(style, sections + [sec], true)
  {
    CollectConcat(f, body, es);
    SectionsPartsSnoc(style, sections, sec, true);
  }

  /** Entries that say nothing at the two ends change nothing. */
  lemma SilentEnds(f: Entry -> seq<Part>, first: Entry, body: seq<Entry>, last: Entry)
    requires f(first) == [] && f(last) == []
    ensures Collect(f, [first] + body + [last]) == Collect(f, body)
  {
    CollectSnoc(f, [first] + body, last);
    CollectConcat(f, [first], body);
    assert [first][..0] == [];
  }

  lemma LayoutParts(b: Board)
    ensures Collect(EntryParts(b), b.Layout()) == Collect(EntryParts(b), b.Body(|b.sections|))
  {
    SilentEnds(EntryParts(b), Title, b.Body(|b.sections|), Closing);
  }

  /** What the split messages say, read in order without the repeated headings. */
  function SplitParts(b: Board, maxChars: int): seq<Part> {
    Collect(EntryParts(b), DropCont(Flatten(Split(b, maxChars))))
  }

  lemma SplitPartsAre(b: Board, maxChars: int)
    ensures SplitParts(b, maxChars) == SectionsParts(b.style, b.sections, true)
  {
    SplitKeepsContent(b, maxChars);
    LayoutParts(b);
    forall s | 0 <= s < |b.sections|
      ensures Collect(EntryParts(b), b.SectionEntries(s, |b.sections[s].items|)) == SectionParts(b.style, b.sections[s], true)
    {
      WholeSectionParts(b, s);
    }
    BodyParts(EntryParts(b), b, |b.sections|);
    assert b.sections[..|b.sections|] == b.sections;
  }

  function Prices(ps: seq<Part>): seq<Part> {
    if ps == [] then []
    else Prices(ps[..|ps| - 1]) + (if ps[|ps| - 1].PricePart? then [ps[|ps| - 1]] else [])
  }

  lemma {:induction false} PricesConcat(x: seq<Part>, y: seq<Part>)
    ensures Prices(x + y) == Prices(x) + Prices(y)
  {
    if y == [] {
      assert x + y == x;
    } else {
      assert (x + y)[..|x + y| - 1] == x + y[..|y| - 1];
      PricesConcat(x, y[..|y| - 1]);
    }
  }

  lemma UnitPrices(style: Style, i: MenuItem, described: bool)
    ensures Prices(UnitParts(style, i, described)) == [PricePart(style.priceLine(i))]
  {
    var p := [PricePart(style.priceLine(i))];
    assert Prices(p) == p;
    if described && i.description != "" {
      assert UnitParts(style, i, described)[..1] == p;
    }
  }

  lemma {:induction false} ItemsPrices(style: Style, items: seq<MenuItem>)
    ensures Prices(ItemsParts(style, items, true)) == Prices(ItemsParts(style, items, false))
  {
    if items != [] {
      var n := |items| - 1;
      ItemsPrices(style, items[..n]);
      UnitPrices(style, items[n], true);
      UnitPrices(style, items[n], false);
      PricesConcat(ItemsParts(style, items[..n], true), UnitParts(style, items[n], true));
      PricesConcat(ItemsParts(style, items[..n], false), UnitParts(style, items[n], false));
    }
  }

  lemma SectionPrices(style: Style, sec: Section)
    ensures Prices(SectionParts(style, sec, true)) == Prices(SectionParts(style, sec, false))
  {
    ItemsPrices(style, sec.items);
    PricesConcat([HeadingPart(sec.header)], ItemsParts(style, sec.items, true));
    PricesConcat([HeadingPart(sec.header)], ItemsParts(style, sec.items, false));
  }

  lemma {:induction false} SectionsPrices(style: Style, sections: seq<Section>)
    ensures Prices(SectionsParts(style, sections, true)) == Prices(SectionsParts(style, sections, false))
  {
    if sections != [] {
      var n := |sections| - 1;
      SectionsPrices(style, sections[..n]);
      SectionPrices(style, sections[n]);
      PricesConcat(SectionsParts(style, sections[..n], true), SectionParts(style, sections[n], true));
      PricesConcat(SectionsParts(style, sections[..n], false), SectionParts(style, sections[n], !sections[n].uncategorised));
    }
  }

  /** However the menu is split, its price lines in order are those of the single reply. */
  lemma SamePrices(b: Board, maxChars: int)
    ensures Prices(SplitParts(b, maxChars)) == Prices(ResponseParts(b))
  {
    SplitPartsAre(b, maxChars);
    SectionsPrices(b.style, b.sections);
  }

  predicate Undescribed(items: seq<MenuItem>) {
    forall i :: 0 <= i < |items| ==> items[i].description == ""
  }

  lemma {:induction false} ItemsDescribed(style: Style, items: seq<MenuItem>)
    ensures |ItemsParts(style, items, false)| <= |ItemsParts(style, items, true)|
    ensures Undescribed(items) ==> ItemsParts(style, items, false) == ItemsParts(style, items, true)
    ensures !Undescribed(items) ==> |ItemsParts(style, items, false)| < |ItemsParts(style, items, true)|
  {
    if items != [] {
      ItemsDescribed(style, items[..|items| - 1]);
    }
  }

  predicate OthersUndescribed(sections: seq<Section>) {
    forall s :: 0 <= s < |sections| && sections[s].uncategorised ==> Undescribed(sections[s].items)
  }

  lemma {:induction false} SectionsDescribed(style: Style, sections: seq<Section>)
    ensures var all := SectionsParts(style, sections, true);
            var some := SectionsParts(style, sections, false);
            && |some| <= |all|
            && (OthersUndescribed(sections) ==> some == all)
            && (!OthersUndescribed(sections) ==> |some| < |all|)
  {
    if sections != [] {
      SectionsDescribed(style, sections[..|sections| - 1]);
      ItemsDescribed(style, sections[|sections| - 1].items);
    }
  }

  /**
   * The split menu says exactly what the single reply says if and only if no uncategorised item has
   * a description: the single reply leaves those descriptions out.
   */
  lemma SameContentIff(b: Board, maxChars: int)
    ensures SplitParts(b, maxChars) == ResponseParts(b) <==> OthersUndescribed(b.sections)
  {
    SplitPartsAre(b, maxChars);
    SectionsDescribed(b.style, b.sections);
  }
}
