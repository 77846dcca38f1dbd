/**
 * The WhatsApp menu: one long reply, or the same menu split into messages of at most maxChars
 * characters. Prices are printed by a formatter passed as a parameter (`price`).
 */
module Menu {
  import opened Common
  import opened Sorting

  datatype Category = Category(id: string, name: string, sortOrder: int)

  /** An empty description stands for none. */
  datatype MenuItem = MenuItem(
    name: string,
    priceCents: int,
    description: string,
    categoryId: Option<string>,
    isActive: bool,
    isDeleted: bool,
    sortOrder: int)

  const HEADER := "\U{1F4CB} *Our Menu*"
  const FOOTER := "To order, just tell me what you'd like! \U{1F37D}\U{FE0F}"
  const UPDATING := "Our menu is currently being updated. Please check back soon!"
  const OTHER := "*Other*"
  const CONT := " (cont.)"

  // ---- grouping and ordering ----

  predicate Visible(i: MenuItem) {
    i.isActive && !i.isDeleted
  }

  function InCategory(items: seq<MenuItem>, key: Option<string>): seq<MenuItem> {
    if items == [] then []
    else
      var n := |items| - 1;
      InCategory(items[..n], key) + (if Visible(items[n]) && items[n].categoryId == key then [items[n]] else [])
  }

  function CategoryOrder(c: Category): int {
    c.sortOrder
  }

  function ItemOrder(i: MenuItem): int {
    i.sortOrder
  }

  datatype Section = Section(header: string, items: seq<MenuItem>, uncategorised: bool)

  function CategorySection(cat: Category, mine: seq<MenuItem>): Section {
    Section("*" + cat.name + "*", Sorted(mine, ItemOrder), false)
  }

  function CategorySections(cats: seq<Category>, items: seq<MenuItem>): seq<Section> {
    if cats == [] then []
    else
      var n := |cats| - 1;
      var mine := InCategory(items, Some(cats[n].id));
      CategorySections(cats[..n], items) +
      (if mine == [] then []
       else [CategorySection(cats[n], mine)])
  }

  function SectionsOf(categories: seq<Category>, items: seq<MenuItem>): seq<Section> {
    CategorySections(Sorted(categories, CategoryOrder), items) +
    (if InCategory(items, None) == [] then [] else [Section(OTHER, InCategory(items, None), true)])
  }

  lemma {:induction false} SectionsHaveItems(cats: seq<Category>, items: seq<MenuItem>)
    ensures forall s :: 0 <= s < |CategorySections(cats, items)| ==> CategorySections(cats, items)[s].items != []
  {
    if cats != [] {
      SectionsHaveItems(cats[..|cats| - 1], items);
    }
  }

  // ---- text ----

  /** Python's newline join. */
  function Join(lines: seq<string>): string {
    if lines == [] then ""
    else if |lines| == 1 then lines[0]
    else Join(lines[..|lines| - 1]) + "\n" + lines[|lines| - 1]
  }

  lemma {:induction false} JoinConcat(a: seq<string>, b: seq<string>)
    requires a != [] && b != []
    ensures Join(a + b) == Join(a) + "\n" + Join(b)
  {
    var n := |b| - 1;
    assert (a + b)[..|a + b| - 1] == a + b[..n];
    if n > 0 {
      JoinConcat(a, b[..n]);
    } else {
      assert a + b[..n] == a;
    }
  }

  /** The fixed texts and line formats. Every law of the splitter holds for any style. */
  datatype Style = Style(
    header: string,
    footer: string,
    cont: string,
    priceLine: MenuItem -> string,
    descriptionLine: MenuItem -> string)

  /** The bot's own style, for a given price formatter. */
  function BotStyle(price: int -> string): Style {
    Style(HEADER, FOOTER, CONT,
          (i: MenuItem) => "  \U{2022} " + i.name + " \U{2014} " + price(i.priceCents),
          (i: MenuItem) => "    _" + i.description + "_")
  }

  function ItemUnit(style: Style, i: MenuItem): (lines: seq<string>)
    ensures lines != []
  {
    [style.priceLine(i)] + (if i.description != "" then [style.descriptionLine(i)] else [])
  }

  // ---- the layout of a menu ----

  /** One piece of a message; indices point into the menu's sections and their items. */
  datatype Entry = Title | Heading(s: nat) | Cont(s: nat) | Item(s: nat, u: nat) | Closing

  datatype Board = Board(style: Style, sections: seq<Section>) {
    predicate Has(e: Entry) {
      match e
      case Title => true
      case Closing => true
      case Heading(s) => s < |sections|
      case Cont(s) => s < |sections|
      case Item(s, u) => s < |sections| && u < |sections[s].items|
    }

    /** Section headings and items only. */
    predicate Plain(es: seq<Entry>) {
      forall i :: 0 <= i < |es| ==> Has(es[i]) && (es[i].Heading? || es[i].Item?)
    }

    predicate HasAll(es: seq<Entry>) {
      forall i :: 0 <= i < |es| ==> Has(es[i])
    }

    function Lines(e: Entry): (lines: seq<string>)
      requires Has(e)
      ensures lines != []
    {
      match e
      case Title => [style.header]
      case Closing => [style.footer]
      case Heading(s) => [sections[s].header]
      case Cont(s) => [sections[s].header + style.cont]
      case Item(s, u) => ItemUnit(style, sections[s].items[u])
    }

    function Text(e: Entry): string
      requires Has(e)
    {
      Join(Lines(e))
    }

    /** How many characters an entry's text has. */
    function Width(): Entry -> nat {
      e => if Has(e) then |Text(e)| else 0
    }

    /** A message: its entries' texts joined by newlines. */
    function Message(es: seq<Entry>): string
      requires HasAll(es)
    {
      if es == [] then ""
      else if |es| == 1 then Text(es[0])
      else Message(es[..|es| - 1]) + "\n" + Text(es[|es| - 1])
    }

    function SectionEntries(s: nat, u: nat): seq<Entry>
      requires s < |sections| && u <= |sections[s].items|
    {
      if u == 0 then [Heading(s)] else SectionEntries(s, u - 1) + [Item(s, u - 1)]
    }

    /** All entries of the first n sections, in order. */
    function Body(n: nat): seq<Entry>
      requires n <= |sections|
    {
      if n == 0 then [] else Body(n - 1) + SectionEntries(n - 1, |sections[n - 1].items|)
    }

    lemma {:induction false} BodyPlain(n: nat)
      requires n <= |sections|
      ensures Plain(Body(n))
    {
      if n > 0 {
        BodyPlain(n - 1);
        SectionPlain(n - 1, |sections[n - 1].items|);
      }
    }

    lemma {:induction false} SectionPlain(s: nat, u: nat)
      requires s < |sections| && u <= |sections[s].items|
      ensures Plain(SectionEntries(s, u))
    {
      if u > 0 {
        SectionPlain(s, u - 1);
      }
    }

    /** Everything before item u of section s. */
    function Upto(s: nat, u: nat): seq<Entry>
      requires s < |sections| && u <= |sections[s].items|
    {
      Body(s) + SectionEntries(s, u)
    }

    /** The whole menu, unsplit. */
    function Layout(): (es: seq<Entry>)
      ensures HasAll(es)
    {
      BodyPlain(|sections|);
      [Title] + Body(|sections|) + [Closing]
    }
  }

  // ---- the splitter ----

  /** Finished messages, the open message, and the running counter. */
  datatype State = State(out: seq<seq<Entry>>, current: seq<Entry>, currentLen: int)

  predicate Readable(b: Board, ms: seq<seq<Entry>>) {
    forall m :: 0 <= m < |ms| ==> ms[m] != [] && b.HasAll(ms[m])
  }

  predicate Usable(b: Board, st: State) {
    Readable(b, st.out) && st.current != [] && b.HasAll(st.current)
  }

  /** Append one entry of the given width, closing the open message first when the counter says it would overflow. */
  function Place(w: Entry -> nat, maxChars: int, st: State, e: Entry): State {
    var n := w(e) + 1;
    if st.currentLen + n <= maxChars then State(st.out, st.current + [e], st.currentLen + n)
    else if e.Item? then State(st.out + [st.current], [Cont(e.s), e], w(Cont(e.s)) + 1 + n)
    else State(st.out + [st.current], [e], n)
  }

  function Placed(w: Entry -> nat, maxChars: int, es: seq<Entry>): State {
    if es == [] then State([], [Title], w(Title))
    else Place(w, maxChars, Placed(w, maxChars, es[..|es| - 1]), es[|es| - 1])
  }

  lemma {:induction false} PlacedUsable(b: Board, maxChars: int, es: seq<Entry>)
    requires b.HasAll(es)
    ensures Usable(b, Placed(b.Width(), maxChars, es))
  {
    if es != [] {
      PlacedUsable(b, maxChars, es[..|es| - 1]);
    }
  }

  function Split(b: Board, maxChars: int): (ms: seq<seq<Entry>>)
    ensures Readable(b, ms)
  {
    var es := b.Body(|b.sections|) + [Closing];
    b.BodyPlain(|b.sections|);
    PlacedUsable(b, maxChars, es);
    var st := Placed(b.Width(), maxChars, es);
    st.out + [st.current]
  }

  function Rendered(b: Board, ms: seq<seq<Entry>>): seq<string>
    requires Readable(b, ms)
  {
    seq(|ms|, m requires 0 <= m < |ms| => b.Message(ms[m]))
  }

  lemma RenderedSnoc(b: Board, ms: seq<seq<Entry>>, m: seq<Entry>)
    requires Readable(b, ms) && m != [] && b.HasAll(m)
    ensures Readable(b, ms + [m])
    ensures Rendered(b, ms + [m]) == Rendered(b, ms) + [b.Message(m)]
  {
  }

  // ---- what a menu says, line by line ----

  datatype Part = HeadingPart(text: string) | PricePart(text: string) | DescriptionPart(text: string)

  function UnitParts(style: Style, i: MenuItem, described: bool): seq<Part> {
    [PricePart(style.priceLine(i))] +
    (if described && i.description != "" then [DescriptionPart(style.descriptionLine(i))] else [])
  }

  function ItemsParts(style: Style, items: seq<MenuItem>, described: bool): seq<Part> {
    if items == [] then []
    else ItemsParts(style, items[..|items| - 1], described) + UnitParts(style, items[|items| - 1], described)
  }

  function SectionParts(style: Style, section: Section, described: bool): seq<Part> {
    [HeadingPart(section.header)] + ItemsParts(style, section.items, described)
  }

  /** Uncategorised items are described only in a full listing. */
  function SectionsParts(style: Style, sections: seq<Section>, full: bool): seq<Part> {
    if sections == [] then []
    else
      var last := sections[|sections| - 1];
      SectionsParts(style, sections[..|sections| - 1], full) + SectionParts(style, last, full || !last.uncategorised)
  }

  lemma Assoc<T>(a: seq<T>, b: seq<T>, c: seq<T>)
    ensures (a + b) + c == a + (b + c)
  {
  }

  lemma ItemsPartsSnoc(style: Style, items: seq<MenuItem>, i: MenuItem, described: bool)
    ensures ItemsParts(style, items + [i], described) == ItemsParts(style, items, described) + UnitParts(style, i, described)
  {
  }

  lemma SectionsPartsSnoc(style: Style, sections: seq<Section>, sec: Section, full: bool)
    ensures SectionsParts(style, sections + [sec], full) ==
            SectionsParts(style, sections, full) + SectionParts(style, sec, full || !sec.uncategorised)
  {
  }

  /** The single reply prints descriptions only under real categories. */
  function ResponseParts(b: Board): seq<Part> {
    SectionsParts(b.style, b.sections, false)
  }

  function EntryParts(b: Board): Entry -> seq<Part> {
    e =>
      if !b.Has(e) then []
      else
        match e
        case Heading(s) => [HeadingPart(b.sections[s].header)]
        case Item(s, u) => UnitParts(b.style, b.sections[s].items[u], true)
        case _ => []
  }

  function Collect(f: Entry -> seq<Part>, es: seq<Entry>): seq<Part> {
    if es == [] then [] else Collect(f, es[..|es| - 1]) + f(es[|es| - 1])
  }

  /** The single reply puts a blank line before every heading. */
  function ResponseLine(p: Part): string {
    match p
    case HeadingPart(text) => "\n" + text
    case PricePart(text) => text
    case DescriptionPart(text) => text
  }

  function ResponseLines(ps: seq<Part>): seq<string> {
    if ps == [] then [] else ResponseLines(ps[..|ps| - 1]) + [ResponseLine(ps[|ps| - 1])]
  }

  lemma {:induction false} ResponseLinesConcat(x: seq<Part>, y: seq<Part>)
    ensures ResponseLines(x + y) == ResponseLines(x) + ResponseLines(y)
  {
    if y == [] {
      assert x + y == x;
    } else {
      assert (x + y)[..|x + y| - 1] == x + y[..|y| - 1];
      ResponseLinesConcat(x, y[..|y| - 1]);
    }
  }

  // ---- the code ----

  function Get(m: map<Option<string>, seq<MenuItem>>, k: Option<string>): seq<MenuItem> {
    if k in m then m[k] else []
  }

  /** Groups the visible items by category into a dictionary that may start with empty lists. */
  method GroupItems(items: seq<MenuItem>, seed: map<Option<string>, seq<MenuItem>>)
    returns (catMap: map<Option<string>, seq<MenuItem>>)
    requires forall k :: k in seed ==> seed[k] == []
    ensures forall k :: Get(catMap, k) == InCategory(items, k)
  {
    catMap := seed;
    for i := 0 to |items|
      invariant forall k :: Get(catMap, k) == InCategory(items[..i], k)
    {
      assert items[..i + 1][..i] == items[..i];
      if Visible(items[i]) {
        var key := items[i].categoryId;
        catMap := catMap[key := Get(catMap, key) + [items[i]]];
      }
    }
    assert items[..|items|] == items;
  }

  lemma CategoryStep(cats: seq<Category>, i: nat, items: seq<MenuItem>)
    requires i < |cats|
    ensures var mine := InCategory(items, Some(cats[i].id));
            CategorySections(cats[..i + 1], items) ==
              if mine == [] then CategorySections(cats[..i], items)
              else CategorySections(cats[..i], items) + [CategorySection(cats[i], mine)]
  {
    assert cats[..i + 1][..i] == cats[..i];
  }

  method CollectCategories(cats: seq<Category>, catMap: map<Option<string>, seq<MenuItem>>, ghost items: seq<MenuItem>)
    returns (sections: seq<Section>)
    requires forall k :: Get(catMap, k) == InCategory(items, k)
    ensures sections == CategorySections(cats, items)
  {
    sections := [];
    for i := 0 to |cats|
      invariant sections == CategorySections(cats[..i], items)
    {
      CategoryStep(cats, i, items);
      var mine := Get(catMap, Some(cats[i].id));
      if mine != [] {
        sections := sections + [CategorySection(cats[i], mine)];
      }
    }
    assert cats[..|cats|] == cats;
  }

  method CollectSections(categories: seq<Category>, items: seq<MenuItem>) returns (sections: seq<Section>)
    ensures sections == SectionsOf(categories, items)
  {
    var seed := map c | c in categories :: Some(c.id) := [];
    var catMap := GroupItems(items, seed);
    sections := CollectCategories(Sorted(categories, CategoryOrder), catMap, items);
    var uncategorised := Get(catMap, None);
    OthersLast(categories, items);
    if uncategorised != [] {
      sections := sections + [Section(OTHER, uncategorised, true)];
    }
  }

  function AllLines(b: Board, es: seq<Entry>): (lines: seq<string>)
    requires b.HasAll(es)
    ensures es != [] ==> lines != []
  {
    if es == [] then [] else AllLines(b, es[..|es| - 1]) + b.Lines(es[|es| - 1])
  }

  lemma {:induction false} JoinAllLines(b: Board, es: seq<Entry>)
    requires b.HasAll(es)
    ensures Join(AllLines(b, es)) == b.Message(es)
  {
    if |es| == 1 {
      assert AllLines(b, es) == b.Lines(es[0]);
    } else if |es| > 1 {
      var n := |es| - 1;
      JoinAllLines(b, es[..n]);
      JoinConcat(AllLines(b, es[..n]), b.Lines(es[n]));
    }
  }

  /** The splitter's variables hold the given abstract state. */
  ghost predicate Mirrors(b: Board, st: State, messages: seq<string>, current: seq<string>, currentLen: int) {
    && Usable(b, st)
    && messages == Rendered(b, st.out)
    && current == AllLines(b, st.current)
    && currentLen == st.currentLen
  }

  lemma FlushMirrors(b: Board, st: State, messages: seq<string>, current: seq<string>, currentLen: int,
                     next: seq<Entry>, nextLen: int)
    requires Mirrors(b, st, messages, current, currentLen)
    requires next != [] && b.HasAll(next)
    ensures current != []
    ensures Mirrors(b, State(st.out + [st.current], next, nextLen), messages + [Join(current)], AllLines(b, next), nextLen)
  {
    RenderedSnoc(b, st.out, st.current);
    JoinAllLines(b, st.current);
  }

  lemma AppendMirrors(b: Board, st: State, messages: seq<string>, current: seq<string>, currentLen: int,
                      e: Entry, nextLen: int)
    requires Mirrors(b, st, messages, current, currentLen)
    requires b.Has(e)
    ensures Mirrors(b, State(st.out, st.current + [e], nextLen), messages, current + b.Lines(e), nextLen)
  {
  }

  method BuildMenuMessages(categories: seq<Category>, items: seq<MenuItem>, price: int -> string, maxChars: int)
    returns (messages: seq<string>)
    ensures items == [] ==> messages == [UPDATING]
    ensures items != [] ==>
              var b := Board(BotStyle(price), SectionsOf(categories, items));
              messages == Rendered(b, Split(b, maxChars))
  {
    if items == [] {
      return [UPDATING];
    }
    var sections := CollectSections(categories, items);
    messages := SplitSections(Board(BotStyle(price), sections), maxChars);
  }

  lemma PlacedSnoc(w: Entry -> nat, maxChars: int, es: seq<Entry>, e: Entry)
    ensures Placed(w, maxChars, es + [e]) == Place(w, maxChars, Placed(w, maxChars, es), e)
  {
  }

  lemma UptoGrows(b: Board, s: nat, u: nat)
    requires b.Has(Item(s, u))
    ensures b.Upto(s, u + 1) == b.Upto(s, u) + [Item(s, u)]
  {
  }

  lemma UptoStarts(b: Board, s: nat)
    requires s < |b.sections|
    ensures b.Upto(s, 0) == b.Body(s) + [Heading(s)]
    ensures b.Upto(s, |b.sections[s].items|) == b.Body(s + 1)
  {
  }

  /** A section heading or the footer: flush the open message when the line would not fit, then append it. */
  method PlaceLine(b: Board, maxChars: int, ghost es: seq<Entry>, ghost e: Entry, line: string,
                   messages: seq<string>, current: seq<string>, currentLen: int)
    returns (messages': seq<string>, current': seq<string>, currentLen': int)
    requires (e.Heading? || e.Closing?) && b.Has(e) && b.Lines(e) == [line]
    requires Mirrors(b, Placed(b.Width(), maxChars, es), messages, current, currentLen)
    ensures Mirrors(b, Placed(b.Width(), maxChars, es + [e]), messages', current', currentLen')
  {
    messages', current', currentLen' := messages, current, currentLen;
    ghost var st := Placed(b.Width(), maxChars, es);
    PlacedSnoc(b.Width(), maxChars, es, e);
    var lineLen := |line| + 1;
    if current' != [] && currentLen' + lineLen > maxChars {
      FlushMirrors(b, st, messages, current, currentLen, [e], lineLen);
      assert AllLines(b, [e]) == [line];
      messages', current', currentLen' := messages' + [Join(current')], [], 0;
    } else {
      AppendMirrors(b, st, messages, current, currentLen, e, currentLen + lineLen);
    }
    current', currentLen' := current' + [line], currentLen' + lineLen;
  }

  /** One item with its description: on overflow the follow-on message repeats the heading. */
  method PlaceUnit(b: Board, maxChars: int, ghost es: seq<Entry>, s: nat, ghost u: nat, lines: seq<string>,
                   messages: seq<string>, current: seq<string>, currentLen: int)
    returns (messages': seq<string>, current': seq<string>, currentLen': int)
    requires b.Has(Item(s, u)) && lines == b.Lines(Item(s, u))
    requires Mirrors(b, Placed(b.Width(), maxChars, es), messages, current, currentLen)
    ensures Mirrors(b, Placed(b.Width(), maxChars, es + [Item(s, u)]), messages', current', currentLen')
  {
    messages', current', currentLen' := messages, current, currentLen;
    ghost var st := Placed(b.Width(), maxChars, es);
    PlacedSnoc(b.Width(), maxChars, es, Item(s, u));
    var unitLen := |Join(lines)| + 1;
    var contHeader := b.sections[s].header + b.style.cont;
    if current' != [] && currentLen' + unitLen > maxChars {
      UnitFlushed(b, st, messages, current, currentLen, s, u, |contHeader| + 1 + unitLen);
      messages' := messages' + [Join(current')];
      current', currentLen' := [contHeader], |contHeader| + 1;
    } else {
      AppendMirrors(b, st, messages, current, currentLen, Item(s, u), currentLen + unitLen);
    }
    current', currentLen' := current' + lines, currentLen' + unitLen;
  }

  lemma PairLines(b: Board, s: nat, u: nat)
    requires b.Has(Item(s, u))
    ensures AllLines(b, [Cont(s), Item(s, u)]) == [b.sections[s].header + b.style.cont] + b.Lines(Item(s, u))
  {
    assert [Cont(s), Item(s, u)][..1] == [Cont(s)];
    assert AllLines(b, [Cont(s)]) == b.Lines(Cont(s));
  }

  lemma UnitFlushed(b: Board, st: State, messages: seq<string>, current: seq<string>, currentLen: int,
                    s: nat, u: nat, nextLen: int)
    requires Mirrors(b, st, messages, current, currentLen) && b.Has(Item(s, u))
    ensures current != []
    ensures Mirrors(b, State(st.out + [st.current], [Cont(s), Item(s, u)], nextLen), messages + [Join(current)],
                    [b.sections[s].header + b.style.cont] + b.Lines(Item(s, u)), nextLen)
  {
    FlushMirrors(b, st, messages, current, currentLen, [Cont(s), Item(s, u)], nextLen);
    PairLines(b, s, u);
  }

  method SplitSections(b: Board, maxChars: int) returns (messages: seq<string>)
    ensures messages == Rendered(b, Split(b, maxChars))
  {
    messages := [];
    var current, currentLen := [b.style.header], |b.style.header|;
    StartMirrors(b, maxChars);
    for s := 0 to |b.sections|
      invariant Mirrors(b, Placed(b.Width(), maxChars, b.Body(s)), messages, current, currentLen)
    {
      messages, current, currentLen := SplitSection(b, maxChars, s, messages, current, currentLen);
    }
    messages := PlaceFooter(b, maxChars, messages, current, currentLen);
  }

  method PlaceFooter(b: Board, maxChars: int, messages: seq<string>, current: seq<string>, currentLen: int)
    returns (messages': seq<string>)
    requires Mirrors(b, Placed(b.Width(), maxChars, b.Body(|b.sections|)), messages, current, currentLen)
    ensures messages' == Rendered(b, Split(b, maxChars))
  {
    ghost var es := b.Body(|b.sections|);
    var current', currentLen';
    messages', current', currentLen' := PlaceLine(b, maxChars, es, Closing, b.style.footer, messages, current, currentLen);
    FinalFlush(b, Placed(b.Width(), maxChars, es + [Closing]), messages', current', currentLen');
    if current' != [] {
      messages' := messages' + [Join(current')];
    }
  }

  lemma FinalFlush(b: Board, st: State, messages: seq<string>, current: seq<string>, currentLen: int)
    requires Mirrors(b, st, messages, current, currentLen)
    ensures Readable(b, st.out + [st.current])
    ensures current != [] && messages + [Join(current)] == Rendered(b, st.out + [st.current])
  {
    RenderedSnoc(b, st.out, st.current);
    JoinAllLines(b, st.current);
  }

  lemma StartMirrors(b: Board, maxChars: int)
    ensures Mirrors(b, Placed(b.Width(), maxChars, b.Body(0)), [], [b.style.header], |b.style.header|)
  {
  }

  method SplitSection(b: Board, maxChars: int, s: nat,
                      messages: seq<string>, current: seq<string>, currentLen: int)
    returns (messages': seq<string>, current': seq<string>, currentLen': int)
    requires s < |b.sections|
    requires Mirrors(b, Placed(b.Width(), maxChars, b.Body(s)), messages, current, currentLen)
    ensures Mirrors(b, Placed(b.Width(), maxChars, b.Body(s + 1)), messages', current', currentLen')
  {
    var section := b.sections[s];
    messages', current', currentLen' :=
      PlaceLine(b, maxChars, b.Body(s), Heading(s), section.header, messages, current, currentLen);
    UptoStarts(b, s);
    for u := 0 to |section.items|
      invariant Mirrors(b, Placed(b.Width(), maxChars, b.Upto(s, u)), messages', current', currentLen')
    {
      UptoGrows(b, s, u);
      messages', current', currentLen' :=
        PlaceUnit(b, maxChars, b.Upto(s, u), s, u, ItemUnit(b.style, section.items[u]),
                  messages', current', currentLen');
    }
  }

  method AppendItem(style: Style, i: MenuItem, described: bool, lines: seq<string>) returns (lines': seq<string>)
    ensures lines' == lines + ResponseLines(UnitParts(style, i, described))
  {
    lines' := lines + [style.priceLine(i)];
    assert ResponseLines([PricePart(style.priceLine(i))]) == [style.priceLine(i)];
    if described && i.description != "" {
      ResponseLinesConcat([PricePart(style.priceLine(i))], [DescriptionPart(style.descriptionLine(i))]);
      lines' := lines' + [style.descriptionLine(i)];
    }
  }

  method AppendItems(style: Style, items: seq<MenuItem>, described: bool, lines: seq<string>)
    returns (lines': seq<string>)
    ensures lines' == lines + ResponseLines(ItemsParts(style, items, described))
  {
    lines' := lines;
    for i := 0 to |items|
      invariant lines' == lines + ResponseLines(ItemsParts(style, items[..i], described))
    {
      ItemAppended(style, items, i, described, lines);
      lines' := AppendItem(style, items[i], described, lines');
    }
    assert items[..|items|] == items;
  }

  lemma ItemAppended(style: Style, items: seq<MenuItem>, i: nat, described: bool, lines: seq<string>)
    requires i < |items|
    ensures lines + ResponseLines(ItemsParts(style, items[..i], described))
              + ResponseLines(UnitParts(style, items[i], described))
            == lines + ResponseLines(ItemsParts(style, items[..i + 1], described))
  {
    assert items[..i + 1] == items[..i] + [items[i]];
    ItemsPartsSnoc(style, items[..i], items[i], described);
    var front, unit := ItemsParts(style, items[..i], described), UnitParts(style, items[i], described);
    ResponseLinesConcat(front, unit);
    Assoc(lines, ResponseLines(front), ResponseLines(unit));
  }

  method AppendSection(style: Style, section: Section, described: bool, lines: seq<string>)
    returns (lines': seq<string>)
    ensures lines' == lines + ResponseLines(SectionParts(style, section, described))
  {
    ResponseLinesConcat([HeadingPart(section.header)], ItemsParts(style, section.items, described));
    assert ResponseLines([HeadingPart(section.header)]) == ["\n" + section.header];
    lines' := AppendItems(style, section.items, described, lines + ["\n" + section.header]);
  }

  lemma SectionAppended(style: Style, sections: seq<Section>, section: Section)
    ensures ResponseLines(SectionsParts(style, sections, false))
              + ResponseLines(SectionParts(style, section, !section.uncategorised))
            == ResponseLines(SectionsParts(style, sections + [section], false))
  {
    SectionsPartsSnoc(style, sections, section, false);
    ResponseLinesConcat(SectionsParts(style, sections, false), SectionParts(style, section, !section.uncategorised));
  }

  function CategoryLines(style: Style, cats: seq<Category>, items: seq<MenuItem>): seq<string> {
    ResponseLines(SectionsParts(style, CategorySections(cats, items), false))
  }

  lemma CategoryAppended(style: Style, cats: seq<Category>, i: nat, items: seq<MenuItem>)
    requires i < |cats|
    ensures var mine := InCategory(items, Some(cats[i].id));
            CategoryLines(style, cats[..i + 1], items) ==
              if mine == [] then CategoryLines(style, cats[..i], items)
              else CategoryLines(style, cats[..i], items)
                   + ResponseLines(SectionParts(style, CategorySection(cats[i], mine), true))
  {
    CategoryStep(cats, i, items);
    var mine := InCategory(items, Some(cats[i].id));
    if mine != [] {
      SectionAppended(style, CategorySections(cats[..i], items), CategorySection(cats[i], mine));
    }
  }

  method AppendCategories(cats: seq<Category>, catMap: map<Option<string>, seq<MenuItem>>, ghost items: seq<MenuItem>,
                          style: Style)
    returns (lines: seq<string>)
    requires forall k :: Get(catMap, k) == InCategory(items, k)
    ensures lines == CategoryLines(style, cats, items)
  {
    lines := [];
    for i := 0 to |cats|
      invariant lines == CategoryLines(style, cats[..i], items)
    {
      CategoryAppended(style, cats, i, items);
      var mine := Get(catMap, Some(cats[i].id));
      if mine != [] {
        lines := AppendSection(style, CategorySection(cats[i], mine), true, lines);
      }
    }
    assert cats[..|cats|] == cats;
  }

  lemma OthersLast(categories: seq<Category>, items: seq<MenuItem>)
    ensures var named, others := CategorySections(Sorted(categories, CategoryOrder), items), InCategory(items, None);
            SectionsOf(categories, items) == if others == [] then named else named + [Section(OTHER, others, true)]
  {
  }

  method MenuLines(categories: seq<Category>, items: seq<MenuItem>, style: Style) returns (lines: seq<string>)
    ensures lines == ResponseLines(SectionsParts(style, SectionsOf(categories, items), false))
  {
    var catMap := GroupItems(items, map[]);
    var cats := Sorted(categories, CategoryOrder);
    lines := AppendCategories(cats, catMap, items, style);
    var others := Get(catMap, None);
    OthersLast(categories, items);
    if others != [] {
      SectionAppended(style, CategorySections(cats, items), Section(OTHER, others, true));
      lines := AppendSection(style, Section(OTHER, others, true), false, lines);
    }
  }

  method MenuResponse(categories: seq<Category>, items: seq<MenuItem>, price: int -> string) returns (text: string)
    ensures items == [] ==> text == UPDATING
    ensures items != [] ==>
              var b := Board(BotStyle(price), SectionsOf(categories, items));
              text == Join([HEADER + "\n"] + ResponseLines(ResponseParts(b)) + ["\n" + FOOTER])
  {
    if items == [] {
      return UPDATING;
    }
    var lines := MenuLines(categories, items, BotStyle(price));
    text := Join([HEADER + "\n"] + lines + ["\n" + FOOTER]);
  }
}
