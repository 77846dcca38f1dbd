/** What the sections of a menu are, in terms of the catalogue, and that no visible item is lost or repeated. */
module MenuCatalogue {
  import opened Common
  import opened Sorting
  import opened Menu
  import opened MenuLaws

  /** The item is active, not deleted, and filed under the category. */
  function FiledUnder(id: string): MenuItem -> bool {
    (i: MenuItem) => i.isActive && !i.isDeleted && i.categoryId == Some(id)
  }

  function FiledNowhere(): MenuItem -> bool {
    (i: MenuItem) => i.isActive && !i.isDeleted && i.categoryId == None
  }

  function FiledUnderAt(id: string, k: int): MenuItem -> bool {
    (i: MenuItem) => i.isActive && !i.isDeleted && i.categoryId == Some(id) && i.sortOrder == k
  }

  /** The category has something to show. */
  function Listed(items: seq<MenuItem>): Category -> bool {
    (c: Category) => exists i :: i in items && FiledUnder(c.id)(i)
  }

  function ListedAt(items: seq<MenuItem>, k: int): Category -> bool {
    (c: Category) => c.sortOrder == k && exists i :: i in items && FiledUnder(c.id)(i)
  }

  /** The section's items ascend by sort order, equal ones in catalogue order, and are exactly the category's visible items. */
  ghost predicate ShowsCategory(section: Section, c: Category, items: seq<MenuItem>) {
    && section.header == "*" + c.name + "*" && !section.uncategorised
    && (forall a, b :: 0 <= a < b < |section.items| ==> section.items[a].sortOrder <= section.items[b].sortOrder)
    && multiset(section.items) == multiset(Select(items, FiledUnder(c.id)))
    && forall k: int :: InOrderAt(section, c, items, k)
  }

  predicate InOrderAt(section: Section, c: Category, items: seq<MenuItem>, k: int) {
    Select(section.items, FiledUnderAt(c.id, k)) == Select(items, FiledUnderAt(c.id, k))
  }

  lemma {:induction false} InCategoryIs(items: seq<MenuItem>, key: Option<string>)
    ensures InCategory(items, key) ==
            Select(items, if key.Some? then FiledUnder(key.value) else FiledNowhere())
  {
    if items != [] {
      InCategoryIs(items[..|items| - 1], key);
    }
  }

  lemma CategoryShown(c: Category, items: seq<MenuItem>)
    ensures ShowsCategory(CategorySection(c, InCategory(items, Some(c.id))), c, items)
  {
    var mine := InCategory(items, Some(c.id));
    var section := CategorySection(c, mine);
    InCategoryIs(items, Some(c.id));
    SortedAscends(mine, ItemOrder);
    forall k: int ensures InOrderAt(section, c, items, k) {
      SectionStable(c, items, k);
    }
  }

  lemma SectionStable(c: Category, items: seq<MenuItem>, k: int)
    ensures InOrderAt(CategorySection(c, InCategory(items, Some(c.id))), c, items, k)
  {
    var mine := InCategory(items, Some(c.id));
    var sorted, at := Sorted(mine, ItemOrder), FiledUnderAt(c.id, k);
    InCategoryIs(items, Some(c.id));
    SortedStable(mine, ItemOrder, k);
    SameElements(sorted, mine);
    WithKeySelects(sorted, ItemOrder, k, at);
    WithKeySelects(mine, ItemOrder, k, at);
    SelectTwice(items, FiledUnder(c.id), at, at);
  }

  lemma SameElements<T(!new)>(xs: seq<T>, ys: seq<T>)
    requires multiset(xs) == multiset(ys)
    ensures forall x :: x in xs <==> x in ys
  {
    assert forall x :: x in xs <==> x in multiset(xs);
    assert forall x :: x in ys <==> x in multiset(ys);
  }

  // ---- the sections, one by one ----

  /** The sections show these categories in turn. */
  ghost predicate ShowsAll(sections: seq<Section>, cats: seq<Category>, items: seq<MenuItem>) {
    |sections| == |cats| && forall s :: 0 <= s < |cats| ==> ShowsCategory(sections[s], cats[s], items)
  }

  lemma {:induction false} CategoriesShown(cats: seq<Category>, items: seq<MenuItem>)
    ensures ShowsAll(CategorySections(cats, items), Select(cats, Listed(items)), items)
  {
    if cats != [] {
      var n := |cats| - 1;
      CategoriesShown(cats[..n], items);
      ShowsNext(CategorySections(cats[..n], items), Select(cats[..n], Listed(items)), cats[n], items);
      NextListed(cats, items);
    }
  }

  /** The sections after one more category. */
  function WithCategory(sections: seq<Section>, c: Category, items: seq<MenuItem>): seq<Section> {
    var mine := InCategory(items, Some(c.id));
    sections + (if mine == [] then [] else [CategorySection(c, mine)])
  }

  function WithListed(cats: seq<Category>, c: Category, items: seq<MenuItem>): seq<Category> {
    cats + (if Listed(items)(c) then [c] else [])
  }

  lemma NextListed(cats: seq<Category>, items: seq<MenuItem>)
    requires cats != []
    ensures var n := |cats| - 1;
            && CategorySections(cats, items) == WithCategory(CategorySections(cats[..n], items), cats[n], items)
            && Select(cats, Listed(items)) == WithListed(Select(cats[..n], Listed(items)), cats[n], items)
  {
  }

  lemma ShowsNext(sections: seq<Section>, cats: seq<Category>, c: Category, items: seq<MenuItem>)
    requires ShowsAll(sections, cats, items)
    ensures ShowsAll(WithCategory(sections, c, items), WithListed(cats, c, items), items)
  {
    InCategoryIs(items, Some(c.id));
    ListedIff(c, items);
    CategoryShown(c, items);
  }

  lemma ListedIff(c: Category, items: seq<MenuItem>)
    ensures Listed(items)(c) <==> Select(items, FiledUnder(c.id)) != []
  {
    var mine := Select(items, FiledUnder(c.id));
    if mine != [] {
      assert mine[0] in mine;
    }
  }

  /** "Other" closes the menu when something visible is filed nowhere, and holds exactly that, in catalogue order. */
  predicate ShowsOther(sections: seq<Section>, named: nat, items: seq<MenuItem>) {
    var others := Select(items, FiledNowhere());
    if others == [] then |sections| == named
    else |sections| == named + 1 && sections[named] == Section("*Other*", others, true)
  }

  /**
   * The categories with something to show come first, by category order and stably, each with exactly its visible items
   * by sort order and stably; what is filed nowhere comes last.
   */
  lemma SectionsOfCatalogue(categories: seq<Category>, items: seq<MenuItem>) returns (shown: seq<Category>)
    ensures forall a, b :: 0 <= a < b < |shown| ==> shown[a].sortOrder <= shown[b].sortOrder
    ensures multiset(shown) == multiset(Select(categories, Listed(items)))
    ensures forall k: int :: Select(shown, ListedAt(items, k)) == Select(categories, ListedAt(items, k))
    ensures var sections := SectionsOf(categories, items);
            |shown| <= |sections| && ShowsAll(sections[..|shown|], shown, items) && ShowsOther(sections, |shown|, items)
  {
    var cats := Sorted(categories, CategoryOrder);
    shown := Select(cats, Listed(items));
    CategoriesShown(cats, items);
    InCategoryIs(items, None);
    SortedAscends(categories, CategoryOrder);
    SelectAscends(cats, Listed(items));
    SelectMultiset(categories, cats, Listed(items));
    forall k: int ensures Select(shown, ListedAt(items, k)) == Select(categories, ListedAt(items, k)) {
      CategoriesStable(categories, items, k);
    }
    var sections := SectionsOf(categories, items);
    assert sections[..|shown|] == CategorySections(cats, items);
  }

  function OrderIs(k: int): Category -> bool {
    (c: Category) => c.sortOrder == k
  }

  lemma CategoriesStable(categories: seq<Category>, items: seq<MenuItem>, k: int)
    ensures Select(Select(Sorted(categories, CategoryOrder), Listed(items)), ListedAt(items, k))
            == Select(categories, ListedAt(items, k))
  {
    var cats := Sorted(categories, CategoryOrder);
    SortedStable(categories, CategoryOrder, k);
    WithKeySelects(cats, CategoryOrder, k, OrderIs(k));
    WithKeySelects(categories, CategoryOrder, k, OrderIs(k));
    SelectTwice(cats, Listed(items), ListedAt(items, k), ListedAt(items, k));
    SelectTwice(cats, OrderIs(k), ListedAt(items, k), ListedAt(items, k));
    SelectTwice(categories, OrderIs(k), ListedAt(items, k), ListedAt(items, k));
  }

  lemma {:induction false} SelectAscends(cats: seq<Category>, p: Category -> bool)
    requires Ascends(cats, CategoryOrder)
    ensures Ascends(Select(cats, p), CategoryOrder)
  {
    if cats != [] {
      var n := |cats| - 1;
      assert cats == cats[..n] + [cats[n]];
      SelectAscends(cats[..n], p);
      var front := Select(cats[..n], p);
      forall a | 0 <= a < |front| ensures CategoryOrder(front[a]) <= CategoryOrder(cats[n]) {
        assert front[a] in front;
        var i :| 0 <= i < n && cats[..n][i] == front[a];
      }
    }
  }

  /** Selecting commutes with reordering. */
  lemma {:induction false} SelectMultiset<T(!new)>(xs: seq<T>, ys: seq<T>, p: T -> bool)
    requires multiset(xs) == multiset(ys)
    ensures multiset(Select(xs, p)) == multiset(Select(ys, p))
  {
    forall x ensures multiset(Select(xs, p))[x] == multiset(Select(ys, p))[x] {
      SelectCount(xs, p, x);
      SelectCount(ys, p, x);
    }
  }

  lemma {:induction false} SelectCount<T(!new)>(xs: seq<T>, p: T -> bool, x: T)
    ensures multiset(Select(xs, p))[x] == if p(x) then multiset(xs)[x] else 0
  {
    if xs != [] {
      var n := |xs| - 1;
      assert xs == xs[..n] + [xs[n]];
      SelectCount(xs[..n], p, x);
    }
  }

  // ---- nothing lost, nothing repeated ----

  /** The items a list of entries shows, in order. */
  function Shown(b: Board, es: seq<Entry>): seq<MenuItem> {
    if es == [] then []
    else
      var last := es[|es| - 1];
      Shown(b, es[..|es| - 1]) + (if last.Item? && b.Has(last) then [b.sections[last.s].items[last.u]] else [])
  }

  lemma {:induction false} ShownConcat(b: Board, x: seq<Entry>, y: seq<Entry>)
    ensures Shown(b, x + y) == Shown(b, x) + Shown(b, y)
  {
    if y == [] {
      assert x + y == x;
    } else {
      assert (x + y)[..|x + y| - 1] == x + y[..|y| - 1];
      ShownConcat(b, x, y[..|y| - 1]);
    }
  }

  lemma ShownSnoc(b: Board, es: seq<Entry>, e: Entry)
    ensures Shown(b, es + [e]) ==
            if e.Item? && b.Has(e) then Shown(b, es) + [b.sections[e.s].items[e.u]] else Shown(b, es)
  {
    assert (es + [e])[..|es|] == es;
  }

  /** Repeated headings show nothing. */
  lemma {:induction false} ShownDropCont(b: Board, es: seq<Entry>)
    ensures Shown(b, DropCont(es)) == Shown(b, es)
  {
    if es != [] {
      var front, last := es[..|es| - 1], es[|es| - 1];
      ShownDropCont(b, front);
      ShownSnoc(b, front, last);
      ShownSnoc(b, DropCont(front), last);
      assert es == front + [last];
      assert DropCont(es) == if last.Cont? then DropCont(front) else DropCont(front) + [last];
    }
  }

  lemma {:induction false} ShownSection(b: Board, s: nat, u: nat)
    requires s < |b.sections| && u <= |b.sections[s].items|
    ensures Shown(b, b.SectionEntries(s, u)) == b.sections[s].items[..u]
  {
    if u == 0 {
      assert [Heading(s)][..0] == [];
    } else {
      ShownSection(b, s, u - 1);
      var es := b.SectionEntries(s, u - 1);
      assert (es + [Item(s, u - 1)])[..|es|] == es;
    }
  }

  function AllItems(sections: seq<Section>): seq<MenuItem> {
    if sections == [] then [] else AllItems(sections[..|sections| - 1]) + sections[|sections| - 1].items
  }

  lemma {:induction false} ShownBody(b: Board, n: nat)
    requires n <= |b.sections|
    ensures Shown(b, b.Body(n)) == AllItems(b.sections[..n])
  {
    if n > 0 {
      ShownBody(b, n - 1);
      var items := b.sections[n - 1].items;
      ShownSection(b, n - 1, |items|);
      ShownConcat(b, b.Body(n - 1), b.SectionEntries(n - 1, |items|));
      assert b.sections[..n][..n - 1] == b.sections[..n - 1] && items[..|items|] == items;
    }
  }

  /** The split messages together show the items of the sections, in order, each once. */
  lemma SplitShows(b: Board, maxChars: int)
    ensures Shown(b, Flatten(Split(b, maxChars))) == AllItems(b.sections)
  {
    var body := b.Body(|b.sections|);
    SplitKeepsContent(b, maxChars);
    ShownDropCont(b, Flatten(Split(b, maxChars)));
    ShownSnoc(b, [Title] + body, Closing);
    ShownConcat(b, [Title], body);
    ShownSnoc(b, [], Title);
    assert [] + [Title] == [Title];
    ShownBody(b, |b.sections|);
    assert b.sections[..|b.sections|] == b.sections;
  }

  predicate DistinctIds(cats: seq<Category>) {
    forall a, b :: 0 <= a < b < |cats| ==> cats[a].id != cats[b].id
  }

  /** Visible, and filed under one of the categories. */
  function FiledAmong(cats: seq<Category>): MenuItem -> bool {
    (i: MenuItem) => exists c :: c in cats && FiledUnder(c.id)(i)
  }

  /** Visible, and filed under one of the categories or nowhere. */
  function OnTheMenu(cats: seq<Category>): MenuItem -> bool {
    (i: MenuItem) => i.isActive && !i.isDeleted && (i.categoryId == None || exists c :: c in cats && i.categoryId == Some(c.id))
  }

  lemma {:induction false} NamedItems(cats: seq<Category>, items: seq<MenuItem>)
    requires DistinctIds(cats)
    ensures multiset(AllItems(CategorySections(cats, items))) == multiset(Select(items, FiledAmong(cats)))
  {
    if cats == [] {
      NoneSelected(items, FiledAmong(cats));
    } else {
      var n := |cats| - 1;
      var mine := InCategory(items, Some(cats[n].id));
      NamedItems(cats[..n], items);
      InCategoryIs(items, Some(cats[n].id));
      FiledApart(cats, items);
      SelectEither(items, FiledAmong(cats[..n]), FiledUnder(cats[n].id), FiledAmong(cats));
      LastSectionItems(cats, items);
    }
  }

  lemma LastSectionItems(cats: seq<Category>, items: seq<MenuItem>)
    requires cats != []
    ensures var n := |cats| - 1;
            multiset(AllItems(CategorySections(cats, items)))
            == multiset(AllItems(CategorySections(cats[..n], items))) + multiset(InCategory(items, Some(cats[n].id)))
  {
    var n := |cats| - 1;
    var mine := InCategory(items, Some(cats[n].id));
    if mine == [] {
      assert CategorySections(cats, items) == CategorySections(cats[..n], items);
    } else {
      AllItemsSnoc(CategorySections(cats[..n], items), CategorySection(cats[n], mine));
    }
  }

  lemma {:induction false} NoneSelected(items: seq<MenuItem>, p: MenuItem -> bool)
    requires forall i :: i in items ==> !p(i)
    ensures Select(items, p) == []
  {
    if items != [] {
      var n := |items| - 1;
      assert items == items[..n] + [items[n]];
      NoneSelected(items[..n], p);
    }
  }

  lemma FiledApart(cats: seq<Category>, items: seq<MenuItem>)
    requires cats != [] && DistinctIds(cats)
    ensures var n := |cats| - 1;
            forall i :: i in items ==>
              !(FiledAmong(cats[..n])(i) && FiledUnder(cats[n].id)(i))
              && (FiledAmong(cats)(i) <==> FiledAmong(cats[..n])(i) || FiledUnder(cats[n].id)(i))
  {
    var n := |cats| - 1;
    assert cats == cats[..n] + [cats[n]];
    forall i | i in items && FiledAmong(cats[..n])(i) ensures !FiledUnder(cats[n].id)(i) {
      var c :| c in cats[..n] && FiledUnder(c.id)(i);
      var a :| 0 <= a < n && cats[..n][a] == c;
      assert cats[a].id != cats[n].id;
    }
  }

  lemma SortedIdsDistinct(categories: seq<Category>)
    requires DistinctIds(categories)
    ensures DistinctIds(Sorted(categories, CategoryOrder))
  {
    var cats := Sorted(categories, CategoryOrder);
    forall a, b | 0 <= a < b < |cats| ensures cats[a].id != cats[b].id {
      if cats[a].id == cats[b].id {
        IdCountSame(categories, cats, cats[a].id);
        IdOnce(categories, cats[a].id);
        IdTwice(cats, a, b);
        assert false;
      }
    }
  }

  function IdIs(id: string): Category -> bool {
    (c: Category) => c.id == id
  }

  lemma IdCountSame(xs: seq<Category>, ys: seq<Category>, id: string)
    requires multiset(xs) == multiset(ys)
    ensures |Select(xs, IdIs(id))| == |Select(ys, IdIs(id))|
  {
    SelectMultiset(xs, ys, IdIs(id));
    assert |multiset(Select(xs, IdIs(id)))| == |multiset(Select(ys, IdIs(id)))|;
  }

  lemma {:induction false} IdOnce(cats: seq<Category>, id: string)
    requires DistinctIds(cats)
    ensures |Select(cats, IdIs(id))| <= 1
  {
    if cats != [] {
      var n := |cats| - 1;
      IdOnce(cats[..n], id);
      if cats[n].id == id {
        IdNever(cats[..n], id);
      }
    }
  }

  lemma {:induction false} IdNever(cats: seq<Category>, id: string)
    requires forall a :: 0 <= a < |cats| ==> cats[a].id != id
    ensures Select(cats, IdIs(id)) == []
  {
    if cats != [] {
      IdNever(cats[..|cats| - 1], id);
    }
  }

  lemma {:induction false} IdTwice(cats: seq<Category>, a: nat, b: nat)
    requires a < b < |cats| && cats[a].id == cats[b].id
    ensures |Select(cats, IdIs(cats[a].id))| >= 2
  {
    var n := |cats| - 1;
    if b < n {
      IdTwice(cats[..n], a, b);
    } else {
      var front := Select(cats[..n], IdIs(cats[a].id));
      assert cats[..n][a] in front;
    }
  }

  lemma AllItemsSnoc(sections: seq<Section>, s: Section)
    ensures AllItems(sections + [s]) == AllItems(sections) + s.items
  {
    assert (sections + [s])[..|sections|] == sections;
  }

  lemma SectionItems(categories: seq<Category>, items: seq<MenuItem>)
    requires DistinctIds(categories)
    ensures multiset(AllItems(SectionsOf(categories, items))) == multiset(Select(items, OnTheMenu(categories)))
  {
    var cats := Sorted(categories, CategoryOrder);
    var named, others := CategorySections(cats, items), InCategory(items, None);
    SortedIdsDistinct(categories);
    SameElements(cats, categories);
    NamedItems(cats, items);
    InCategoryIs(items, None);
    SelectEither(items, FiledAmong(cats), FiledNowhere(), OnTheMenu(categories));
    if others != [] {
      AllItemsSnoc(named, Section(OTHER, others, true));
    } else {
      assert SectionsOf(categories, items) == named;
    }
  }

  /**
   * With distinct category ids the split messages together show every active, not deleted item that is filed under a
   * category of the menu or nowhere exactly once, and nothing else, at every message length.
   */
  lemma EveryItemOnce(categories: seq<Category>, items: seq<MenuItem>, style: Style, maxChars: int)
    requires DistinctIds(categories)
    ensures var b := Board(style, SectionsOf(categories, items));
            multiset(Shown(b, Flatten(Split(b, maxChars)))) == multiset(Select(items, OnTheMenu(categories)))
  {
    SplitShows(Board(style, SectionsOf(categories, items)), maxChars);
    SectionItems(categories, items);
  }

  // ---- what the entries read ----

  /** The bot's lines: title, headings, the repeated heading's mark, each item's price line and description, closing. */
  lemma EntryLines(price: int -> string, sections: seq<Section>, e: Entry)
    requires Board(BotStyle(price), sections).Has(e)
    ensures Board(BotStyle(price), sections).Lines(e) ==
            match e
            case Title => ["\U{1F4CB} *Our Menu*"]
            case Closing => ["To order, just tell me what you'd like! \U{1F37D}\U{FE0F}"]
            case Heading(s) => [sections[s].header]
            case Cont(s) => [sections[s].header + " (cont.)"]
            case Item(s, u) =>
              var i := sections[s].items[u];
              ["  \U{2022} " + i.name + " \U{2014} " + price(i.priceCents)]
              + (if i.description == "" then [] else ["    _" + i.description + "_"])
  {
  }

  /** A message is its entries' lines joined by newlines. */
  lemma MessageReads(b: Board, es: seq<Entry>, e: Entry)
    requires b.HasAll(es) && b.Has(e)
    ensures b.Message([e]) == Join(b.Lines(e))
    ensures es != [] ==> b.HasAll(es + [e]) && b.Message(es + [e]) == b.Message(es) + "\n" + Join(b.Lines(e))
  {
    assert (es + [e])[..|es|] == es;
  }

  /** The single reply reads, after each blank-led heading, the price lines and the descriptions it prints. */
  lemma ResponseReads(style: Style, i: MenuItem, described: bool)
    ensures ResponseLines(UnitParts(style, i, described)) ==
            [style.priceLine(i)] + (if described && i.description != "" then [style.descriptionLine(i)] else [])
  {
    ResponseLinesConcat([PricePart(style.priceLine(i))],
                        if described && i.description != "" then [DescriptionPart(style.descriptionLine(i))] else []);
    OnePart(PricePart(style.priceLine(i)));
    OnePart(DescriptionPart(style.descriptionLine(i)));
    assert ResponseLines([]) == [];
  }

  lemma OnePart(p: Part)
    ensures ResponseLines([p]) == [if p.HeadingPart? then "\n" + p.text else p.text]
  {
    assert [p][..0] == [];
  }
}
