/** Finding the JSON object in a model's reply: the backward brace scan. */
module JsonScan {
  import opened Common

  function Score(c: char): int {
    if c == '}' then 1 else if c == '{' then -1 else 0
  }

  /** Closing braces minus opening braces from position k to the end. */
  function Depth(s: string, k: nat): int
    requires k <= |s|
    decreases |s| - k
  {
    if k == |s| then 0 else Score(s[k]) + Depth(s, k + 1)
  }

  predicate IsStart(text: string, k: nat) {
    k < |text| && text[k] == '{' && Depth(text, k + 1) == 1
  }

  ghost predicate NoStart(text: string, from: nat) {
    forall k: nat :: from <= k < |text| ==> !IsStart(text, k)
  }

  predicate AllOpen(text: string, lo: nat, hi: nat)
    requires hi < |text|
  {
    forall j: nat :: lo <= j <= hi ==> Depth(text, j) > 0
  }

  datatype Span = Span(start: nat, end: nat)

  /**
   * What the scan returns: the rightmost opening brace that closes depth one, together with the nearest
   * position to its right after which the braces cancel out; nothing exactly when there is no such brace.
   */
  ghost predicate IsScan(text: string, r: Option<Span>) {
    match r
    case None => NoStart(text, 0)
    case Some(span) =>
      && IsStart(text, span.start) && NoStart(text, span.start + 1)
      && span.start < span.end < |text| && text[span.end] == '}'
      && Depth(text, span.end + 1) == 0
      && AllOpen(text, span.start + 1, span.end)
  }

  method Scan(text: string) returns (r: Option<Span>)
    ensures IsScan(text, r)
  {
    var depth := 0;
    var start: Option<nat>, end: nat := None, 0;
    var i := |text|;
    while i > 0
      invariant 0 <= i <= |text| && depth == Depth(text, i) && start.None? && NoStart(text, i)
      invariant depth > 0 ==>
                  i <= end < |text| && text[end] == '}' && Depth(text, end + 1) == 0 && AllOpen(text, i, end)
    {
      i := i - 1;
      if text[i] == '}' {
        if depth == 0 {
          end := i;
        }
        depth := depth + 1;
      } else if text[i] == '{' {
        depth := depth - 1;
        if depth == 0 {
          start := Some(i);
          break;
        }
      }
    }
    r := if start.Some? then Some(Span(start.value, end)) else None;
  }

  /** The description leaves no choice. */
  lemma ScanUnique(text: string, r: Option<Span>, q: Option<Span>)
    requires IsScan(text, r) && IsScan(text, q)
    ensures r == q
  {
  }

  // ---- balanced slices ----

  /** Opened by its first brace, balanced, and from the right balanced nowhere before that brace. */
  predicate Primitive(s: string) {
    |s| > 0 && s[0] == '{' && Depth(s, 0) == 0 && forall j: nat :: 0 < j < |s| ==> Depth(s, j) > 0
  }

  /** Balanced, and never more openings than closings from the right. */
  predicate Nested(s: string) {
    Depth(s, 0) == 0 && forall j: nat :: j <= |s| ==> Depth(s, j) >= 0
  }

  predicate BraceFree(s: string) {
    forall k :: 0 <= k < |s| ==> s[k] != '{' && s[k] != '}'
  }

  lemma {:induction false} DepthOfSlice(text: string, lo: nat, hi: nat, j: nat)
    requires lo <= hi <= |text| && j <= hi - lo
    ensures Depth(text, lo + j) == Depth(text[lo..hi], j) + Depth(text, hi)
    decreases hi - lo - j
  {
    if j < hi - lo {
      DepthOfSlice(text, lo, hi, j + 1);
    }
  }

  lemma DepthInFirst(s: string, t: string, j: nat)
    requires j <= |s|
    ensures Depth(s + t, j) == Depth(s, j) + Depth(t, 0)
  {
    assert (s + t)[..|s|] == s;
    DepthOfSlice(s + t, 0, |s|, j);
    DepthInSecond(s, t, 0);
  }

  lemma DepthInSecond(s: string, t: string, j: nat)
    requires j <= |t|
    ensures Depth(s + t, |s| + j) == Depth(t, j)
  {
    assert (s + t)[|s|..|s + t|] == t;
    DepthOfSlice(s + t, |s|, |s + t|, j);
  }

  /** Whatever the text, what the scan returns is a primitive block followed by a balanced rest. */
  lemma FoundIsPrimitive(text: string, span: Span)
    requires IsScan(text, Some(span))
    ensures Primitive(text[span.start..span.end + 1])
  {
    var block := text[span.start..span.end + 1];
    forall j: nat | j < |block| ensures Depth(block, j) == Depth(text, span.start + j) {
      DepthOfSlice(text, span.start, span.end + 1, j);
    }
  }

  /** The starts of `s + t` that lie in `t` are the starts of `t`. */
  lemma StartsOfSecond(s: string, t: string, k: nat)
    requires k < |t|
    ensures IsStart(s + t, |s| + k) <==> IsStart(t, k)
  {
    DepthInSecond(s, t, k + 1);
  }

  lemma NoStartOfSecond(s: string, t: string)
    ensures NoStart(s + t, |s|) <==> NoStart(t, 0)
  {
    forall k: nat | k < |t| ensures IsStart(s + t, |s| + k) <==> IsStart(t, k) {
      StartsOfSecond(s, t, k);
    }
    forall k: nat | |s| <= k < |s + t| ensures IsStart(s + t, k) <==> IsStart(t, k - |s|) {
    }
    if NoStart(s + t, |s|) {
      forall k: nat | k < |t| ensures !IsStart(t, k) {
        assert !IsStart(s + t, |s| + k);
      }
    }
  }

  /** A start needs depth one behind it, so behind the first brace of a primitive block there is none. */
  lemma NoStartInside(o: string, t: string)
    requires Primitive(o) && Depth(t, 0) == 0 && NoStart(t, 0)
    ensures NoStart(o + t, 1)
  {
    NoStartOfSecond(o, t);
    forall k: nat | 1 <= k < |o + t| ensures !IsStart(o + t, k) {
      if k < |o| {
        DepthInFirst(o, t, k);
        DepthInFirst(o, t, k + 1);
        assert (o + t)[k] == o[k];
        assert Depth(o, k) == Score(o[k]) + Depth(o, k + 1);
      }
    }
  }

  lemma PrimitiveEnds(o: string)
    requires Primitive(o)
    ensures |o| >= 2 && o[0] == '{' && o[|o| - 1] == '}' && Depth(o, 1) == 1
  {
    assert |o| > 1 ==> Depth(o, |o| - 1) == Score(o[|o| - 1]);
    assert Depth(o, 0) == Score(o[0]) + Depth(o, 1);
  }

  /** Where the block o sits in the text before + o + tail. */
  function BlockSpan(before: string, o: string): Span
    requires |o| > 0
  {
    Span(|before|, |before| + |o| - 1)
  }

  /** Without a prefix. */
  lemma ScanOfBlock(o: string, tail: string)
    requires Primitive(o) && Depth(tail, 0) == 0 && NoStart(tail, 0)
    ensures IsScan(o + tail, Some(Span(0, |o| - 1)))
  {
    PrimitiveEnds(o);
    NoStartInside(o, tail);
    DepthInSecond(o, tail, 0);
    forall j: nat | 0 <= j <= |o| - 1 ensures Depth(o + tail, j) == Depth(o, j) {
      DepthInFirst(o, tail, j);
    }
  }

  /** A prefix shifts a found span and hides nothing. */
  lemma ScanShifts(before: string, text: string, span: Span)
    requires IsScan(text, Some(span))
    ensures IsScan(before + text, Some(Span(|before| + span.start, |before| + span.end)))
  {
    var all, n := before + text, |before|;
    forall j: nat | n <= j <= |all| ensures Depth(all, j) == Depth(text, j - n) {
      DepthInSecond(before, text, j - n);
    }
    assert forall j: nat :: n <= j < |all| ==> all[j] == text[j - n];
    forall k: nat | n + span.start + 1 <= k < |all| ensures !IsStart(all, k) {
      assert !IsStart(text, k - n);
    }
  }

  lemma ScanReturnsBlock(before: string, o: string, tail: string)
    requires Primitive(o) && Depth(tail, 0) == 0 && NoStart(tail, 0)
    ensures IsScan(before + (o + tail), Some(BlockSpan(before, o)))
  {
    ScanOfBlock(o, tail);
    ScanShifts(before, o + tail, Span(0, |o| - 1));
  }

  /**
   * In any text before + o + tail the scan returns exactly o if and only if o is a primitive block and
   * the braces of the tail cancel out without forming a block of their own.
   */
  lemma ReturnsBlockIff(before: string, o: string, tail: string, r: Option<Span>)
    requires |o| > 0 && IsScan(before + (o + tail), r)
    ensures r == Some(BlockSpan(before, o)) <==> Primitive(o) && Depth(tail, 0) == 0 && NoStart(tail, 0)
  {
    var text, span := before + (o + tail), BlockSpan(before, o);
    if r == Some(span) {
      FoundIsPrimitive(text, span);
      assert text[span.start..span.end + 1] == o;
      assert text == (before + o) + tail;
      NoStartOfSecond(before + o, tail);
      DepthInSecond(before + o, tail, 0);
    }
    if Primitive(o) && Depth(tail, 0) == 0 && NoStart(tail, 0) {
      ScanReturnsBlock(before, o, tail);
      ScanUnique(text, r, Some(span));
    }
  }

  // ---- printed JSON ----

  /** A JSON value as printed; Padded is insignificant white space around a value. */
  datatype Json =
    | Null
    | Bool(b: bool)
    | Num(literal: string)
    | Str(chars: string)
    | Arr(items: seq<Json>)
    | Obj(members: seq<Member>)
    | Padded(before: string, value: Json, after: string)

  datatype Member = Member(before: string, name: string, after: string, value: Json)

  function Escaped(s: string): string {
    if s == "" then ""
    else (if s[0] == '"' || s[0] == '\\' then ['\\', s[0]] else [s[0]]) + Escaped(s[1..])
  }

  function Quoted(s: string): string {
    "\"" + (Escaped(s) + "\"")
  }

  function Print(v: Json): string {
    match v
    case Null => "null"
    case Bool(b) => if b then "true" else "false"
    case Num(literal) => literal
    case Str(chars) => Quoted(chars)
    case Arr(items) => "[" + (PrintItems(items) + "]")
    case Obj(members) => "{" + (PrintMembers(members) + "}")
    case Padded(before, value, after) => before + (Print(value) + after)
  }

  function PrintItems(items: seq<Json>): string {
    if items == [] then ""
    else if |items| == 1 then Print(items[0])
    else Print(items[0]) + ("," + PrintItems(items[1..]))
  }

  function PrintMember(m: Member): string {
    (m.before + Quoted(m.name)) + ((m.after + ":") + Print(m.value))
  }

  function PrintMembers(members: seq<Member>): string {
    if members == [] then ""
    else if |members| == 1 then PrintMember(members[0])
    else PrintMember(members[0]) + ("," + PrintMembers(members[1..]))
  }

  /** No string, name or literal of the tree holds a brace. */
  predicate Plain(v: Json) {
    match v
    case Null => true
    case Bool(_) => true
    case Num(literal) => BraceFree(literal)
    case Str(chars) => BraceFree(chars)
    case Arr(items) => forall i :: 0 <= i < |items| ==> Plain(items[i])
    case Obj(members) => forall i :: 0 <= i < |members| ==> PlainMember(members[i])
    case Padded(before, value, after) => BraceFree(before) && Plain(value) && BraceFree(after)
  }

  predicate PlainMember(m: Member) {
    BraceFree(m.before) && BraceFree(m.name) && BraceFree(m.after) && Plain(m.value)
  }

  lemma {:induction false} BraceFreeDepth(s: string, k: nat)
    requires BraceFree(s) && k <= |s|
    ensures Depth(s, k) == 0
    decreases |s| - k
  {
    if k < |s| {
      BraceFreeDepth(s, k + 1);
    }
  }

  lemma BraceFreeNested(s: string)
    requires BraceFree(s)
    ensures Nested(s)
  {
    forall j: nat | j <= |s| ensures Depth(s, j) == 0 {
      BraceFreeDepth(s, j);
    }
  }

  lemma {:induction false} EscapedBraceFree(s: string)
    requires BraceFree(s)
    ensures BraceFree(Escaped(s))
  {
    if s != "" {
      EscapedBraceFree(s[1..]);
    }
  }

  lemma QuotedNested(s: string)
    requires BraceFree(s)
    ensures Nested(Quoted(s))
  {
    EscapedBraceFree(s);
    BraceFreeNested(Quoted(s));
  }

  lemma NestedConcat(a: string, b: string)
    requires Nested(a) && Nested(b)
    ensures Nested(a + b)
  {
    forall j: nat | j <= |a| ensures Depth(a + b, j) == Depth(a, j) {
      DepthInFirst(a, b, j);
    }
    forall j: nat | |a| <= j <= |a + b| ensures Depth(a + b, j) == Depth(b, j - |a|) {
      DepthInSecond(a, b, j - |a|);
    }
  }

  lemma Closed(body: string)
    requires Nested(body)
    ensures Depth(body + "}", |body| + 1) == 0
    ensures forall j: nat :: j <= |body| ==> Depth(body + "}", j) > 0
    ensures Depth(body + "}", 0) == 1
  {
    assert Depth("}", 0) == 1;
    forall j: nat | j <= |body| ensures Depth(body + "}", j) == Depth(body, j) + 1 {
      DepthInFirst(body, "}", j);
    }
  }

  lemma Enclosed(body: string)
    requires Nested(body)
    ensures Primitive("{" + (body + "}")) && Nested("{" + (body + "}"))
  {
    var rest := body + "}";
    Closed(body);
    forall j: nat | 1 <= j <= |rest| + 1 ensures Depth("{" + rest, j) == Depth(rest, j - 1) {
      DepthInSecond("{", rest, j - 1);
    }
    assert Depth("{" + rest, 0) == -1 + Depth("{" + rest, 1);
  }

  lemma {:induction false} PrintNested(v: Json)
    requires Plain(v)
    ensures Nested(Print(v))
    decreases v
  {
    match v
    case Null => BraceFreeNested("null");
    case Bool(b) => BraceFreeNested(Print(v));
    case Num(literal) => BraceFreeNested(literal);
    case Str(chars) => QuotedNested(chars);
    case Arr(items) =>
      ItemsNested(items);
      BraceFreeNested("[");
      BraceFreeNested("]");
      NestedConcat(PrintItems(items), "]");
      NestedConcat("[", PrintItems(items) + "]");
    case Obj(members) =>
      MembersNested(members);
      Enclosed(PrintMembers(members));
    case Padded(before, value, after) =>
      PrintNested(value);
      BraceFreeNested(before);
      BraceFreeNested(after);
      NestedConcat(Print(value), after);
      NestedConcat(before, Print(value) + after);
  }

  lemma {:induction false} ItemsNested(items: seq<Json>)
    requires forall i :: 0 <= i < |items| ==> Plain(items[i])
    ensures Nested(PrintItems(items))
    decreases items
  {
    if items == [] {
      BraceFreeNested("");
    } else {
      PrintNested(items[0]);
      if |items| > 1 {
        ItemsNested(items[1..]);
        BraceFreeNested(",");
        NestedConcat(",", PrintItems(items[1..]));
        NestedConcat(Print(items[0]), "," + PrintItems(items[1..]));
      }
    }
  }

  lemma {:induction false} MemberNested(m: Member)
    requires PlainMember(m)
    ensures Nested(PrintMember(m))
    decreases m
  {
    PrintNested(m.value);
    QuotedNested(m.name);
    BraceFreeNested(m.before);
    BraceFreeNested(m.after + ":");
    NestedConcat(m.before, Quoted(m.name));
    NestedConcat(m.after + ":", Print(m.value));
    NestedConcat(m.before + Quoted(m.name), (m.after + ":") + Print(m.value));
  }

  lemma {:induction false} MembersNested(members: seq<Member>)
    requires forall i :: 0 <= i < |members| ==> PlainMember(members[i])
    ensures Nested(PrintMembers(members))
    decreases members
  {
    if members == [] {
      BraceFreeNested("");
    } else {
      MemberNested(members[0]);
      if |members| > 1 {
        MembersNested(members[1..]);
        BraceFreeNested(",");
        NestedConcat(",", PrintMembers(members[1..]));
        NestedConcat(PrintMember(members[0]), "," + PrintMembers(members[1..]));
      }
    }
  }

  /**
   * After any text, a printed object without braces in its strings and followed by brace-free text is
   * exactly what the scan returns.
   */
  lemma PrintedObjectFound(before: string, members: seq<Member>, tail: string, r: Option<Span>)
    requires Plain(Obj(members)) && BraceFree(tail)
    requires IsScan(before + (Print(Obj(members)) + tail), r)
    ensures r == Some(BlockSpan(before, Print(Obj(members))))
  {
    MembersNested(members);
    Enclosed(PrintMembers(members));
    BraceFreeDepth(tail, 0);
    ReturnsBlockIff(before, Print(Obj(members)), tail, r);
  }

  /** A closing brace inside a string hides the object: here the whole reply is one object, and none is found. */
  lemma BraceInStringHides(r: Option<Span>)
    requires IsScan(Print(Obj([Member("", "a", "", Str("}"))])), r)
    ensures r == None
  {
  }

  /** How an array prints, on one example. */
  lemma ArrayReads()
    ensures Print(Arr([Bool(true), Null])) == "[true,null]"
  {
    assert [Bool(true), Null][1..] == [Null];
    assert PrintItems([Null]) == "null";
  }

  /** How an object prints, on one example: the spaces of a member stand where the printer puts them. */
  lemma ObjectReads()
    ensures Print(Obj([Member(" ", "a", " ", Num("1"))])) == "{ \"a\" :1}"
  {
    assert Escaped("a") == "a" by {
      assert Escaped("a"[1..]) == "";
    }
    assert PrintMember(Member(" ", "a", " ", Num("1"))) == " \"a\" :1";
  }
}
