/** Reading an import file: which column feeds which field, and phone numbers in one spelling. */
module ImportFields {
  import opened Common

  // ---- columns ----

  /** A normalised header suits an alias: equal, one of its words, or starting with it. */
  predicate Fits(norm: string -> string, header: string, alias: string) {
    norm(header) == alias || alias in Words(norm(header)) || alias <= norm(header)
  }

  function FirstFit(norm: string -> string, headers: seq<string>, used: set<string>, alias: string): Option<string> {
    if headers == [] then None
    else if headers[0] !in used && Fits(norm, headers[0], alias) then Some(headers[0])
    else FirstFit(norm, headers[1..], used, alias)
  }

  /** The first alias that any free header fits decides, and then the first such header. */
  function BestMatch(norm: string -> string, headers: seq<string>, used: set<string>, aliases: seq<string>): Option<string> {
    if aliases == [] then None
    else
      var h := FirstFit(norm, headers, used, aliases[0]);
      if h.Some? then h else BestMatch(norm, headers, used, aliases[1..])
  }

  function UsedBy(mapping: seq<Option<string>>): (used: set<string>)
    ensures forall h :: h in used <==> Some(h) in mapping
  {
    if mapping == [] then {}
    else
      var n := |mapping| - 1;
      assert mapping == mapping[..n] + [mapping[n]];
      UsedBy(mapping[..n]) + (if mapping[n].Some? then {mapping[n].value} else {})
  }

  /** Every field takes the best header that no earlier field took. */
  predicate Greedy(norm: string -> string, headers: seq<string>, catalogue: seq<seq<string>>, mapping: seq<Option<string>>) {
    && |mapping| <= |catalogue|
    && forall i :: 0 <= i < |mapping| ==> mapping[i] == BestMatch(norm, headers, UsedBy(mapping[..i]), catalogue[i])
  }

  lemma GreedySnoc(norm: string -> string, headers: seq<string>, catalogue: seq<seq<string>>, mapping: seq<Option<string>>)
    requires Greedy(norm, headers, catalogue, mapping) && |mapping| < |catalogue|
    ensures Greedy(norm, headers, catalogue,
                   mapping + [BestMatch(norm, headers, UsedBy(mapping), catalogue[|mapping|])])
  {
    var longer := mapping + [BestMatch(norm, headers, UsedBy(mapping), catalogue[|mapping|])];
    assert longer[..|mapping|] == mapping;
    assert forall i :: 0 <= i < |mapping| ==> longer[..i] == mapping[..i];
  }

  method SuggestColumnMapping(norm: string -> string, headers: seq<string>, catalogue: seq<seq<string>>)
    returns (mapping: seq<Option<string>>)
    ensures |mapping| == |catalogue| && Greedy(norm, headers, catalogue, mapping)
  {
    var used: set<string> := {};
    mapping := [];
    for f := 0 to |catalogue|
      invariant |mapping| == f && Greedy(norm, headers, catalogue, mapping)
      invariant used == UsedBy(mapping)
    {
      var aliases := catalogue[f];
      var match_ := FindMatch(norm, headers, used, aliases);
      GreedySnoc(norm, headers, catalogue, mapping);
      assert (mapping + [match_])[..f] == mapping;
      mapping := mapping + [match_];
      if match_.Some? {
        used := used + {match_.value};
      }
    }
  }

  method FindMatch(norm: string -> string, headers: seq<string>, used: set<string>, aliases: seq<string>)
    returns (found: Option<string>)
    ensures found == BestMatch(norm, headers, used, aliases)
  {
    found := None;
    var a := 0;
    while a < |aliases|
      invariant 0 <= a <= |aliases| && found == None
      invariant BestMatch(norm, headers, used, aliases) == BestMatch(norm, headers, used, aliases[a..])
    {
      var h := 0;
      while h < |headers|
        invariant 0 <= h <= |headers| && found == None
        invariant FirstFit(norm, headers, used, aliases[a]) == FirstFit(norm, headers[h..], used, aliases[a])
      {
        if headers[h] !in used && Fits(norm, headers[h], aliases[a]) {
          found := Some(headers[h]);
          break;
        }
        assert headers[h..][1..] == headers[h + 1..];
        h := h + 1;
      }
      if found.Some? {
        break;
      }
      assert aliases[a..][1..] == aliases[a + 1..];
      a := a + 1;
    }
  }

  lemma {:induction false} FirstFitIs(norm: string -> string, headers: seq<string>, used: set<string>, alias: string)
    ensures match FirstFit(norm, headers, used, alias)
            case Some(h) => h in headers && h !in used && Fits(norm, h, alias)
            case None => forall h :: h in headers && h !in used ==> !Fits(norm, h, alias)
  {
    if headers != [] {
      FirstFitIs(norm, headers[1..], used, alias);
      assert headers == [headers[0]] + headers[1..];
    }
  }

  /** No free header fits the alias. */
  predicate NoneFits(norm: string -> string, headers: seq<string>, used: set<string>, alias: string) {
    forall h :: h in headers && h !in used ==> !Fits(norm, h, alias)
  }

  /** The header is the first free one that fits the alias. */
  predicate FirstThatFits(norm: string -> string, headers: seq<string>, used: set<string>, alias: string, h: string) {
    exists k :: 0 <= k < |headers| && headers[k] == h && h !in used && Fits(norm, h, alias)
                && NoneFits(norm, headers[..k], used, alias)
  }

  lemma {:induction false} FirstFitFirst(norm: string -> string, headers: seq<string>, used: set<string>, alias: string)
    ensures match FirstFit(norm, headers, used, alias)
            case Some(h) => FirstThatFits(norm, headers, used, alias, h)
            case None => NoneFits(norm, headers, used, alias)
  {
    if headers != [] {
      var rest := headers[1..];
      assert headers == [headers[0]] + rest;
      if headers[0] !in used && Fits(norm, headers[0], alias) {
        assert headers[..0] == [];
      } else {
        FirstFitFirst(norm, rest, used, alias);
        if FirstFit(norm, rest, used, alias).Some? {
          var h := FirstFit(norm, rest, used, alias).value;
          var k :| 0 <= k < |rest| && rest[k] == h && NoneFits(norm, rest[..k], used, alias);
          assert headers[..k + 1] == [headers[0]] + rest[..k];
        }
      }
    }
  }

  /** The field's earliest alias that any free header fits decides, and of its headers the first. */
  lemma {:induction false} BestMatchOrder(norm: string -> string, headers: seq<string>, used: set<string>, aliases: seq<string>)
    ensures match BestMatch(norm, headers, used, aliases)
            case Some(h) =>
              exists a: nat :: a < |aliases| && FirstThatFits(norm, headers, used, aliases[a], h)
                && forall b :: 0 <= b < a ==> NoneFits(norm, headers, used, aliases[b])
            case None => forall b :: 0 <= b < |aliases| ==> NoneFits(norm, headers, used, aliases[b])
  {
    if aliases != [] {
      var rest := aliases[1..];
      FirstFitFirst(norm, headers, used, aliases[0]);
      BestMatchOrder(norm, headers, used, rest);
      assert forall b :: 0 < b < |aliases| ==> aliases[b] == rest[b - 1];
      if FirstFit(norm, headers, used, aliases[0]).None? && BestMatch(norm, headers, used, rest).Some? {
        var h := BestMatch(norm, headers, used, rest).value;
        var a: nat :| a < |rest| && FirstThatFits(norm, headers, used, rest[a], h)
                      && forall b :: 0 <= b < a ==> NoneFits(norm, headers, used, rest[b]);
        assert aliases[a + 1] == rest[a];
      }
    }
  }

  predicate FitsAny(norm: string -> string, h: string, aliases: seq<string>) {
    exists a :: 0 <= a < |aliases| && Fits(norm, h, aliases[a])
  }

  lemma {:induction false} BestMatchIs(norm: string -> string, headers: seq<string>, used: set<string>, aliases: seq<string>)
    ensures match BestMatch(norm, headers, used, aliases)
            case Some(h) => h in headers && h !in used && FitsAny(norm, h, aliases)
            case None => forall h :: h in headers && h !in used ==> !FitsAny(norm, h, aliases)
  {
    if aliases != [] {
      FirstFitIs(norm, headers, used, aliases[0]);
      BestMatchIs(norm, headers, used, aliases[1..]);
      assert forall a :: 0 < a < |aliases| ==> aliases[a] == aliases[1..][a - 1];
    }
  }

  /** Every chosen column fits its field, and a field stays empty only if earlier fields took every column that fits it. */
  lemma MappingFits(norm: string -> string, headers: seq<string>, catalogue: seq<seq<string>>,
                    mapping: seq<Option<string>>, i: nat)
    requires Greedy(norm, headers, catalogue, mapping) && i < |mapping|
    ensures mapping[i].Some? ==> mapping[i].value in headers && FitsAny(norm, mapping[i].value, catalogue[i])
    ensures mapping[i].None? ==> forall h :: h in headers && FitsAny(norm, h, catalogue[i]) ==> Some(h) in mapping[..i]
  {
    BestMatchIs(norm, headers, UsedBy(mapping[..i]), catalogue[i]);
  }

  /** No two fields share a column. */
  lemma MappingInjective(norm: string -> string, headers: seq<string>, catalogue: seq<seq<string>>,
                         mapping: seq<Option<string>>, i: nat, j: nat)
    requires Greedy(norm, headers, catalogue, mapping) && i < j < |mapping| && mapping[i].Some?
    ensures mapping[i] != mapping[j]
  {
    BestMatchIs(norm, headers, UsedBy(mapping[..j]), catalogue[j]);
    assert mapping[..j][i] == mapping[i];
  }

  // ---- phone numbers ----

  predicate IsDigit(c: char) {
    '0' <= c <= '9'
  }

  predicate AllDigits(s: string) {
    s != "" && forall i :: 0 <= i < |s| ==> IsDigit(s[i])
  }

  /** Digits and plus signs only. */
  function Dialled(s: string): string {
    if s == "" then ""
    else (if IsDigit(s[0]) || s[0] == '+' then [s[0]] else "") + Dialled(s[1..])
  }

  predicate StartsWith(s: string, p: string) {
    p <= s
  }

  function NormalizePhone(raw: Option<string>): Option<string> {
    if raw.None? || Strip(raw.value) == "" then None
    else
      var digits := Dialled(Strip(raw.value));
      if StartsWith(digits, "+27") then
        var rest := digits[3..];
        if AllDigits(rest) && |rest| == 9 then Some("+27" + rest) else None
      else if StartsWith(digits, "0") && AllDigits(digits) && |digits| == 10 then Some("+27" + digits[1..])
      else if StartsWith(digits, "27") && AllDigits(digits) && |digits| == 11 then Some("+27" + digits[2..])
      else None
  }

  predicate International(s: string) {
    |s| == 12 && s[..3] == "+27" && AllDigits(s[3..])
  }

  lemma {:induction false} DialledKeeps(s: string)
    requires forall i :: 0 <= i < |s| ==> IsDigit(s[i]) || s[i] == '+'
    ensures Dialled(s) == s
  {
    if s != "" {
      DialledKeeps(s[1..]);
    }
  }

  lemma NothingToStrip(s: string)
    requires s != "" && !IsSpace(s[0]) && !IsSpace(s[|s| - 1])
    ensures Strip(s) == s
  {
  }

  /** The result is always +27 and nine digits, the last nine the caller gave; nothing is invented. */
  lemma PhoneIs(raw: Option<string>)
    ensures match NormalizePhone(raw)
            case Some(p) =>
              && International(p) && raw.Some?
              && var digits := Dialled(Strip(raw.value)); |digits| >= 10 && p[3..] == digits[|digits| - 9..]
            case None => true
  {
    if raw.Some? && NormalizePhone(raw).Some? {
      var digits, p := Dialled(Strip(raw.value)), NormalizePhone(raw).value;
      if StartsWith(digits, "+27") {
        LastNine(digits, p, 3);
      } else if StartsWith(digits, "0") && AllDigits(digits) && |digits| == 10 {
        DigitsAfter(digits, 1);
        LastNine(digits, p, 1);
      } else {
        DigitsAfter(digits, 2);
        LastNine(digits, p, 2);
      }
    }
  }

  lemma DigitsAfter(digits: string, k: nat)
    requires AllDigits(digits) && k < |digits|
    ensures AllDigits(digits[k..])
  {
  }

  /** A number made of +27 and the rest of the digits, nine in all. */
  lemma LastNine(digits: string, p: string, k: nat)
    requires k <= |digits| && Prefixed(digits, p, k)
    ensures International(p) && |digits| >= 10 && p[3..] == digits[|digits| - 9..]
  {
    assert p[..3] == "+27" && p[3..] == digits[k..];
  }

  predicate Prefixed(digits: string, p: string, k: nat)
    requires k <= |digits|
  {
    k >= 1 && |digits| == k + 9 && AllDigits(digits[k..]) && p == "+27" + digits[k..]
  }

  /** Exactly which inputs are numbers: after dropping everything but digits and plus signs, one of three spellings. */
  lemma PhoneIff(raw: Option<string>)
    ensures NormalizePhone(raw).Some? <==>
            raw.Some? && Strip(raw.value) != ""
            && var digits := Dialled(Strip(raw.value));
               || (|digits| == 12 && digits[..3] == "+27" && AllDigits(digits[3..]))
               || (|digits| == 10 && digits[0] == '0' && AllDigits(digits))
               || (|digits| == 11 && digits[..2] == "27" && AllDigits(digits))
  {
    if raw.Some? {
      ThreeSpellings(Dialled(Strip(raw.value)));
    }
  }

  lemma ThreeSpellings(digits: string)
    ensures StartsWith(digits, "+27") <==> |digits| >= 3 && digits[..3] == "+27"
    ensures StartsWith(digits, "0") <==> |digits| >= 1 && digits[0] == '0'
    ensures StartsWith(digits, "27") <==> |digits| >= 2 && digits[..2] == "27"
    ensures StartsWith(digits, "+27") ==> !AllDigits(digits)
  {
    if |digits| >= 1 {
      assert digits[..1] == [digits[0]];
    }
    if StartsWith(digits, "+27") {
      assert digits[0] == '+';
    }
  }

  /** Digits and plus signs are kept in order, everything else is dropped. */
  lemma DialledCons(c: char, s: string)
    ensures Dialled("") == ""
    ensures Dialled([c] + s) == if ('0' <= c <= '9') || c == '+' then [c] + Dialled(s) else Dialled(s)
  {
    assert ([c] + s)[1..] == s;
  }

  /** A normalised number is a fixed point. */
  lemma PhoneIdempotent(raw: Option<string>)
    requires NormalizePhone(raw).Some?
    ensures NormalizePhone(NormalizePhone(raw)) == NormalizePhone(raw)
  {
    PhoneIs(raw);
    InternationalKept(NormalizePhone(raw).value);
  }

  lemma InternationalKept(p: string)
    requires International(p)
    ensures NormalizePhone(Some(p)) == Some(p)
  {
    assert p == p[..3] + p[3..];
    assert p[0] == '+' && p[1] == '2' && p[2] == '7';
    assert forall i :: 3 <= i < 12 ==> p[i] == p[3..][i - 3];
    NothingToStrip(p);
    DialledKeeps(p);
  }

  lemma LocalSpelling(rest: string)
    requires AllDigits(rest) && |rest| == 9
    ensures NormalizePhone(Some("0" + rest)) == Some("+27" + rest)
  {
    var s := "0" + rest;
    NothingToStrip(s);
    DialledKeeps(s);
    assert s[0] == '0' && s[1..] == rest;
    assert !StartsWith(s, "+27");
    assert StartsWith(s, "0");
  }

  lemma BareSpelling(rest: string)
    requires AllDigits(rest) && |rest| == 9
    ensures NormalizePhone(Some("27" + rest)) == Some("+27" + rest)
  {
    var s := "27" + rest;
    NothingToStrip(s);
    DialledKeeps(s);
    assert s[0] == '2' && s[2..] == rest;
    assert !StartsWith(s, "+27") && !StartsWith(s, "0");
    assert StartsWith(s, "27");
  }

  /** The local, the bare and the international spelling of one number agree. */
  lemma SpellingsAgree(rest: string)
    requires AllDigits(rest) && |rest| == 9
    ensures NormalizePhone(Some("0" + rest)) == NormalizePhone(Some("27" + rest)) == NormalizePhone(Some("+27" + rest))
  {
    LocalSpelling(rest);
    BareSpelling(rest);
    var p := "+27" + rest;
    assert p[..3] == "+27" && p[3..] == rest;
    InternationalKept(p);
  }
}
