/** Product lists of a broker credential: the comma-separated column, its parser and printer,
    and the choice of a product for an order. */
module ProductCodes {
  import opened Common
  import opened PaperText

  datatype Error =
    | UnknownProduct | NoProduct | ExchangeRequired | UnknownExchange | OneProductOnly
    | NotEnabled | ProductRequired

  predicate IsCode(p: string) {
    p == "MIS" || p == "CNC" || p == "NRML"
  }

  const ORDER: seq<string> := ["MIS", "CNC", "NRML"]

  function CanonicalIndex(p: string): nat {
    if p == "MIS" then 0 else if p == "CNC" then 1 else if p == "NRML" then 2 else 3
  }

  // ---------- what a list means ----------

  predicate Mentions(parts: seq<string>, code: string) {
    exists i :: 0 <= i < |parts| && Normalize(parts[i]) == code
  }

  /** The codes of the canonical order that pass a test, in that order. */
  function Canon(has: string -> bool): seq<string> {
    Filter(ORDER, has)
  }

  function CodesIn(parts: seq<string>): seq<string> {
    Canon((code: string) => Mentions(parts, code))
  }

  predicate AllKnown(parts: seq<string>) {
    forall i :: 0 <= i < |parts| ==> Normalize(parts[i]) == "" || IsCode(Normalize(parts[i]))
  }

  /** NormalizeList, by what it accepts and what it returns. */
  function Normalized(products: seq<string>): Result<seq<string>, Error> {
    if products == [] then Ok(["MIS"])
    else if !AllKnown(products) then Err(UnknownProduct)
    else if CodesIn(products) == [] then Err(NoProduct)
    else Ok(CodesIn(products))
  }

  function Split(s: string): seq<string> {
    if s == "" then [""]
    else if s[|s| - 1] == ',' then Split(s[..|s| - 1]) + [""]
    else
      var parts := Split(s[..|s| - 1]);
      if parts == [] then [] else Init(parts) + [Last(parts) + [s[|s| - 1]]]
  }

  function Join(parts: seq<string>): string {
    if parts == [] then ""
    else if |parts| == 1 then parts[0]
    else Join(Init(parts)) + "," + Last(parts)
  }

  /** Parse, by the codes the text mentions. */
  function Parsed(stored: string): seq<string> {
    if TrimSpace(stored) == "" then [] else CodesIn(Split(TrimSpace(stored)))
  }

  function Serialized(products: seq<string>): Result<string, Error> {
    match Normalized(products)
    case Err(error) => Err(error)
    case Ok(normalized) => Ok(if normalized == [] then "MIS" else Join(normalized))
  }

  // ---------- canonical lists ----------

  predicate Canonical(codes: seq<string>) {
    && (forall i :: 0 <= i < |codes| ==> IsCode(codes[i]))
    && (forall i, j :: 0 <= i < j < |codes| ==> CanonicalIndex(codes[i]) < CanonicalIndex(codes[j]))
  }

  lemma CanonSpelledOut(has: string -> bool)
    ensures Canon(has) ==
            (if has("MIS") then ["MIS"] else []) + (if has("CNC") then ["CNC"] else []) +
            (if has("NRML") then ["NRML"] else [])
  {
    assert Init(ORDER) == ["MIS", "CNC"] && Init(["MIS", "CNC"]) == ["MIS"] && Init(["MIS"]) == [];
  }

  /** A canonical list is exactly the codes it contains, in canonical order. */
  lemma CanonicalIsCanon(codes: seq<string>, has: string -> bool)
    requires Canonical(codes)
    requires forall p :: IsCode(p) ==> (has(p) <==> p in codes)
    ensures codes == Canon(has)
  {
    CanonSpelledOut(has);
    AtMostThree(codes);
    assert IsCode("MIS") && IsCode("CNC") && IsCode("NRML");
    if |codes| == 1 {
      assert codes == [codes[0]];
    } else if |codes| == 2 {
      assert codes == [codes[0], codes[1]];
    } else if |codes| == 3 {
      assert codes == [codes[0], codes[1], codes[2]];
    }
  }

  lemma {:induction false} IndexGrows(codes: seq<string>, i: nat)
    requires Canonical(codes) && i < |codes|
    ensures i <= CanonicalIndex(codes[i]) <= 2
  {
    if i > 0 {
      IndexGrows(codes, i - 1);
    }
  }

  lemma AtMostThree(codes: seq<string>)
    requires Canonical(codes)
    ensures |codes| <= 3
  {
    if codes != [] {
      IndexGrows(codes, |codes| - 1);
    }
  }

  lemma CanonIsCanonical(has: string -> bool)
    ensures Canonical(Canon(has))
    ensures forall p :: p in Canon(has) <==> IsCode(p) && has(p)
  {
    hide Canon;
    CanonSpelledOut(has);
    FilterMembers(ORDER, has);
  }

  /** Both the parser and the list check return duplicate-free codes in canonical order, the
      ones mentioned and no others. */
  lemma CodesAreCanonical(parts: seq<string>)
    ensures Canonical(CodesIn(parts)) && Distinct(CodesIn(parts))
    ensures forall p :: p in CodesIn(parts) <==> IsCode(p) && Mentions(parts, p)
  {
    hide Canon, Mentions;
    CanonIsCanonical((code: string) => Mentions(parts, code));
  }

  lemma SameMembersSameCodes(parts: seq<string>, parts': seq<string>)
    requires forall p :: p in parts <==> p in parts'
    ensures CodesIn(parts) == CodesIn(parts') && (AllKnown(parts) <==> AllKnown(parts'))
  {
    hide Normalize;
    forall p ensures Mentions(parts, p) <==> Mentions(parts', p) {
      if Mentions(parts, p) {
        var i :| 0 <= i < |parts| && Normalize(parts[i]) == p;
        assert parts[i] in parts';
      }
      if Mentions(parts', p) {
        var i :| 0 <= i < |parts'| && Normalize(parts'[i]) == p;
        assert parts'[i] in parts;
      }
    }
    FilterCongruent(ORDER, (code: string) => Mentions(parts, code), (code: string) => Mentions(parts', code));
    assert forall i :: 0 <= i < |parts| ==> parts[i] in parts';
    assert forall i :: 0 <= i < |parts'| ==> parts'[i] in parts;
  }

  /** The order of the products, and how often each is repeated, does not matter. */
  lemma NormalizedIgnoresOrder(products: seq<string>, products': seq<string>)
    requires forall p :: p in products <==> p in products'
    ensures Normalized(products) == Normalized(products')
    ensures Serialized(products) == Serialized(products')
  {
    hide AllKnown, CodesIn;
    SameMembersSameCodes(products, products');
    BothEmpty(products, products');
  }

  lemma BothEmpty(xs: seq<string>, ys: seq<string>)
    requires forall p :: p in xs <==> p in ys
    ensures xs == [] <==> ys == []
  {
    if xs != [] {
      assert xs[0] in ys;
    }
    if ys != [] {
      assert ys[0] in xs;
    }
  }

  // ---------- round trips ----------

  lemma SplitLast(front: string, c: char)
    ensures c == ',' ==> Split(front + [c]) == Split(front) + [""]
    ensures c != ',' && Split(front) != [] ==>
              Split(front + [c]) == Init(Split(front)) + [Last(Split(front)) + [c]]
  {
    assert (front + [c])[..|front|] == front;
  }

  lemma JoinEmptyPart(parts: seq<string>)
    requires parts != []
    ensures Join(parts + [""]) == Join(parts) + ","
  {
    assert Init(parts + [""]) == parts;
  }

  predicate CommaFree(parts: seq<string>) {
    forall i :: 0 <= i < |parts| ==> ',' !in parts[i]
  }

  lemma CommaFreeGrows(parts: seq<string>, c: char)
    requires CommaFree(parts) && parts != [] && c != ','
    ensures CommaFree(parts + [""]) && CommaFree(Init(parts) + [Last(parts) + [c]])
  {
  }

  /** Splitting yields comma-free parts, and joining them gives the text back. */
  lemma {:induction false} JoinSplit(s: string)
    ensures Split(s) != [] && CommaFree(Split(s)) && Join(Split(s)) == s
  {
    if s == "" {
      assert Split(s) == [""];
    } else {
      hide Split, Join, CommaFree;
      var front, c := s[..|s| - 1], s[|s| - 1];
      JoinSplit(front);
      assert s == front + [c];
      SplitLast(front, c);
      CommaFreeGrows(Split(front), if c == ',' then 'x' else c);
      if c == ',' {
        JoinEmptyPart(Split(front));
      } else {
        JoinLonger(Split(front), [c]);
      }
    }
  }

  lemma JoinLonger(parts: seq<string>, t: string)
    requires parts != []
    ensures Join(Init(parts) + [Last(parts) + t]) == Join(parts) + t
  {
    var grown := Init(parts) + [Last(parts) + t];
    assert Init(grown) == Init(parts);
    if |parts| > 1 {
      assert Join(Init(parts)) + "," + (Last(parts) + t) == Join(Init(parts)) + "," + Last(parts) + t;
    }
  }

  lemma {:induction false} SplitComma(s: string, t: string)
    requires ',' !in t
    ensures Split(s + "," + t) == Split(s) + [t]
    decreases |t|
  {
    var whole := s + "," + t;
    if t == "" {
      assert whole[..|whole| - 1] == s;
    } else {
      var front, c := t[..|t| - 1], t[|t| - 1];
      assert whole[..|whole| - 1] == s + "," + front;
      SplitComma(s, front);
      assert Init(Split(s) + [front]) == Split(s);
      assert front + [c] == t;
    }
  }

  lemma {:induction false} SplitOne(t: string)
    requires ',' !in t
    ensures Split(t) == [t]
  {
    if t != "" {
      var front := t[..|t| - 1];
      SplitOne(front);
      assert Init([front]) == [];
      assert front + [t[|t| - 1]] == t;
    }
  }

  /** Splitting undoes joining when no part holds a comma. */
  lemma {:induction false} SplitJoin(parts: seq<string>)
    requires parts != [] && CommaFree(parts)
    ensures Split(Join(parts)) == parts
  {
    hide Split, Join;
    JoinGrows(parts);
    if |parts| == 1 {
      SplitOne(parts[0]);
      assert parts == [parts[0]];
    } else {
      SplitJoin(Init(parts));
      SplitComma(Join(Init(parts)), Last(parts));
      assert parts == Init(parts) + [Last(parts)];
    }
  }

  lemma JoinGrows(parts: seq<string>)
    requires parts != []
    ensures Join(parts) == if |parts| == 1 then parts[0] else Join(Init(parts)) + "," + Last(parts)
  {
  }

  /** Trimmed text without lower-case letters is its own normal form. */
  lemma AlreadyNormal(p: string)
    requires Trimmed(p) && forall i :: 0 <= i < |p| ==> UpperChar(p[i]) == p[i]
    ensures Normalize(p) == p
  {
    TrimSpaceTrims(p);
    ToUpperAt(p);
  }

  lemma CodesAreNormal(p: string)
    requires IsCode(p)
    ensures Normalize(p) == p && Trimmed(p) && p != "" && ',' !in p
  {
    hide Normalize;
    AlreadyNormal(p);
  }

  lemma {:induction false} JoinEnds(parts: seq<string>)
    requires parts != [] && forall i :: 0 <= i < |parts| ==> IsCode(parts[i])
    ensures Join(parts) != "" && !IsSpace(Join(parts)[0]) && !IsSpace(Join(parts)[|Join(parts)| - 1])
  {
    if |parts| > 1 {
      JoinEnds(Init(parts));
    }
  }

  /** Printing a canonical list and parsing the text gives the list back. */
  lemma ParsedJoin(codes: seq<string>)
    requires Canonical(codes) && codes != []
    ensures Parsed(Join(codes)) == codes
  {
    hide Normalize, Join, Split, Canon;
    JoinEnds(codes);
    TrimSpaceTrims(Join(codes));
    forall i | 0 <= i < |codes| ensures ',' !in codes[i] && Normalize(codes[i]) == codes[i] {
      CodesAreNormal(codes[i]);
    }
    SplitJoin(codes);
    CanonicalIsCanon(codes, (code: string) => Mentions(codes, code));
  }

  lemma NormalizedIsCanonical(products: seq<string>)
    requires Normalized(products).Ok?
    ensures Canonical(Normalized(products).value) && Normalized(products).value != []
  {
    CodesAreCanonical(products);
  }

  /** Whenever serializing succeeds, parsing the stored text gives the normalised list. */
  lemma ParseUndoesSerialize(products: seq<string>)
    ensures Serialized(products).Ok? <==> Normalized(products).Ok?
    ensures Serialized(products).Ok? ==> Parsed(Serialized(products).value) == Normalized(products).value
  {
    if Normalized(products).Ok? {
      NormalizedIsCanonical(products);
      hide Normalized, Parsed, Join;
      ParsedJoin(Normalized(products).value);
    }
  }

  /** What was parsed normalises to itself. */
  lemma ParsedIsNormal(stored: string)
    ensures Canonical(Parsed(stored))
    ensures Parsed(stored) != [] ==> Normalized(Parsed(stored)) == Ok(Parsed(stored))
  {
    var codes := Parsed(stored);
    CodesAreCanonical(Split(TrimSpace(stored)));
    assert Canonical(codes);
    hide Normalize, Parsed, Canon;
    forall i | 0 <= i < |codes| ensures Normalize(codes[i]) == codes[i] {
      CodesAreNormal(codes[i]);
    }
    CanonicalIsCanon(codes, (code: string) => Mentions(codes, code));
  }

  /** Serializing what was parsed always succeeds, and parsing that again gives the same list
      exactly when the list was not empty: an empty one is stored as MIS. */
  lemma ReparseIff(stored: string)
    ensures Serialized(Parsed(stored)).Ok?
    ensures Parsed(Serialized(Parsed(stored)).value) == Parsed(stored) <==> Parsed(stored) != []
  {
    ParsedIsNormal(stored);
    hide Parsed;
    ParseUndoesSerialize(Parsed(stored));
  }

  // ---------- which codes a text lists ----------

  lemma {:induction false} JoinLongerAtFront(l: string, parts: seq<string>)
    requires parts != []
    ensures Join([l + parts[0]] + parts[1..]) == l + Join(parts)
  {
    hide Join;
    var grown := [l + parts[0]] + parts[1..];
    JoinGrows(parts);
    JoinGrows(grown);
    if |parts| > 1 {
      var front := Init(parts);
      JoinLongerAtFront(l, front);
      assert Init(grown) == [l + front[0]] + front[1..];
      Reassociated(l, Join(front), "," + Last(parts));
    }
  }

  lemma Reassociated(s: string, t: string, u: string)
    ensures (s + t) + u == s + (t + u)
  {
  }

  lemma AlikePartsSameCodes(parts: seq<string>, parts': seq<string>)
    requires |parts| == |parts'|
    requires forall i :: 0 <= i < |parts| ==> Normalize(parts[i]) == Normalize(parts'[i])
    ensures CodesIn(parts) == CodesIn(parts')
  {
    hide Normalize;
    FilterCongruent(ORDER, (code: string) => Mentions(parts, code), (code: string) => Mentions(parts', code));
  }

  lemma BlankHasNoComma(s: string)
    requires Blank(s)
    ensures ',' !in s
  {
  }

  lemma WiderAtFront(l: string, t: string)
    requires Blank(l)
    ensures CodesIn(Split(l + t)) == CodesIn(Split(t))
  {
    var parts := Split(t);
    hide Split, Join, Blank, CodesIn, Normalize;
    JoinSplit(t);
    var wider := [l + parts[0]] + parts[1..];
    BlankHasNoComma(l);
    JoinLongerAtFront(l, parts);
    SplitJoin(wider);
    PaddedIsAlike(l, parts[0], "");
    assert l + parts[0] + "" == wider[0];
    AlikePartsSameCodes(wider, parts);
  }

  lemma WiderAtBack(t: string, r: string)
    requires Blank(r)
    ensures CodesIn(Split(t + r)) == CodesIn(Split(t))
  {
    var parts := Split(t);
    hide Split, Join, Blank, CodesIn, Normalize;
    JoinSplit(t);
    var wider := Init(parts) + [Last(parts) + r];
    BlankHasNoComma(r);
    JoinLonger(parts, r);
    SplitJoin(wider);
    PaddedIsAlike("", Last(parts), r);
    assert "" + Last(parts) + r == Last(wider);
    AlikePartsSameCodes(wider, parts);
  }

  lemma PaddedIsAlike(l: string, x: string, r: string)
    requires l == "" || Blank(l)
    requires r == "" || Blank(r)
    ensures Normalize(l + x + r) == Normalize(x)
  {
    PaddingIsTrimmed(l + x + r, l, x, r);
  }

  lemma BlankMentionsNothing()
    ensures CodesIn(Split("")) == []
  {
    assert Split("") == [""];
    AlreadyNormal("");
    hide Normalize, CodesIn;
    NoCodesIn([""]);
  }

  /** Blanks around the whole text make no difference either. */
  lemma ParsedPartByPart(stored: string)
    ensures Parsed(stored) == CodesIn(Split(stored))
  {
    hide CodesIn, Split, TrimSpace;
    var t := TrimSpace(stored);
    var l, r := TrimSpacePads(stored);
    WiderAtFront(l, t);
    WiderAtBack(l + t, r);
    BlankMentionsNothing();
  }

  /** Some part of the text spells the code, in any case and with any blanks around it. */
  ghost predicate Spelled(stored: string, code: string) {
    exists i :: 0 <= i < |Split(stored)| && SameText(Split(stored)[i], code)
  }

  /** A text parses to exactly the codes that its parts spell, MIS before CNC before NRML. */
  lemma ParsedIff(stored: string)
    ensures Parsed(stored) ==
            (if Spelled(stored, "MIS") then ["MIS"] else []) +
            (if Spelled(stored, "CNC") then ["CNC"] else []) +
            (if Spelled(stored, "NRML") then ["NRML"] else [])
  {
    hide Split, Normalize, SameText, Canon, Mentions, Parsed;
    ParsedPartByPart(stored);
    CanonSpelledOut((code: string) => Mentions(Split(stored), code));
    assert IsCode("MIS") && IsCode("CNC") && IsCode("NRML");
    forall p | IsCode(p) ensures Mentions(Split(stored), p) <==> Spelled(stored, p) {
      SpellsIff(Split(stored), p);
    }
  }

  lemma SpellsIff(parts: seq<string>, p: string)
    requires IsCode(p)
    ensures Mentions(parts, p) <==> exists i :: 0 <= i < |parts| && SameText(parts[i], p)
  {
    hide Normalize, SameText;
    CodesAreNormal(p);
    forall i | 0 <= i < |parts| ensures Normalize(parts[i]) == p <==> SameText(parts[i], p) {
      NormalizeAlikeIff(parts[i], p);
    }
  }

  /** Lists whose parts differ only in case and in blanks around them parse alike. */
  lemma ParsingIgnoresCaseAndBlanks(parts: seq<string>, parts': seq<string>)
    requires parts != [] && |parts| == |parts'| && CommaFree(parts) && CommaFree(parts')
    requires forall i :: 0 <= i < |parts| ==> SameText(parts[i], parts'[i])
    ensures Parsed(Join(parts)) == Parsed(Join(parts'))
  {
    hide CodesIn, Split, Normalize, SameText, Join, Parsed;
    ParsedParts(parts);
    ParsedParts(parts');
    forall i | 0 <= i < |parts| ensures Normalize(parts[i]) == Normalize(parts'[i]) {
      NormalizeAlikeIff(parts[i], parts'[i]);
    }
    AlikePartsSameCodes(parts, parts');
  }

  lemma ParsedParts(parts: seq<string>)
    requires parts != [] && CommaFree(parts)
    ensures Parsed(Join(parts)) == CodesIn(parts)
  {
    hide Split, Join, CodesIn, Parsed;
    ParsedPartByPart(Join(parts));
    SplitJoin(parts);
  }

  ghost predicate SpellsCode(part: string) {
    SameText(part, "MIS") || SameText(part, "CNC") || SameText(part, "NRML")
  }

  lemma SpellsCodeIff(part: string)
    ensures IsCode(Normalize(part)) <==> SpellsCode(part)
  {
    hide Normalize, SameText;
    forall p | IsCode(p) ensures Normalize(part) == p <==> SameText(part, p) {
      CodesAreNormal(p);
      NormalizeAlikeIff(part, p);
    }
    assert IsCode("MIS") && IsCode("CNC") && IsCode("NRML");
  }

  lemma BlankIff(part: string)
    ensures Normalize(part) == "" <==> Blank(part)
  {
    hide TrimSpace, Blank;
    ToUpperAt(TrimSpace(part));
    if Blank(part) {
      assert "" + "" + part == part;
      PaddedIsAlike("", "", part);
      AlreadyNormal("");
    }
    if Normalize(part) == "" {
      BlankPads(part);
    }
  }

  lemma BlankPads(part: string)
    requires TrimSpace(part) == ""
    ensures Blank(part)
  {
    hide TrimSpace;
    var l, r := TrimSpacePads(part);
  }

  lemma NoneMentioned(products: seq<string>)
    requires forall p | IsCode(p) :: !Mentions(products, p)
    ensures forall i :: 0 <= i < |products| ==> !IsCode(Normalize(products[i]))
  {
    hide Normalize;
    forall i | 0 <= i < |products| ensures !IsCode(Normalize(products[i])) {
      assert Mentions(products, Normalize(products[i]));
    }
  }

  lemma SomeMentioned(products: seq<string>, p: string)
    requires p in CodesIn(products)
    ensures exists i :: 0 <= i < |products| && IsCode(Normalize(products[i]))
  {
    hide Normalize, CodesIn;
    CodesAreCanonical(products);
    var i :| 0 <= i < |products| && Normalize(products[i]) == p;
  }

  /** A product list is refused exactly when a part neither is blank nor spells a code, or when
      it has parts but all are blank; otherwise it gives the codes spelled, or MIS for no part. */
  lemma NormalizedIff(products: seq<string>)
    ensures Normalized(products) == Err(UnknownProduct) <==>
            exists i :: 0 <= i < |products| && !Blank(products[i]) && !SpellsCode(products[i])
    ensures Normalized(products) == Err(NoProduct) <==>
            products != [] && forall i :: 0 <= i < |products| ==> Blank(products[i])
    ensures products == [] ==> Normalized(products) == Ok(["MIS"])
    ensures products != [] && Normalized(products).Ok? ==>
              forall p :: p in Normalized(products).value <==>
                p in ["MIS", "CNC", "NRML"] && exists i :: 0 <= i < |products| && SameText(products[i], p)
  {
    hide CodesIn, Normalize, SameText, SpellsCode, Blank, Mentions;
    CodesAreCanonical(products);
    forall p | IsCode(p) ensures Mentions(products, p) <==> exists i :: 0 <= i < |products| && SameText(products[i], p) {
      SpellsIff(products, p);
    }
    forall i | 0 <= i < |products|
      ensures (Normalize(products[i]) == "" <==> Blank(products[i])) && (IsCode(Normalize(products[i])) <==> SpellsCode(products[i]))
    {
      BlankIff(products[i]);
      SpellsCodeIff(products[i]);
    }
    EmptyIsNoCode();
    if CodesIn(products) == [] {
      assert forall p :: p !in CodesIn(products);
      assert forall p | IsCode(p) :: !Mentions(products, p);
      NoneMentioned(products);
    } else {
      SomeMentioned(products, CodesIn(products)[0]);
    }
  }

  // ---------- the loops ----------

  /** out holds the codes that the first parts mention, once each; seen is the same as a set. */
  ghost predicate Collected(out: seq<string>, seen: set<string>, parts: seq<string>) {
    && Distinct(out)
    && (forall p :: p in seen <==> p in out)
    && (forall p :: p in out <==> IsCode(p) && Mentions(parts, p))
  }

  lemma MentionsOneMore(parts: seq<string>, part: string, p: string)
    ensures Mentions(parts + [part], p) <==> Mentions(parts, p) || Normalize(part) == p
  {
    hide Normalize;
    var grown := parts + [part];
    if Mentions(parts, p) {
      var i :| 0 <= i < |parts| && Normalize(parts[i]) == p;
      assert grown[i] == parts[i];
    }
    assert grown[|parts|] == part;
  }

  lemma CollectOneMore(out: seq<string>, seen: set<string>, parts: seq<string>, part: string)
    requires Collected(out, seen, parts)
    ensures var p := Normalize(part);
            if !IsCode(p) || p in seen then Collected(out, seen, parts + [part])
            else Collected(out + [p], seen + {p}, parts + [part])
  {
    hide Mentions, Normalize;
    forall q ensures Mentions(parts + [part], q) <==> Mentions(parts, q) || Normalize(part) == q {
      MentionsOneMore(parts, part, q);
    }
  }

  /** Sorting the collected codes gives the canonical list. */
  lemma SortedIsCanon(out: seq<string>, seen: set<string>, parts: seq<string>, sorted: seq<string>)
    requires Collected(out, seen, parts)
    requires multiset(sorted) == multiset(out) && Ordered(sorted)
    ensures sorted == CodesIn(parts)
  {
    hide Mentions, Canon;
    forall p ensures p in sorted <==> p in out {
      assert p in sorted <==> p in multiset(sorted);
      assert p in out <==> p in multiset(out);
    }
    SameBagDistinct(out, sorted);
    forall i, j | 0 <= i < j < |sorted| ensures CanonicalIndex(sorted[i]) < CanonicalIndex(sorted[j]) {
      assert sorted[i] in sorted && sorted[j] in sorted && sorted[i] != sorted[j];
    }
    CanonicalIsCanon(sorted, (code: string) => Mentions(parts, code));
  }

  lemma SameBagDistinct(xs: seq<string>, ys: seq<string>)
    requires multiset(ys) == multiset(xs) && Distinct(xs)
    ensures Distinct(ys)
  {
    forall i, j | 0 <= i < j < |ys| ensures ys[i] != ys[j] {
      if ys[i] == ys[j] {
        CountsTwice(ys, i, j);
        CountsOnce(xs, ys[i]);
      }
    }
  }

  lemma CountsTwice(ys: seq<string>, i: nat, j: nat)
    requires i < j < |ys| && ys[i] == ys[j]
    ensures multiset(ys)[ys[i]] >= 2
  {
    assert ys == ys[..j] + [ys[j]] + ys[j + 1..];
    assert ys[i] in ys[..j];
  }

  lemma {:induction false} CountsOnce(xs: seq<string>, x: string)
    requires Distinct(xs)
    ensures multiset(xs)[x] <= 1
  {
    if xs != [] {
      assert xs == Init(xs) + [Last(xs)];
      CountsOnce(Init(xs), x);
      assert Last(xs) !in Init(xs);
    }
  }

  predicate Ordered(codes: seq<string>) {
    forall i, j :: 0 <= i < j < |codes| ==> CanonicalIndex(codes[i]) <= CanonicalIndex(codes[j])
  }

  lemma InsertedInOrder(front: seq<string>, p: string, back: seq<string>)
    requires Ordered(front + back)
    requires front != [] ==> CanonicalIndex(Last(front)) <= CanonicalIndex(p)
    requires forall i :: 0 <= i < |back| ==> CanonicalIndex(p) < CanonicalIndex(back[i])
    ensures Ordered(front + [p] + back)
    ensures multiset(front + [p] + back) == multiset(front + back) + multiset{p}
  {
    hide CanonicalIndex;
    var before, after, n := front + back, front + [p] + back, |front|;
    forall i, j | 0 <= i < j < |after| ensures CanonicalIndex(after[i]) <= CanonicalIndex(after[j]) {
      var i', j' := if i < n then i else i - 1, if j < n then j else j - 1;
      if i == n {
        assert after[j] == back[j - n - 1];
      } else if j == n {
        assert after[i] == front[i] && before[i] == front[i] && before[n - 1] == Last(front);
      } else {
        assert after[i] == before[i'] && after[j] == before[j'];
      }
    }
  }

  /** Insertion by canonical index: any sort that permutes and orders would do. */
  method SortByCanonical(products: seq<string>) returns (sorted: seq<string>)
    ensures multiset(sorted) == multiset(products) && Ordered(sorted)
  {
    hide CanonicalIndex, Ordered;
    sorted := [];
    EmptyIsOrdered();
    for n := 0 to |products|
      invariant multiset(sorted) == multiset(products[..n]) && Ordered(sorted)
    {
      var p := products[n];
      var at := |sorted|;
      while at > 0 && CanonicalIndex(p) < CanonicalIndex(sorted[at - 1])
        invariant 0 <= at <= |sorted|
        invariant forall i :: at <= i < |sorted| ==> CanonicalIndex(p) < CanonicalIndex(sorted[i])
      {
        at := at - 1;
      }
      assert sorted == sorted[..at] + sorted[at..];
      assert products[..n + 1] == products[..n] + [p];
      InsertedInOrder(sorted[..at], p, sorted[at..]);
      sorted := sorted[..at] + [p] + sorted[at..];
    }
    assert products[..|products|] == products;
  }

  lemma EmptyIsOrdered()
    ensures Ordered([])
  {
  }

  method Parse(stored: string) returns (out: seq<string>)
    ensures out == Parsed(stored)
  {
    hide Normalize, CodesIn, Mentions, TrimSpace, Split;
    var trimmed := TrimSpace(stored);
    if trimmed == "" {
      return [];
    }
    var parts := Split(trimmed);
    var seen: set<string> := {};
    out := [];
    NothingCollected();
    for n := 0 to |parts|
      invariant Collected(out, seen, parts[..n])
    {
      assert parts[..n + 1] == parts[..n] + [parts[n]];
      CollectOneMore(out, seen, parts[..n], parts[n]);
      var p := Normalize(parts[n]);
      if p != "" && IsCode(p) && p !in seen {
        seen := seen + {p};
        out := out + [p];
      }
    }
    assert parts[..|parts|] == parts;
    var sorted := SortByCanonical(out);
    SortedIsCanon(out, seen, parts, sorted);
    out := sorted;
  }

  lemma NothingCollected()
    ensures Collected([], {}, [])
  {
  }

  lemma NoCodesNoOut(out: seq<string>, seen: set<string>, parts: seq<string>)
    requires Collected(out, seen, parts)
    ensures out == [] <==> CodesIn(parts) == []
  {
    hide Mentions, Canon;
    CodesAreCanonical(parts);
    if out != [] {
      assert out[0] in out;
      assert out[0] in CodesIn(parts);
    }
    if CodesIn(parts) != [] {
      assert CodesIn(parts)[0] in CodesIn(parts);
      assert CodesIn(parts)[0] in out;
    }
  }

  method NormalizeList(products: seq<string>) returns (result: Result<seq<string>, Error>)
    ensures result == Normalized(products)
  {
    hide Normalize, CodesIn, Mentions, IsCode;
    if |products| == 0 {
      return Ok(["MIS"]);
    }
    var seen: set<string> := {};
    var out: seq<string> := [];
    NothingCollected();
    for n := 0 to |products|
      invariant Collected(out, seen, products[..n])
      invariant forall i :: 0 <= i < n ==> Normalize(products[i]) == "" || IsCode(Normalize(products[i]))
    {
      assert products[..n + 1] == products[..n] + [products[n]];
      CollectOneMore(out, seen, products[..n], products[n]);
      var p := Normalize(products[n]);
      if p == "" {
        EmptyIsNoCode();
        continue;
      }
      if !IsCode(p) {
        return Err(UnknownProduct);
      }
      if p in seen {
        continue;
      }
      seen := seen + {p};
      out := out + [p];
    }
    assert products[..|products|] == products;
    NoCodesNoOut(out, seen, products);
    if |out| == 0 {
      return Err(NoProduct);
    }
    var sorted := SortByCanonical(out);
    SortedIsCanon(out, seen, products, sorted);
    return Ok(sorted);
  }

  lemma EmptyIsNoCode()
    ensures !IsCode("")
  {
  }

  method Serialize(products: seq<string>) returns (result: Result<string, Error>)
    ensures result == Serialized(products)
  {
    var normalized := NormalizeList(products);
    match normalized {
      case Err(error) => return Err(error);
      case Ok(codes) => return Ok(if |codes| == 0 then "MIS" else Join(codes));
    }
  }

  // ---------- settings ----------

  predicate KnownExchange(exchange: string) {
    Normalize(exchange) == "NSE" || Normalize(exchange) == "BSE"
  }

  datatype Settings = Settings(exchange: string, stored: string)

  /** A settings form is accepted exactly when the exchange is known and the products
      normalise to as many as the plan allows; what is then stored parses back to them. */
  method NormalizeSettings(exchange: string, products: seq<string>, allowMultiple: bool)
    returns (result: Result<Settings, Error>)
    ensures result.Ok? <==>
            && KnownExchange(exchange) && Normalized(products).Ok?
            && (allowMultiple || |Normalized(products).value| == 1)
    ensures result.Ok? ==>
              && result.value.exchange == Normalize(exchange)
              && Parsed(result.value.stored) == Normalized(products).value
    ensures TrimSpace(exchange) == "" ==> result == Err(ExchangeRequired)
    ensures TrimSpace(exchange) != "" && !KnownExchange(exchange) ==> result == Err(UnknownExchange)
    ensures KnownExchange(exchange) && Normalized(products).Err? ==> result == Err(Normalized(products).error)
    ensures KnownExchange(exchange) && Normalized(products).Ok? && !allowMultiple && |Normalized(products).value| > 1 ==>
              result == Err(OneProductOnly)
  {
    hide TrimSpace, Normalized, Parsed, Join;
    var ex := TrimSpace(exchange);
    if ex == "" {
      return Err(ExchangeRequired);
    }
    ex := ToUpper(ex);
    if ex != "NSE" && ex != "BSE" {
      return Err(UnknownExchange);
    }
    var normalized := NormalizeList(products);
    if normalized.Err? {
      return Err(normalized.error);
    }
    NormalizedIsCanonical(products);
    if !allowMultiple && |normalized.value| > 1 {
      return Err(OneProductOnly);
    }
    ParsedJoin(normalized.value);
    CanonicalNormalizesToItself(normalized.value);
    var stored := Serialize(normalized.value);
    return Ok(Settings(ex, stored.value));
  }

  lemma CanonicalNormalizesToItself(codes: seq<string>)
    requires Canonical(codes) && codes != []
    ensures Normalized(codes) == Ok(codes)
  {
    ParsedJoin(codes);
    hide Parsed, Join;
    ParsedIsNormal(Join(codes));
  }

  function ErrorOf<T>(result: Result<T, Error>): Option<Error> {
    match result
    case Ok(_) => None
    case Err(error) => Some(error)
  }

  /** What ValidateStored accepts: under a known exchange, nothing, one known code, or anything
      at all with a comma in it. */
  predicate StoredAccepted(exchange: string, stored: string) {
    && KnownExchange(exchange)
    && (TrimSpace(stored) == "" || ',' in TrimSpace(stored) || IsCode(Normalize(stored)))
  }

  method ValidateStored(exchange: string, stored: string) returns (error: Option<Error>)
    ensures error == None <==> StoredAccepted(exchange, stored)
    ensures error.Some? ==> error.value == if KnownExchange(exchange) then UnknownProduct else UnknownExchange
  {
    hide TrimSpace, Normalized, Parsed;
    var ex := Normalize(exchange);
    if ex != "NSE" && ex != "BSE" {
      return Some(UnknownExchange);
    }
    var raw := TrimSpace(stored);
    if raw == "" {
      return None;
    }
    if ',' in raw {
      var codes := Parse(raw);
      ParsedIsNormal(raw);
      EmptyListIsMis();
      var normalized := NormalizeList(codes);
      return ErrorOf(normalized);
    }
    if !IsCode(ToUpper(raw)) {
      return Some(UnknownProduct);
    }
    return None;
  }

  lemma KnownExchangeIff(exchange: string)
    ensures KnownExchange(exchange) <==> SameText(exchange, "NSE") || SameText(exchange, "BSE")
  {
    AlreadyNormal("NSE");
    AlreadyNormal("BSE");
    hide Normalize, SameText;
    NormalizeAlikeIff(exchange, "NSE");
    NormalizeAlikeIff(exchange, "BSE");
  }

  /** The stored columns are accepted exactly for the two exchanges, in any spelling, with
      nothing, one code in any spelling, or anything that holds a comma. */
  lemma StoredAcceptedIff(exchange: string, stored: string)
    ensures StoredAccepted(exchange, stored) <==>
            && (SameText(exchange, "NSE") || SameText(exchange, "BSE"))
            && (Blank(stored) || ',' in stored || SpellsCode(stored))
  {
    hide Normalize, SameText, Blank, SpellsCode, TrimSpace;
    KnownExchangeIff(exchange);
    SpellsCodeIff(stored);
    TrimmedAwayIff(stored);
    var l, r := TrimSpacePads(stored);
    BlankHasNoComma(l);
    BlankHasNoComma(r);
    assert ',' in stored <==> ',' in l || ',' in TrimSpace(stored) || ',' in r;
  }

  lemma TrimmedAwayIff(s: string)
    ensures TrimSpace(s) == "" <==> Blank(s)
  {
    BlankIff(s);
    hide TrimSpace;
    ToUpperAt(TrimSpace(s));
  }

  lemma NoCodesIn(parts: seq<string>)
    requires forall i :: 0 <= i < |parts| ==> !IsCode(Normalize(parts[i]))
    ensures CodesIn(parts) == []
  {
    hide Normalize, CodesIn;
    if CodesIn(parts) != [] {
      SomeMentioned(parts, CodesIn(parts)[0]);
    }
  }

  lemma TwoUnknownCodes()
    ensures CodesIn(["XX", "YY"]) == []
  {
    AlreadyNormal("XX");
    AlreadyNormal("YY");
    hide Normalize, CodesIn;
    NoCodesIn(["XX", "YY"]);
  }

  lemma JoinedUnknowns()
    ensures Join(["XX", "YY"]) == "XX,YY"
  {
    assert Init(["XX", "YY"]) == ["XX"];
  }

  /** A list of two unknown codes is accepted, though no code can be parsed from it. */
  lemma UnknownListIsAccepted()
    ensures StoredAccepted("NSE", "XX,YY") && Parsed("XX,YY") == []
  {
    hide Join, CodesIn, Normalize, Parsed, TrimSpace;
    AlreadyNormal("NSE");
    TrimSpaceTrims("XX,YY");
    JoinedUnknowns();
    ParsedParts(["XX", "YY"]);
    TwoUnknownCodes();
  }

  lemma EmptyListIsMis()
    ensures Normalized([]) == Ok(["MIS"])
  {
  }

  // ---------- choosing a product for an order ----------

  /** The product an order gets: the signal's if it is enabled, the only one if the signal
      names none; an account with no recognisable product trades MIS whatever is asked. */
  method ResolveOrderProduct(stored: string, signalProduct: string) returns (result: Result<string, Error>)
    ensures Parsed(stored) == [] ==> result == Ok("MIS")
    ensures Parsed(stored) != [] ==>
              var sig := Normalize(signalProduct);
              && (result.Ok? ==> result.value in Parsed(stored))
              && (sig != "" ==> result == if sig in Parsed(stored) then Ok(sig) else Err(NotEnabled))
              && (sig == "" ==> (result.Ok? <==> |Parsed(stored)| == 1) && (result.Err? ==> result.error == ProductRequired))
  {
    hide Parsed, Normalize;
    var allowed := Parse(stored);
    if |allowed| == 0 {
      return Ok("MIS");
    }
    var sig := Normalize(signalProduct);
    if sig != "" {
      for n := 0 to |allowed|
        invariant sig !in allowed[..n]
      {
        if allowed[n] == sig {
          return Ok(sig);
        }
      }
      assert allowed[..|allowed|] == allowed;
      return Err(NotEnabled);
    }
    if |allowed| == 1 {
      return Ok(allowed[0]);
    }
    return Err(ProductRequired);
  }
}
