/** The receipt classifiers: the category keyword table, the first-match
    category search and the vendor heuristic (the first non-blank lines). */
module Ocr {
  import opened Base
  import Text

  /** The keys of the keyword table. */
  datatype OcrCategory = Electricity | Rent | Grocery | Dining | Fuel | Telecom | Others

  /** The keys in declaration order, which is the order of the search. */
  const Categories: seq<OcrCategory> := [Electricity, Rent, Grocery, Dining, Fuel, Telecom, Others]

  function Keywords(c: OcrCategory): seq<string> {
    match c
    case Electricity => ["bill", "electricity", "tneb", "discom", "kseb", "bpcl"]
    case Rent => ["rent", "landlord", "rental"]
    case Grocery => ["grocery", "supermarket", "big bazaar", "dmart", "grocery"]
    case Dining => ["restaurant", "cafe", "dining", "bar", "pizza", "burger"]
    case Fuel => ["petrol", "diesel", "fuel", "gas station", "hpcl", "indian oil"]
    case Telecom => ["airtel", "jio", "vi", "vodafone", "phone bill"]
    case Others => []
  }

  /** Some keyword of c, lowered, occurs in the lowered text. */
  ghost predicate HasKeyword(lower: string, c: OcrCategory) {
    exists k :: 0 <= k < |Keywords(c)| && Text.Contains(lower, Text.Lower(Keywords(c)[k]))
  }

  /** The inner loop: the keywords tried in order until one occurs. */
  function AnyKeyword(lower: string, kws: seq<string>): (r: bool)
    ensures r <==> exists k :: 0 <= k < |kws| && Text.Contains(lower, Text.Lower(kws[k]))
    decreases |kws|
  {
    if |kws| == 0 then false
    else if Text.Contains(lower, Text.Lower(kws[0])) then true
    else
      var rest := AnyKeyword(lower, kws[1..]);
      assert forall k :: 1 <= k < |kws| ==> kws[k] == kws[1..][k - 1];
      rest
  }

  /** The inner loop over the keywords of c. */
  function CategoryHit(lower: string, c: OcrCategory): (r: bool)
    ensures r <==> HasKeyword(lower, c)
  {
    AnyKeyword(lower, Keywords(c))
  }

  function HitFn(lower: string): OcrCategory -> bool {
    (c: OcrCategory) => CategoryHit(lower, c)
  }

  /** The outer loop: the index of the first category, from cats, having a
      keyword in the text. */
  function Search(lower: string, cats: seq<OcrCategory>): (r: Option<nat>)
    ensures r.Some? ==> r.value < |cats| && HasKeyword(lower, cats[r.value])
    ensures r.Some? ==> forall j :: 0 <= j < r.value ==> !HasKeyword(lower, cats[j])
    ensures r.None? ==> forall j :: 0 <= j < |cats| ==> !HasKeyword(lower, cats[j])
  {
    FirstIndex(cats, HitFn(lower))
  }

  /** The category found among cats, Others when there is none. */
  function FirstHit(lower: string, cats: seq<OcrCategory>): OcrCategory {
    match Search(lower, cats)
    case None => Others
    case Some(i) => cats[i]
  }

  /** `detectCategory`: the first category in declaration order with a
      keyword contained in the lowered text, else Others. */
  function DetectCategory(text: string): OcrCategory {
    FirstHit(Text.Lower(text), Categories)
  }

  /** The search over any list of categories: Others, which has no keywords,
      is found exactly when no category has a keyword in the text; otherwise
      the category found has one and none listed before it has. */
  lemma FirstHitSpec(lower: string, cats: seq<OcrCategory>)
    ensures FirstHit(lower, cats) == Others || FirstHit(lower, cats) in cats
    ensures FirstHit(lower, cats) == Others <==> forall j :: 0 <= j < |cats| ==> !HasKeyword(lower, cats[j])
    ensures FirstHit(lower, cats) != Others ==>
      (HasKeyword(lower, FirstHit(lower, cats))
       && exists i :: (0 <= i < |cats| && cats[i] == FirstHit(lower, cats)
            && forall j :: 0 <= j < i ==> !HasKeyword(lower, cats[j])))
  {
    assert !HasKeyword(lower, Others);
    match Search(lower, cats)
    case None =>
    case Some(i) =>
  }

  /** The result is Others exactly when no keyword occurs; otherwise it has a
      keyword in the text and every category declared before it has none.
      Others has no keywords, so it is only ever the fallback. */
  lemma DetectCategorySpec(text: string)
    ensures DetectCategory(text) in Categories
    ensures Keywords(Others) == []
    ensures DetectCategory(text) == Others <==>
      forall j :: 0 <= j < |Categories| ==> !HasKeyword(Text.Lower(text), Categories[j])
    ensures DetectCategory(text) != Others ==>
      (HasKeyword(Text.Lower(text), DetectCategory(text))
       && exists i :: (0 <= i < |Categories| && Categories[i] == DetectCategory(text)
            && forall j :: 0 <= j < i ==> !HasKeyword(Text.Lower(text), Categories[j])))
  {
    FirstHitSpec(Text.Lower(text), Categories);
    assert Others in Categories;
  }

  /** Any text containing "bill" is an electricity bill, because Electricity
      is searched first and "bill" is its first keyword. */
  lemma BillIsElectricity(text: string)
    requires Text.Contains(Text.Lower(text), "bill")
    ensures DetectCategory(text) == Electricity
  {
    assert Text.Lower("bill") == "bill";
    assert HasKeyword(Text.Lower(text), Electricity) by {
      assert Keywords(Electricity)[0] == "bill";
    }
    assert Categories[0] == Electricity;
  }

  /** So "phone bill", a Telecom keyword, is never classified Telecom. */
  lemma PhoneBillIsElectricity(a: string, b: string)
    ensures DetectCategory(a + "phone bill" + b) == Electricity
  {
    var s := a + "phone bill" + b;
    Text.ContainsInfix(Text.Lower(a + "phone "), "bill", Text.Lower(b));
    assert Text.Lower(s) == Text.Lower(a + "phone ") + "bill" + Text.Lower(b);
    BillIsElectricity(s);
  }

  predicate NonBlank(l: string) { l != "" }

  /** `map(l => l.trim())`. */
  function TrimAll(pieces: seq<string>): (r: seq<string>)
    ensures |r| == |pieces| && forall i :: 0 <= i < |r| ==> r[i] == Text.Trim(pieces[i])
  {
    seq(|pieces|, i requires 0 <= i < |pieces| => Text.Trim(pieces[i]))
  }

  /** `text.split("\n").map(l => l.trim()).filter(Boolean)`. */
  function Lines(text: string): seq<string> {
    Filter(TrimAll(Text.Split(text, '\n')), NonBlank)
  }

  /** `detectVendor`: the first two remaining lines joined by one space, or
      null when none remains. */
  function DetectVendor(text: string): Option<string> {
    var lines := Lines(text);
    if |lines| == 0 then None
    else Some(Text.Join(lines[..if |lines| < 2 then |lines| else 2], ' '))
  }

  /** The handler's `detectVendor(text) || "Unknown vendor"`. */
  function Vendor(text: string): string {
    DetectVendor(text).GetOr("Unknown vendor")
  }

  /** Trimming never introduces a character. */
  lemma TrimKeepsOut(p: string, x: char)
    requires x !in p
    ensures x !in Text.Trim(p)
  {
    Text.TrimSpec(p);
    var k :| Text.OccursAt(p, Text.Trim(p), k);
    assert Text.Trim(p) == p[k..k + |Text.Trim(p)|];
  }

  /** Filtering out the empty strings leaves nothing exactly when all are
      empty. */
  lemma NonBlankEmpty(t: seq<string>)
    ensures |Filter(t, NonBlank)| == 0 <==> forall i :: 0 <= i < |t| ==> t[i] == ""
  {
    if |Filter(t, NonBlank)| == 0 {
      forall i | 0 <= i < |t| ensures t[i] == "" {
        FilterMembers(t, NonBlank, t[i]);
      }
    } else {
      var x := Filter(t, NonBlank)[0];
      FilterMembers(t, NonBlank, x);
    }
  }

  /** Every line is empty once trimmed. */
  predicate AllBlank(pieces: seq<string>) {
    forall i :: 0 <= i < |pieces| ==> Text.Trim(pieces[i]) == ""
  }

  /** Lines that hold no line break, trimmed and with the blank ones
      dropped, are non-empty and hold no line break; none is kept exactly
      when every line is blank. */
  lemma KeptLines(pieces: seq<string>)
    requires forall i :: 0 <= i < |pieces| ==> '\n' !in pieces[i]
    ensures forall i :: 0 <= i < |Filter(TrimAll(pieces), NonBlank)| ==>
      (Filter(TrimAll(pieces), NonBlank)[i] != "" && '\n' !in Filter(TrimAll(pieces), NonBlank)[i])
    ensures |Filter(TrimAll(pieces), NonBlank)| == 0 <==> AllBlank(pieces)
  {
    var trimmed := TrimAll(pieces);
    var kept := Filter(trimmed, NonBlank);
    NonBlankEmpty(trimmed);
    forall i | 0 <= i < |kept| ensures '\n' !in kept[i] {
      FilterMembers(trimmed, NonBlank, kept[i]);
      var j :| 0 <= j < |trimmed| && trimmed[j] == kept[i];
      TrimKeepsOut(pieces[j], '\n');
    }
  }

  /** Every line kept is non-blank, trimmed and free of line breaks, and none
      is kept exactly when every line of the text is blank. */
  lemma LinesSpec(text: string)
    ensures forall i :: 0 <= i < |Lines(text)| ==>
      (Lines(text)[i] != "" && '\n' !in Lines(text)[i])
    ensures |Lines(text)| == 0 <==> AllBlank(Text.Split(text, '\n'))
  {
    KeptLines(Text.Split(text, '\n'));
  }

  /** The first one or two non-empty lines joined by a space are non-empty
      and hold no line break. */
  lemma JoinFirstTwo(lines: seq<string>)
    requires |lines| >= 1
    requires forall i :: 0 <= i < |lines| ==> (lines[i] != "" && '\n' !in lines[i])
    ensures var v := Text.Join(lines[..if |lines| < 2 then |lines| else 2], ' ');
      v != "" && '\n' !in v
      && (|lines| == 1 ==> v == lines[0])
      && (|lines| >= 2 ==> v == lines[0] + " " + lines[1])
  {
    if |lines| >= 2 {
      var two := lines[..2];
      assert two[1..] == [lines[1]];
      assert Text.Join(two, ' ') == lines[0] + [' '] + lines[1];
      Text.JoinFree(two, ' ', '\n');
    } else {
      assert lines[..1] == [lines[0]];
    }
  }

  /** A vendor is found exactly when some line is non-blank; it is then the
      first such line, followed by a space and the second one when there is
      one, and it is never empty and never spans two lines. */
  lemma DetectVendorSpec(text: string)
    ensures DetectVendor(text).None? <==> |Lines(text)| == 0
    ensures DetectVendor(text).Some? ==>
      (DetectVendor(text).value != "" && '\n' !in DetectVendor(text).value)
    ensures |Lines(text)| == 1 ==> DetectVendor(text) == Some(Lines(text)[0])
    ensures |Lines(text)| >= 2 ==> DetectVendor(text) == Some(Lines(text)[0] + " " + Lines(text)[1])
    ensures DetectVendor(text).None? ==> Vendor(text) == "Unknown vendor"
  {
    var lines := Lines(text);
    LinesSpec(text);
    if |lines| > 0 {
      JoinFirstTwo(lines);
    }
  }
}
