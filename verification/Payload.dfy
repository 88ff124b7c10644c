/** The typed onboarding payload of orchestrator/onboarding_autonomy.py: validation of untrusted
    JSON, and the way back through `to_json` and the journal file. */
module Payload {
  import opened Wrappers

  datatype Failure = TypeError | ValueError | OverflowError

  datatype Result<+T> = Ok(value: T) | Err(error: Failure) {
    predicate IsFailure() { Err? }

    function PropagateFailure<U>(): Result<U>
      requires Err?
    {
      Err(error)
    }

    function Extract(): T
      requires Ok?
    {
      value
    }
  }

  /** Values of the JSON reader, and tuples, which only `to_json` produces. */
  datatype Json =
    | Null
    | Bool(b: bool)
    | Int(i: int)
    | Float(x: real)
    | NonFinite
    | Str(s: string)
    | List(items: seq<Json>)
    | Tuple(parts: seq<Json>)
    | Object(fields: map<string, Json>)

  datatype Niche = Niche(name: string, slug: string, productAngle: string, contentAngle: string, rationale: string)

  datatype Persona = Persona(name: string, age: int, psychTrigger: string, attentionSpan: string,
      buyingFriction: string, description: string)

  datatype Estimate = Estimate(slug: string, probability: real, reason: string)

  datatype Critique = Critique(persona: string, nicheSlug: string, intent: int, follows: bool, objection: string,
      reaction: string)

  datatype Payload = Payload(
    niches: seq<Niche>,
    personas: seq<Persona>,
    critiques: seq<Critique>,
    estimates: seq<Estimate>,
    winner: Option<string>,
    selectionRationale: string)

  /** What the validator takes from the Unicode tables: white space and case folding. */
  datatype Unicode = Unicode(isSpace: char -> bool, fold: string -> string)

  const MAX_TEXT := 4000
  const MAX_SLUG := 64

  // ---------------------------------------------------------------- strings

  function LStrip(u: Unicode, s: string): string { if s != "" && u.isSpace(s[0]) then LStrip(u, s[1..]) else s }

  function RStrip(u: Unicode, s: string): string {
    if s != "" && u.isSpace(s[|s| - 1]) then RStrip(u, s[..|s| - 1]) else s
  }

  function Strip(u: Unicode, s: string): string { RStrip(u, LStrip(u, s)) }

  /** Text that stripping leaves as it is. */
  predicate Stripped(u: Unicode, s: string) { s != "" ==> !u.isSpace(s[0]) && !u.isSpace(s[|s| - 1]) }

  lemma {:induction false} LStripEnds(u: Unicode, s: string)
    ensures var r := LStrip(u, s); |r| <= |s| && (r != "" ==> !u.isSpace(r[0]))
  {
    if s != "" && u.isSpace(s[0]) { LStripEnds(u, s[1..]); }
  }

  lemma {:induction false} RStripEnds(u: Unicode, s: string)
    ensures var r := RStrip(u, s); r <= s && (r != "" ==> !u.isSpace(r[|r| - 1]))
  {
    if s != "" && u.isSpace(s[|s| - 1]) { RStripEnds(u, s[..|s| - 1]); }
  }

  /** Stripping removes exactly the outer white space, so stripping again changes nothing. */
  lemma StripIsStable(u: Unicode, s: string)
    ensures Stripped(u, Strip(u, s)) && |Strip(u, s)| <= |s|
    ensures Strip(u, Strip(u, s)) == Strip(u, s)
  {
    LStripEnds(u, s);
    RStripEnds(u, LStrip(u, s));
  }

  predicate SlugChar(c: char) { 'a' <= c <= 'z' || '0' <= c <= '9' }

  /** Lower-case kebab: groups of letters and digits, separated by single hyphens. */
  predicate IsSlug(s: string) {
    && 1 <= |s| <= MAX_SLUG
    && (forall i | 0 <= i < |s| ::
          SlugChar(s[i])
          || (s[i] == '-' && 0 < i < |s| - 1 && SlugChar(s[i - 1]) && SlugChar(s[i + 1])))
  }

  ghost predicate Group(s: string) { s != "" && forall i | 0 <= i < |s| :: 'a' <= s[i] <= 'z' || '0' <= s[i] <= '9' }

  /** Groups of letters and digits, a single hyphen between one and the next. */
  ghost predicate Kebab(s: string)
    decreases |s|
  {
    Group(s) || exists k | 0 < k < |s| :: s[k] == '-' && Group(s[..k]) && Kebab(s[k + 1..])
  }

  lemma SlugExactly(s: string)
    ensures IsSlug(s) <==> 1 <= |s| <= 64 && Kebab(s)
  {
    if IsSlug(s) { HyphensAreKebab(s); }
    if Kebab(s) { KebabHyphens(s); }
  }

  /** Every character is a letter or digit, or a hyphen between two of them. */
  ghost predicate Hyphens(s: string) {
    forall i | 0 <= i < |s| ::
      SlugChar(s[i]) || (s[i] == '-' && 0 < i < |s| - 1 && SlugChar(s[i - 1]) && SlugChar(s[i + 1]))
  }

  lemma {:induction false} HyphensAreKebab(s: string)
    requires s != "" && Hyphens(s)
    ensures Kebab(s)
    decreases |s|
  {
    if k :| 0 <= k < |s| && s[k] == '-' {
      var first := FirstHyphen(s, k);
      var rest := s[first + 1..];
      forall i | 0 <= i < |rest|
        ensures SlugChar(rest[i])
          || (rest[i] == '-' && 0 < i < |rest| - 1 && SlugChar(rest[i - 1]) && SlugChar(rest[i + 1]))
      {
        assert rest[i] == s[first + 1 + i];
      }
      HyphensAreKebab(rest);
      assert Group(s[..first]);
    } else {
      assert Group(s);
    }
  }

  lemma FirstHyphen(s: string, k: nat) returns (first: nat)
    requires k < |s| && s[k] == '-'
    ensures first <= k && s[first] == '-' && forall i | 0 <= i < first :: s[i] != '-'
  {
    first := 0;
    while s[first] != '-'
      invariant first <= k && forall i | 0 <= i < first :: s[i] != '-'
      decreases k - first
    {
      first := first + 1;
    }
  }

  lemma {:induction false} KebabHyphens(s: string)
    requires Kebab(s)
    ensures s != "" && Hyphens(s) && SlugChar(s[0])
    decreases |s|
  {
    if !Group(s) {
      var k :| 0 < k < |s| && s[k] == '-' && Group(s[..k]) && Kebab(s[k + 1..]);
      var head, rest := s[..k], s[k + 1..];
      KebabHyphens(rest);
      assert s[0] == head[0] && s[k - 1] == head[k - 1] && s[k + 1] == rest[0];
      forall i | 0 <= i < |s|
        ensures SlugChar(s[i]) || (s[i] == '-' && 0 < i < |s| - 1 && SlugChar(s[i - 1]) && SlugChar(s[i + 1]))
      {
        if i < k { assert s[i] == head[i]; } else if i > k { assert s[i] == rest[i - k - 1]; }
      }
    }
  }

  // ---------------------------------------------------------------- fields

  function Text(u: Unicode, j: Json): Result<string> {
    if j.Str? && Strip(u, j.s) != "" && |j.s| <= MAX_TEXT then Ok(Strip(u, j.s)) else Err(ValueError)
  }

  ghost predicate Spaces(u: Unicode, s: string) { forall i | 0 <= i < |s| :: u.isSpace(s[i]) }

  lemma {:induction false} LStripCuts(u: Unicode, s: string)
    ensures exists a :: s == a + LStrip(u, s) && Spaces(u, a)
  {
    if s != "" && u.isSpace(s[0]) {
      LStripCuts(u, s[1..]);
      var a :| s[1..] == a + LStrip(u, s[1..]) && Spaces(u, a);
      assert s == ([s[0]] + a) + LStrip(u, s) && Spaces(u, [s[0]] + a);
    } else {
      assert s == "" + s && Spaces(u, "");
    }
  }

  lemma {:induction false} RStripCuts(u: Unicode, s: string)
    ensures exists b :: s == RStrip(u, s) + b && Spaces(u, b)
  {
    if s != "" && u.isSpace(s[|s| - 1]) {
      RStripCuts(u, s[..|s| - 1]);
      var b :| s[..|s| - 1] == RStrip(u, s[..|s| - 1]) + b && Spaces(u, b);
      assert s == RStrip(u, s) + (b + [s[|s| - 1]]) && Spaces(u, b + [s[|s| - 1]]);
    } else {
      assert s == s + "" && Spaces(u, "");
    }
  }

  /** The text without the white space around it. */
  ghost predicate Trims(u: Unicode, s: string, text: string) {
    Stripped(u, text) && exists a, b :: s == a + text + b && Spaces(u, a) && Spaces(u, b)
  }

  /** A text field is accepted when it is not blank and, white space included, at most 4000
      characters long, and then yields the text without the white space around it. */
  lemma TextExactly(u: Unicode, j: Json)
    ensures Text(u, j).Ok? <==> j.Str? && |j.s| <= 4000 && !Spaces(u, j.s)
    ensures Text(u, j).Ok? ==> Trims(u, j.s, Text(u, j).value)
    ensures Text(u, j).Err? ==> Text(u, j).error == ValueError
  {
    if j.Str? { StripTrims(u, j.s); }
    hide Strip, Trims, Spaces;
  }

  lemma StripTrims(u: Unicode, s: string)
    ensures Trims(u, s, Strip(u, s)) && (Strip(u, s) == "" <==> Spaces(u, s))
  {
    var text := Strip(u, s);
    LStripCuts(u, s);
    RStripCuts(u, LStrip(u, s));
    var a :| s == a + LStrip(u, s) && Spaces(u, a);
    var b :| LStrip(u, s) == text + b && Spaces(u, b);
    StripIsStable(u, s);
    assert Stripped(u, text);
    hide *;
    assert s == a + text + b;
    TrimmedIsBlank(u, s, a, text, b);
  }

  lemma TrimmedIsBlank(u: Unicode, s: string, a: string, text: string, b: string)
    requires s == a + text + b && Spaces(u, a) && Spaces(u, b) && Stripped(u, text)
    ensures Trims(u, s, text) && (text == "" <==> Spaces(u, s))
  {
    if text == "" {
      forall i | 0 <= i < |s| ensures u.isSpace(s[i]) {
        if i < |a| { assert s[i] == a[i]; } else { assert s[i] == b[i - |a|]; }
      }
    } else {
      assert s[|a|] == text[0];
    }
  }

  function Slug(j: Json): Result<string> { if j.Str? && IsSlug(j.s) then Ok(j.s) else Err(ValueError) }

  /** The fields of an object with exactly the required keys. */
  function Record(j: Json, required: set<string>): Result<map<string, Json>> {
    if !j.Object? then Err(TypeError) else if j.fields.Keys != required then Err(ValueError) else Ok(j.fields)
  }

  function Get(fields: map<string, Json>, key: string): Json { if key in fields then fields[key] else Null }

  function BoundedInt(j: Json, low: int, high: int): Result<int> {
    if j.Int? && low <= j.i <= high then Ok(j.i) else Err(ValueError)
  }

  /** Integers beyond the float range raise before the range check. */
  function Probability(j: Json, floatRange: int): Result<real> {
    match j
    case Int(i) =>
      if i > floatRange || i < -floatRange then Err(OverflowError) else if 0 <= i <= 1 then Ok(i as real)
          else Err(ValueError)
    case Float(x) => if 0.0 <= x <= 1.0 then Ok(x) else Err(ValueError)
    case _ => Err(ValueError)
  }

  /** A probability is a number from 0 to 1; only an integer no float can hold overflows. */
  lemma ProbabilityExactly(j: Json, floatRange: int, x: real)
    requires floatRange >= 1
    ensures Probability(j, floatRange) == Ok(x) <==>
            (j == Int(0) && x == 0.0) || (j == Int(1) && x == 1.0) || (j == Float(x) && 0.0 <= x <= 1.0)
    ensures Probability(j, floatRange) == Err(OverflowError) <==> j.Int? && !(-floatRange <= j.i <= floatRange)
  {
  }

  const NICHE_KEYS := {"name", "slug", "product_angle", "content_angle", "rationale"}
  const PERSONA_KEYS := {"name", "age", "psych_trigger", "attention_span", "buying_friction", "description"}
  const ESTIMATE_KEYS := {"slug", "conversion_probability", "reason"}
  const CRITIQUE_KEYS :=
      {"persona", "niche_slug", "purchase_intent", "would_follow_content", "top_objection", "gut_reaction"}
  const ROOT_KEYS := {"niches", "personas", "critiques", "estimates", "winner_slug", "selection_rationale", "rationale"}

  function NicheOf(u: Unicode, j: Json): Result<Niche> {
    var f :- Record(j, NICHE_KEYS);
    var name :- Text(u, Get(f, "name"));
    var slug :- Slug(Get(f, "slug"));
    var product :- Text(u, Get(f, "product_angle"));
    var content :- Text(u, Get(f, "content_angle"));
    var rationale :- Text(u, Get(f, "rationale"));
    Ok(Niche(name, slug, product, content, rationale))
  }

  function PersonaOf(u: Unicode, j: Json): Result<Persona> {
    var f :- Record(j, PERSONA_KEYS);
    var age :- BoundedInt(Get(f, "age"), 13, 120);
    var name :- Text(u, Get(f, "name"));
    var trigger :- Text(u, Get(f, "psych_trigger"));
    var span :- Text(u, Get(f, "attention_span"));
    var friction :- Text(u, Get(f, "buying_friction"));
    var description :- Text(u, Get(f, "description"));
    Ok(Persona(name, age, trigger, span, friction, description))
  }

  function EstimateOf(u: Unicode, floatRange: int, j: Json): Result<Estimate> {
    var f :- Record(j, ESTIMATE_KEYS);
    var slug :- Slug(Get(f, "slug"));
    var probability :- Probability(Get(f, "conversion_probability"), floatRange);
    var reason :- Text(u, Get(f, "reason"));
    Ok(Estimate(slug, probability, reason))
  }

  function CritiqueOf(u: Unicode, personas: set<string>, slugs: set<string>, j: Json): Result<Critique> {
    var f :- Record(j, CRITIQUE_KEYS);
    var intent :- BoundedInt(Get(f, "purchase_intent"), 0, 100);
    var follows :- (if Get(f, "would_follow_content").Bool? then Ok(Get(f, "would_follow_content").b)
        else Err(TypeError));
    var persona :- Text(u, Get(f, "persona"));
    var slug :- Slug(Get(f, "niche_slug"));
    if persona !in personas || slug !in slugs then Err(ValueError)
    else
      var objection :- Text(u, Get(f, "top_objection"));
      var reaction :- Text(u, Get(f, "gut_reaction"));
      Ok(Critique(persona, slug, intent, follows, objection, reaction))
  }

  /** A record has its own fields, all of them and no others; anything but an object is a type error. */
  lemma FieldsExactly(u: Unicode, floatRange: int, personas: set<string>, slugs: set<string>, j: Json)
    ensures NicheOf(u, j).Ok? ==>
            j.Object? && j.fields.Keys == {"name", "slug", "product_angle", "content_angle", "rationale"}
    ensures PersonaOf(u, j).Ok? ==>
            j.Object? && j.fields.Keys
              == {"name", "age", "psych_trigger", "attention_span", "buying_friction", "description"}
    ensures EstimateOf(u, floatRange, j).Ok? ==>
            j.Object? && j.fields.Keys == {"slug", "conversion_probability", "reason"}
    ensures CritiqueOf(u, personas, slugs, j).Ok? ==>
            j.Object? && j.fields.Keys == {"persona", "niche_slug", "purchase_intent", "would_follow_content",
                                           "top_objection", "gut_reaction"}
    ensures !j.Object? ==>
            NicheOf(u, j) == Err(TypeError) && PersonaOf(u, j) == Err(TypeError)
            && EstimateOf(u, floatRange, j) == Err(TypeError) && CritiqueOf(u, personas, slugs, j) == Err(TypeError)
  {
    hide Text, Slug, Get, BoundedInt, Probability;
  }

  // ---------------------------------------------------------------- lists

  /** Every item checked in order; the first failure is the verdict. */
  function All<T>(check: Json -> Result<T>, items: seq<Json>): Result<seq<T>> {
    if items == [] then Ok([])
    else
      var front :- All(check, items[..|items| - 1]);
      var last :- check(items[|items| - 1]);
      Ok(front + [last])
  }

  function ListOf<T>(check: Json -> Result<T>, j: Json, count: nat): Result<seq<T>> {
    if !j.List? || |j.items| != count then Err(ValueError) else All(check, j.items)
  }

  lemma {:induction false} AllStops<T>(check: Json -> Result<T>, items: seq<Json>, n: nat)
    requires n <= |items| && All(check, items[..n]).Err?
    ensures All(check, items) == All(check, items[..n])
    decreases |items|
  {
    if n < |items| {
      assert items[..|items| - 1][..n] == items[..n];
      AllStops(check, items[..|items| - 1], n);
    } else {
      assert items[..n] == items;
    }
  }

  method CheckList<T>(check: Json -> Result<T>, j: Json, count: nat) returns (r: Result<seq<T>>)
    ensures r == ListOf(check, j, count)
  {
    if !j.List? || |j.items| != count { return Err(ValueError); }
    var done: seq<T> := [];
    for i := 0 to |j.items|
      invariant All(check, j.items[..i]) == Ok(done)
    {
      assert j.items[..i + 1][..i] == j.items[..i];
      var item := check(j.items[i]);
      if item.Err? {
        AllStops(check, j.items, i + 1);
        return Err(item.error);
      }
      done := done + [item.value];
    }
    assert j.items[..|j.items|] == j.items;
    return Ok(done);
  }

  lemma {:induction false} AllAt<T>(check: Json -> Result<T>, items: seq<Json>, values: seq<T>)
    requires |items| == |values| && forall i | 0 <= i < |items| :: check(items[i]) == Ok(values[i])
    ensures All(check, items) == Ok(values)
  {
    if items != [] {
      AllAt(check, items[..|items| - 1], values[..|values| - 1]);
      assert values == values[..|values| - 1] + [values[|values| - 1]];
    } else {
      assert values == [];
    }
  }

  lemma {:induction false} AllInverse<T>(check: Json -> Result<T>, items: seq<Json>)
    requires All(check, items).Ok?
    ensures |All(check, items).value| == |items|
    ensures forall i | 0 <= i < |items| :: check(items[i]) == Ok(All(check, items).value[i])
  {
    if items != [] { AllInverse(check, items[..|items| - 1]); }
  }

  // ---------------------------------------------------------------- the whole payload

  predicate Distinct(names: seq<string>) { forall i, k | 0 <= i < k < |names| :: names[i] != names[k] }

  function NicheNames(u: Unicode, ns: seq<Niche>): seq<string> {
    seq(|ns|, i requires 0 <= i < |ns| => u.fold(ns[i].name))
  }

  function Slugs(ns: seq<Niche>): seq<string> { seq(|ns|, i requires 0 <= i < |ns| => ns[i].slug) }

  function FoldedNames(u: Unicode, ps: seq<Persona>): seq<string> {
    seq(|ps|, i requires 0 <= i < |ps| => u.fold(ps[i].name))
  }

  function SetOf(s: seq<string>): set<string> { set x | x in s }

  function PersonaNames(ps: seq<Persona>): set<string> { set i | 0 <= i < |ps| :: ps[i].name }

  function EstimateSlugs(es: seq<Estimate>): set<string> { set i | 0 <= i < |es| :: es[i].slug }

  function PairOf(c: Critique): (string, string) { (c.persona, c.nicheSlug) }

  function Pairs(cs: seq<Critique>): set<(string, string)> { set i | 0 <= i < |cs| :: PairOf(cs[i]) }

  function Product(a: set<string>, b: set<string>): set<(string, string)> { set x, y | x in a && y in b :: (x, y) }

  function NichesOf(u: Unicode, root: map<string, Json>): Result<seq<Niche>> {
    var ns :- ListOf(j => NicheOf(u, j), Get(root, "niches"), 3);
    if Distinct(Slugs(ns)) && Distinct(NicheNames(u, ns)) then Ok(ns) else Err(ValueError)
  }

  function PersonasOf(u: Unicode, root: map<string, Json>): Result<seq<Persona>> {
    var ps :- ListOf(j => PersonaOf(u, j), Get(root, "personas"), 5);
    if Distinct(FoldedNames(u, ps)) then Ok(ps) else Err(ValueError)
  }

  function EstimatesOf(u: Unicode, floatRange: int, root: map<string, Json>,
      slugs: set<string>): Result<seq<Estimate>> {
    if "estimates" !in root then Ok([])
    else
      var es :- ListOf(j => EstimateOf(u, floatRange, j), root["estimates"], 3);
      if EstimateSlugs(es) == slugs then Ok(es) else Err(ValueError)
  }

  function WinnerOf(root: map<string, Json>, slugs: set<string>, estimates: seq<Estimate>): Result<Option<string>> {
    if Get(root, "winner_slug").Null? then Ok(None)
    else
      var slug :- Slug(Get(root, "winner_slug"));
      if slug in slugs && estimates != [] then Ok(Some(slug)) else Err(ValueError)
  }

  /** What the language treats as absent. */
  predicate Truthy(j: Json) {
    match j
    case Null => false
    case Bool(b) => b
    case Int(i) => i != 0
    case Float(x) => x != 0.0
    case NonFinite => true
    case Str(s) => s != ""
    case List(items) => items != []
    case Tuple(parts) => parts != []
    case Object(fields) => |fields| > 0
  }

  /** `selection_rationale`, or `rationale` when that key is missing altogether. */
  function RationaleOf(u: Unicode, root: map<string, Json>): Result<string> {
    var j := if "selection_rationale" in root then root["selection_rationale"]
             else if "rationale" in root then root["rationale"] else Str("");
    if Truthy(j) then Text(u, j) else Ok("")
  }

  function CritiquesOf(u: Unicode, root: map<string, Json>, personas: set<string>,
      slugs: set<string>): Result<seq<Critique>> {
    if "critiques" !in root then Ok([])
    else
      var cs :- ListOf(j => CritiqueOf(u, personas, slugs, j), root["critiques"], 15);
      if Pairs(cs) == Product(personas, slugs) && |Pairs(cs)| == 15 then Ok(cs) else Err(ValueError)
  }

  function Validate(u: Unicode, floatRange: int, j: Json): Result<Payload> {
    if !j.Object? then Err(TypeError)
    else if "niches" !in j.fields || "personas" !in j.fields || !(j.fields.Keys <= ROOT_KEYS) then Err(ValueError)
    else
      var niches :- NichesOf(u, j.fields);
      var slugs := SetOf(Slugs(niches));
      var personas :- PersonasOf(u, j.fields);
      var estimates :- EstimatesOf(u, floatRange, j.fields, slugs);
      var winner :- WinnerOf(j.fields, slugs, estimates);
      var rationale :- RationaleOf(u, j.fields);
      if winner.Some? && rationale == "" then Err(ValueError)
      else
        var critiques :- CritiquesOf(u, j.fields, PersonaNames(personas), slugs);
        Ok(Payload(niches, personas, critiques, estimates, winner, rationale))
  }

  /** A payload is delivered part by part.  Without its critiques an accepted one is still accepted;
      without its estimates too, unless it names a winner; without its niches it is not. */
  lemma PartsAreOptional(u: Unicode, floatRange: int, root: map<string, Json>)
    requires Validate(u, floatRange, Object(root)).Ok?
    ensures var p := Validate(u, floatRange, Object(root)).value;
            && Validate(u, floatRange, Object(root - {"critiques"})) == Ok(p.(critiques := []))
            && Validate(u, floatRange, Object(root - {"critiques", "estimates"}))
               == (if p.winner.Some? then Err(ValueError) else Ok(p.(critiques := [], estimates := [])))
            && Validate(u, floatRange, Object(root - {"niches"})) == Err(ValueError)
            && Validate(u, floatRange, Object(root - {"personas"})) == Err(ValueError)
  {
    var a, b := root - {"critiques"}, root - {"critiques", "estimates"};
    assert a.Keys <= root.Keys && b.Keys <= root.Keys;
    SameSelection(u, root, a);
    SameSelection(u, root, b);
    hide ListOf, NicheOf, PersonaOf, EstimateOf, CritiqueOf, Text, Slug, Slugs, NicheNames, FoldedNames, Truthy;
  }

  /** What does not depend on critiques and estimates. */
  lemma SameSelection(u: Unicode, a: map<string, Json>, b: map<string, Json>)
    requires forall key | key in {"niches", "personas", "winner_slug", "selection_rationale", "rationale"} ::
      (key in a <==> key in b) && (key in a ==> a[key] == b[key])
    ensures NichesOf(u, a) == NichesOf(u, b) && PersonasOf(u, a) == PersonasOf(u, b)
    ensures RationaleOf(u, a) == RationaleOf(u, b)
    ensures forall slugs, estimates :: WinnerOf(a, slugs, estimates) == WinnerOf(b, slugs, estimates)
  {
    hide ListOf, Text, Slug, Truthy;
  }

  /** What is no object is a type error; what is accepted has niches and personas and no unknown key. */
  lemma RootExactly(u: Unicode, floatRange: int, j: Json)
    ensures !j.Object? ==> Validate(u, floatRange, j) == Err(TypeError)
    ensures Validate(u, floatRange, j).Ok? ==>
            "niches" in j.fields && "personas" in j.fields
            && j.fields.Keys <= {"niches", "personas", "critiques", "estimates", "winner_slug", "selection_rationale",
                                 "rationale"}
    ensures j.Object? && ("niches" !in j.fields || "personas" !in j.fields) ==>
            Validate(u, floatRange, j) == Err(ValueError)
  {
    hide NichesOf, PersonasOf, EstimatesOf, WinnerOf, RationaleOf, CritiquesOf;
  }

  /** The older name of the rationale counts where the newer one is missing. */
  lemma RationaleIsASynonym(u: Unicode, floatRange: int, root: map<string, Json>)
    requires "rationale" in root && "selection_rationale" !in root
    ensures Validate(u, floatRange, Object(root))
            == Validate(u, floatRange, Object((root - {"rationale"})["selection_rationale" := root["rationale"]]))
  {
    var other := (root - {"rationale"})["selection_rationale" := root["rationale"]];
    assert forall key | key !in {"rationale", "selection_rationale"} ::
        (key in root <==> key in other) && (key in root ==> root[key] == other[key]);
    assert other.Keys <= ROOT_KEYS <==> root.Keys <= ROOT_KEYS;
    hide ListOf, Text, Slug, Truthy, NicheOf, PersonaOf, EstimateOf, CritiqueOf;
    assert RationaleOf(u, root) == RationaleOf(u, other);
    assert NichesOf(u, root) == NichesOf(u, other) && PersonasOf(u, root) == PersonasOf(u, other);
    assert forall slugs :: EstimatesOf(u, floatRange, root, slugs) == EstimatesOf(u, floatRange, other, slugs);
    assert forall slugs, es :: WinnerOf(root, slugs, es) == WinnerOf(other, slugs, es);
    assert forall names, slugs :: CritiquesOf(u, root, names, slugs) == CritiquesOf(u, other, names, slugs);
    hide NichesOf, PersonasOf, EstimatesOf, WinnerOf, RationaleOf, CritiquesOf;
  }

  // ---------------------------------------------------------------- what acceptance means

  predicate TextOk(u: Unicode, s: string) { s != "" && |s| <= MAX_TEXT && Strip(u, s) == s }

  predicate NicheOk(u: Unicode, n: Niche) {
    TextOk(u, n.name) && IsSlug(n.slug) && TextOk(u, n.productAngle) && TextOk(u, n.contentAngle)
        && TextOk(u, n.rationale)
  }

  predicate PersonaOk(u: Unicode, p: Persona) {
    && 13 <= p.age <= 120 && TextOk(u, p.name) && TextOk(u, p.psychTrigger) && TextOk(u, p.attentionSpan)
    && TextOk(u, p.buyingFriction) && TextOk(u, p.description)
  }

  predicate EstimateOk(u: Unicode, e: Estimate) { IsSlug(e.slug) && 0.0 <= e.probability <= 1.0 && TextOk(u, e.reason) }

  predicate CritiqueOk(u: Unicode, personas: set<string>, slugs: set<string>, c: Critique) {
    && 0 <= c.intent <= 100 && TextOk(u, c.persona) && IsSlug(c.nicheSlug) && c.persona in personas
        && c.nicheSlug in slugs
    && TextOk(u, c.objection) && TextOk(u, c.reaction)
  }

  lemma TextAccepted(u: Unicode, j: Json)
    ensures Text(u, j).Ok? ==> TextOk(u, Text(u, j).value)
  {
    if Text(u, j).Ok? { StripIsStable(u, j.s); }
  }

  lemma NicheAccepted(u: Unicode, j: Json)
    requires NicheOf(u, j).Ok?
    ensures NicheOk(u, NicheOf(u, j).value)
  {
    hide Text, TextOk, IsSlug;
    forall key ensures Text(u, Get(j.fields, key)).Ok? ==> TextOk(u, Text(u, Get(j.fields, key)).value) {
      TextAccepted(u, Get(j.fields, key));
    }
  }

  lemma PersonaAccepted(u: Unicode, j: Json)
    requires PersonaOf(u, j).Ok?
    ensures PersonaOk(u, PersonaOf(u, j).value)
  {
    hide Text, TextOk;
    forall key ensures Text(u, Get(j.fields, key)).Ok? ==> TextOk(u, Text(u, Get(j.fields, key)).value) {
      TextAccepted(u, Get(j.fields, key));
    }
  }

  lemma EstimateAccepted(u: Unicode, floatRange: int, j: Json)
    requires EstimateOf(u, floatRange, j).Ok?
    ensures EstimateOk(u, EstimateOf(u, floatRange, j).value)
  {
    TextAccepted(u, Get(j.fields, "reason"));
    hide Text, TextOk, IsSlug;
  }

  lemma CritiqueAccepted(u: Unicode, personas: set<string>, slugs: set<string>, j: Json)
    requires CritiqueOf(u, personas, slugs, j).Ok?
    ensures CritiqueOk(u, personas, slugs, CritiqueOf(u, personas, slugs, j).value)
  {
    hide Text, TextOk, IsSlug;
    forall key ensures Text(u, Get(j.fields, key)).Ok? ==> TextOk(u, Text(u, Get(j.fields, key)).value) {
      TextAccepted(u, Get(j.fields, key));
    }
  }

  ghost predicate NichesOk(u: Unicode, ns: seq<Niche>) {
    |ns| == 3 && (forall n | n in ns :: NicheOk(u, n)) && Distinct(Slugs(ns)) && Distinct(NicheNames(u, ns))
  }

  ghost predicate PersonasOk(u: Unicode, ps: seq<Persona>) {
    |ps| == 5 && (forall x | x in ps :: PersonaOk(u, x)) && Distinct(FoldedNames(u, ps))
  }

  ghost predicate EstimatesOk(u: Unicode, es: seq<Estimate>, slugs: set<string>) {
    es == [] || (|es| == 3 && (forall e | e in es :: EstimateOk(u, e)) && EstimateSlugs(es) == slugs)
  }

  ghost predicate CritiquesOk(u: Unicode, cs: seq<Critique>, personas: set<string>, slugs: set<string>) {
    cs == [] || (|cs| == 15 && (forall c | c in cs :: CritiqueOk(u, personas, slugs, c))
                 && Pairs(cs) == Product(personas, slugs) && |Pairs(cs)| == 15)
  }

  ghost predicate SelectionOk(u: Unicode, p: Payload) {
    && (p.selectionRationale == "" || TextOk(u, p.selectionRationale))
    && (p.winner.Some? ==> IsSlug(p.winner.value) && p.winner.value in SetOf(Slugs(p.niches))
                           && p.estimates != [] && p.selectionRationale != "")
  }

  /** What every accepted payload satisfies. */
  ghost predicate Canonical(u: Unicode, p: Payload) {
    && NichesOk(u, p.niches) && PersonasOk(u, p.personas)
    && EstimatesOk(u, p.estimates, SetOf(Slugs(p.niches)))
    && SelectionOk(u, p)
    && CritiquesOk(u, p.critiques, PersonaNames(p.personas), SetOf(Slugs(p.niches)))
  }

  lemma AllKeeps<T>(check: Json -> Result<T>, items: seq<Json>, good: T -> bool)
    requires All(check, items).Ok?
    requires forall j | j in items && check(j).Ok? :: good(check(j).value)
    ensures |All(check, items).value| == |items| && forall x | x in All(check, items).value :: good(x)
  {
    AllInverse(check, items);
  }

  lemma NichesAccepted(u: Unicode, root: map<string, Json>)
    requires NichesOf(u, root).Ok?
    ensures NichesOk(u, NichesOf(u, root).value)
  {
    var items := Get(root, "niches").items;
    forall j | j in items && NicheOf(u, j).Ok? ensures NicheOk(u, NicheOf(u, j).value) { NicheAccepted(u, j); }
    hide NicheOf, NicheOk;
    AllKeeps(j => NicheOf(u, j), items, n => NicheOk(u, n));
  }

  lemma PersonasAccepted(u: Unicode, root: map<string, Json>)
    requires PersonasOf(u, root).Ok?
    ensures PersonasOk(u, PersonasOf(u, root).value)
  {
    var items := Get(root, "personas").items;
    forall j | j in items && PersonaOf(u, j).Ok? ensures PersonaOk(u, PersonaOf(u, j).value) { PersonaAccepted(u, j); }
    hide PersonaOf, PersonaOk;
    AllKeeps(j => PersonaOf(u, j), items, x => PersonaOk(u, x));
  }

  lemma EstimatesAccepted(u: Unicode, floatRange: int, root: map<string, Json>, slugs: set<string>)
    requires EstimatesOf(u, floatRange, root, slugs).Ok?
    ensures EstimatesOk(u, EstimatesOf(u, floatRange, root, slugs).value, slugs)
  {
    if "estimates" in root {
      var items := root["estimates"].items;
      forall j | j in items && EstimateOf(u, floatRange, j).Ok?
          ensures EstimateOk(u, EstimateOf(u, floatRange, j).value) {
        EstimateAccepted(u, floatRange, j);
      }
      hide EstimateOf, EstimateOk;
      AllKeeps(j => EstimateOf(u, floatRange, j), items, e => EstimateOk(u, e));
    }
  }

  lemma CritiquesAccepted(u: Unicode, root: map<string, Json>, personas: set<string>, slugs: set<string>)
    requires CritiquesOf(u, root, personas, slugs).Ok?
    ensures CritiquesOk(u, CritiquesOf(u, root, personas, slugs).value, personas, slugs)
  {
    if "critiques" in root {
      var items := root["critiques"].items;
      forall j | j in items && CritiqueOf(u, personas, slugs, j).Ok?
          ensures CritiqueOk(u, personas, slugs, CritiqueOf(u, personas, slugs, j).value) {
        CritiqueAccepted(u, personas, slugs, j);
      }
      hide CritiqueOf, CritiqueOk;
      AllKeeps(j => CritiqueOf(u, personas, slugs, j), items, c => CritiqueOk(u, personas, slugs, c));
    }
  }

  lemma RationaleAccepted(u: Unicode, root: map<string, Json>)
    requires RationaleOf(u, root).Ok?
    ensures RationaleOf(u, root).value == "" || TextOk(u, RationaleOf(u, root).value)
  {
    var j := if "selection_rationale" in root then root["selection_rationale"]
             else if "rationale" in root then root["rationale"] else Str("");
    TextAccepted(u, j);
  }

  /** Every accepted payload is canonical: stripped texts, kebab slugs, ranges, uniqueness, and
      the rules between the parts. */
  lemma AcceptedIsCanonical(u: Unicode, floatRange: int, j: Json)
    requires Validate(u, floatRange, j).Ok?
    ensures Canonical(u, Validate(u, floatRange, j).value)
  {
    var p := Validate(u, floatRange, j).value;
    NichesAccepted(u, j.fields);
    PersonasAccepted(u, j.fields);
    var slugs := SetOf(Slugs(p.niches));
    EstimatesAccepted(u, floatRange, j.fields, slugs);
    RationaleAccepted(u, j.fields);
    CritiquesAccepted(u, j.fields, PersonaNames(p.personas), slugs);
  }

  // ---------------------------------------------------------------- bijections

  lemma {:induction false} PairsDistinct(cs: seq<Critique>)
    ensures |Pairs(cs)| <= |cs|
    ensures |Pairs(cs)| == |cs| ==> forall i, k | 0 <= i < k < |cs| :: PairOf(cs[i]) != PairOf(cs[k])
  {
    if cs != [] {
      var front, last := cs[..|cs| - 1], cs[|cs| - 1];
      PairsDistinct(front);
      PairsSnoc(front, last);
      assert cs == front + [last];
      if |Pairs(cs)| == |cs| {
        assert PairOf(last) !in Pairs(front);
      }
    }
  }

  lemma PairsSnoc(front: seq<Critique>, last: Critique)
    ensures Pairs(front + [last]) == Pairs(front) + {PairOf(last)}
  {
    var all := front + [last];
    forall x | x in Pairs(front) + {PairOf(last)} ensures x in Pairs(all) {
      if x == PairOf(last) { assert PairOf(all[|front|]) == x; }
      else { var i :| 0 <= i < |front| && PairOf(front[i]) == x; assert PairOf(all[i]) == x; }
    }
  }

  /** Accepted critiques are a bijection with the persona and niche pairs: every pair has its
      critique, and no pair has two. */
  lemma CritiquesAreABijection(u: Unicode, p: Payload, i: nat, k: nat)
    requires Canonical(u, p) && p.critiques != [] && i < |p.personas| && k < |p.niches|
    ensures exists c | 0 <= c < |p.critiques| :: PairOf(p.critiques[c]) == (p.personas[i].name, p.niches[k].slug)
    ensures forall a, b | 0 <= a < b < |p.critiques| :: PairOf(p.critiques[a]) != PairOf(p.critiques[b])
  {
    PairsDistinct(p.critiques);
    var x := (p.personas[i].name, p.niches[k].slug);
    assert Slugs(p.niches)[k] == x.1;
    assert x in Product(PersonaNames(p.personas), SetOf(Slugs(p.niches)));
    assert x in Pairs(p.critiques);
  }

  lemma {:induction false} SetSize(s: seq<string>)
    ensures |SetOf(s)| <= |s| && (|SetOf(s)| == |s| <==> Distinct(s))
  {
    if s != [] {
      var front, last := s[..|s| - 1], s[|s| - 1];
      SetSize(front);
      assert s == front + [last];
      assert SetOf(s) == SetOf(front) + {last};
      if Distinct(s) { assert forall i | 0 <= i < |front| :: front[i] == s[i] != last; }
      if Distinct(front) && last !in SetOf(front) { assert Distinct(s); }
      if last in SetOf(front) { var i :| 0 <= i < |front| && front[i] == last; assert s[i] == s[|front|]; }
    }
  }

  function EstimateSlugSeq(es: seq<Estimate>): seq<string> { seq(|es|, i requires 0 <= i < |es| => es[i].slug) }

  /** Accepted estimates are a bijection with the niches. */
  lemma EstimatesAreABijection(u: Unicode, p: Payload, k: nat)
    requires Canonical(u, p) && p.estimates != [] && k < |p.niches|
    ensures exists e | 0 <= e < |p.estimates| :: p.estimates[e].slug == p.niches[k].slug
    ensures forall a, b | 0 <= a < b < |p.estimates| :: p.estimates[a].slug != p.estimates[b].slug
  {
    var slugs := EstimateSlugSeq(p.estimates);
    assert SetOf(slugs) == EstimateSlugs(p.estimates) by {
      assert forall i | 0 <= i < |slugs| :: slugs[i] == p.estimates[i].slug;
    }
    SetSize(slugs);
    SetSize(Slugs(p.niches));
    assert Slugs(p.niches)[k] in EstimateSlugs(p.estimates);
    assert forall a | 0 <= a < |p.estimates| :: slugs[a] == p.estimates[a].slug;
  }

  // ---------------------------------------------------------------- out and back

  function NicheJson(n: Niche): Json {
    Object(map["name" := Str(n.name), "slug" := Str(n.slug), "product_angle" := Str(n.productAngle),
               "content_angle" := Str(n.contentAngle), "rationale" := Str(n.rationale)])
  }

  function PersonaJson(p: Persona): Json {
    Object(map["name" := Str(p.name), "age" := Int(p.age), "psych_trigger" := Str(p.psychTrigger),
               "attention_span" := Str(p.attentionSpan), "buying_friction" := Str(p.buyingFriction),
               "description" := Str(p.description)])
  }

  function EstimateJson(e: Estimate): Json {
    Object(map["slug" := Str(e.slug), "conversion_probability" := Float(e.probability), "reason" := Str(e.reason)])
  }

  function CritiqueJson(c: Critique): Json {
    Object(map["persona" := Str(c.persona), "niche_slug" := Str(c.nicheSlug), "purchase_intent" := Int(c.intent),
               "would_follow_content" := Bool(c.follows), "top_objection" := Str(c.objection), "gut_reaction" :=
                   Str(c.reaction)])
  }

  function Map<T>(f: T -> Json, values: seq<T>): (r: seq<Json>)
    ensures |r| == |values| && forall i | 0 <= i < |values| :: r[i] == f(values[i])
  {
    seq(|values|, i requires 0 <= i < |values| => f(values[i]))
  }

  /** `to_json`: tuples stay tuples, and every field is written, absent parts as empty tuples. */
  function ToJson(p: Payload): Json {
    Object(map["niches" := Tuple(Map(NicheJson, p.niches)),
               "personas" := Tuple(Map(PersonaJson, p.personas)),
               "critiques" := Tuple(Map(CritiqueJson, p.critiques)),
               "estimates" := Tuple(Map(EstimateJson, p.estimates)),
               "winner_slug" := if p.winner.Some? then Str(p.winner.value) else Null,
               "selection_rationale" := Str(p.selectionRationale)])
  }

  /** Writing a value to a JSON file and reading it back: a tuple comes back as a list. */
  function Reread(j: Json): Json {
    match j
    case List(items) => List(seq(|items|, i requires 0 <= i < |items| => Reread(items[i])))
    case Tuple(parts) => List(seq(|parts|, i requires 0 <= i < |parts| => Reread(parts[i])))
    case Object(fields) => Object(map k | k in fields :: Reread(fields[k]))
    case _ => j
  }

  lemma NicheBack(u: Unicode, n: Niche)
    ensures Reread(NicheJson(n)) == NicheJson(n)
    ensures NicheOk(u, n) ==> NicheOf(u, NicheJson(n)) == Ok(n)
  {
    assert Reread(NicheJson(n)).fields == NicheJson(n).fields;
    assert NicheJson(n).fields.Keys == NICHE_KEYS;
  }

  lemma PersonaBack(u: Unicode, p: Persona)
    ensures Reread(PersonaJson(p)) == PersonaJson(p)
    ensures PersonaOk(u, p) ==> PersonaOf(u, PersonaJson(p)) == Ok(p)
  {
    assert Reread(PersonaJson(p)).fields == PersonaJson(p).fields;
    assert PersonaJson(p).fields.Keys == PERSONA_KEYS;
  }

  lemma EstimateBack(u: Unicode, floatRange: int, e: Estimate)
    ensures Reread(EstimateJson(e)) == EstimateJson(e)
    ensures EstimateOk(u, e) ==> EstimateOf(u, floatRange, EstimateJson(e)) == Ok(e)
  {
    assert Reread(EstimateJson(e)).fields == EstimateJson(e).fields;
    assert EstimateJson(e).fields.Keys == ESTIMATE_KEYS;
  }

  lemma CritiqueBack(u: Unicode, personas: set<string>, slugs: set<string>, c: Critique)
    ensures Reread(CritiqueJson(c)) == CritiqueJson(c)
    ensures CritiqueOk(u, personas, slugs, c) ==> CritiqueOf(u, personas, slugs, CritiqueJson(c)) == Ok(c)
  {
    assert Reread(CritiqueJson(c)).fields == CritiqueJson(c).fields;
    assert CritiqueJson(c).fields.Keys == CRITIQUE_KEYS;
  }

  /** The root object as it comes back from the journal file. */
  function RootBack(p: Payload): map<string, Json> {
    map["niches" := List(Map(NicheJson, p.niches)),
        "personas" := List(Map(PersonaJson, p.personas)),
        "critiques" := List(Map(CritiqueJson, p.critiques)),
        "estimates" := List(Map(EstimateJson, p.estimates)),
        "winner_slug" := if p.winner.Some? then Str(p.winner.value) else Null,
        "selection_rationale" := Str(p.selectionRationale)]
  }

  lemma TupleBack<T>(f: T -> Json, values: seq<T>)
    requires forall x | x in values :: Reread(f(x)) == f(x)
    ensures Reread(Tuple(Map(f, values))) == List(Map(f, values))
  {
    assert Reread(Tuple(Map(f, values))).items == Map(f, values);
  }

  lemma PayloadBack(u: Unicode, p: Payload)
    ensures Reread(ToJson(p)) == Object(RootBack(p))
  {
    forall n ensures Reread(NicheJson(n)) == NicheJson(n) { NicheBack(u, n); }
    forall x ensures Reread(PersonaJson(x)) == PersonaJson(x) { PersonaBack(u, x); }
    forall e ensures Reread(EstimateJson(e)) == EstimateJson(e) { EstimateBack(u, 1, e); }
    forall c ensures Reread(CritiqueJson(c)) == CritiqueJson(c) { CritiqueBack(u, {}, {}, c); }
    TupleBack(NicheJson, p.niches);
    TupleBack(PersonaJson, p.personas);
    TupleBack(EstimateJson, p.estimates);
    TupleBack(CritiqueJson, p.critiques);
    hide NicheJson, PersonaJson, EstimateJson, CritiqueJson, Map;
    assert Reread(ToJson(p)).fields == RootBack(p);
  }

  lemma ListBack<T>(check: Json -> Result<T>, f: T -> Json, values: seq<T>, count: nat)
    requires |values| == count && forall x | x in values :: check(f(x)) == Ok(x)
    ensures ListOf(check, List(Map(f, values)), count) == Ok(values)
  {
    AllAt(check, Map(f, values), values);
  }

  lemma NichesBack(u: Unicode, p: Payload)
    requires NichesOk(u, p.niches)
    ensures NichesOf(u, RootBack(p)) == Ok(p.niches)
  {
    forall n | n in p.niches ensures NicheOf(u, NicheJson(n)) == Ok(n) { NicheBack(u, n); }
    hide NicheOf, NicheJson, NicheOk;
    ListBack(j => NicheOf(u, j), NicheJson, p.niches, 3);
  }

  lemma PersonasBack(u: Unicode, p: Payload)
    requires PersonasOk(u, p.personas)
    ensures PersonasOf(u, RootBack(p)) == Ok(p.personas)
  {
    forall x | x in p.personas ensures PersonaOf(u, PersonaJson(x)) == Ok(x) { PersonaBack(u, x); }
    hide PersonaOf, PersonaJson, PersonaOk;
    ListBack(j => PersonaOf(u, j), PersonaJson, p.personas, 5);
  }

  lemma EstimatesBack(u: Unicode, floatRange: int, p: Payload, slugs: set<string>)
    requires EstimatesOk(u, p.estimates, slugs)
    ensures EstimatesOf(u, floatRange, RootBack(p), slugs) == if p.estimates == [] then Err(ValueError)
      else Ok(p.estimates)
  {
    if p.estimates != [] {
      forall e | e in p.estimates ensures EstimateOf(u, floatRange, EstimateJson(e)) == Ok(e) {
        EstimateBack(u, floatRange, e);
      }
      hide EstimateOf, EstimateJson, EstimateOk;
      ListBack(j => EstimateOf(u, floatRange, j), EstimateJson, p.estimates, 3);
    }
  }

  lemma CritiquesBack(u: Unicode, p: Payload, personas: set<string>, slugs: set<string>)
    requires CritiquesOk(u, p.critiques, personas, slugs)
    ensures CritiquesOf(u, RootBack(p), personas, slugs) == if p.critiques == [] then Err(ValueError)
      else Ok(p.critiques)
  {
    if p.critiques != [] {
      forall c | c in p.critiques ensures CritiqueOf(u, personas, slugs, CritiqueJson(c)) == Ok(c) {
        CritiqueBack(u, personas, slugs, c);
      }
      hide CritiqueOf, CritiqueJson, CritiqueOk;
      ListBack(j => CritiqueOf(u, personas, slugs, j), CritiqueJson, p.critiques, 15);
    }
  }

  lemma SelectionBack(u: Unicode, p: Payload)
    requires SelectionOk(u, p)
    ensures WinnerOf(RootBack(p), SetOf(Slugs(p.niches)), p.estimates) == Ok(p.winner)
    ensures RationaleOf(u, RootBack(p)) == Ok(p.selectionRationale)
  {
    hide Strip, Slugs, SetOf, Map;
  }

  /** The parts that selection and critique add. */
  predicate Complete(p: Payload) { p.critiques != [] && p.estimates != [] }

  /** Round trip through the journal file: an accepted payload that was written by `to_json` and
      read back is accepted again as the same payload exactly when it is complete. */
  lemma RoundTrip(u: Unicode, floatRange: int, j: Json)
    requires Validate(u, floatRange, j).Ok?
    ensures var p := Validate(u, floatRange, j).value;
            Validate(u, floatRange, Reread(ToJson(p))) == Ok(p) <==> Complete(p)
  {
    var p := Validate(u, floatRange, j).value;
    AcceptedIsCanonical(u, floatRange, j);
    PayloadBack(u, p);
    CanonicalBack(u, floatRange, p);
  }

  lemma CanonicalBack(u: Unicode, floatRange: int, p: Payload)
    requires Canonical(u, p)
    ensures Validate(u, floatRange, Object(RootBack(p))) == if Complete(p) then Ok(p) else Err(ValueError)
  {
    var slugs := SetOf(Slugs(p.niches));
    NichesBack(u, p);
    PersonasBack(u, p);
    EstimatesBack(u, floatRange, p, slugs);
    SelectionBack(u, p);
    CritiquesBack(u, p, PersonaNames(p.personas), slugs);
    hide NichesOf, PersonasOf, EstimatesOf, CritiquesOf, WinnerOf, RationaleOf, NichesOk, PersonasOk, EstimatesOk,
        CritiquesOk, Slugs, PersonaNames;
    assert RootBack(p).Keys <= ROOT_KEYS;
  }

  /** Without the file in between the round trip always fails: `to_json` keeps tuples, and the
      validator insists on lists. */
  lemma DirectRoundTripFails(u: Unicode, floatRange: int, p: Payload)
    ensures Validate(u, floatRange, ToJson(p)) == Err(ValueError)
  {
    assert ToJson(p).fields.Keys <= ROOT_KEYS;
    assert NichesOf(u, ToJson(p).fields).Err?;
  }

  // ---------------------------------------------------------------- the validator

  /** `validate_onboarding_payload`. */
  method ValidateOnboardingPayload(u: Unicode, floatRange: int, payload: Json) returns (r: Result<Payload>)
    ensures r == Validate(u, floatRange, payload)
  {
    if !payload.Object? { return Err(TypeError); }
    var root := payload.fields;
    if "niches" !in root || "personas" !in root || !(root.Keys <= ROOT_KEYS) { return Err(ValueError); }
    var niches := CheckList(j => NicheOf(u, j), root["niches"], 3);
    if niches.Err? { return Err(niches.error); }
    if !Distinct(Slugs(niches.value)) || !Distinct(NicheNames(u, niches.value)) { return Err(ValueError); }
    var slugs := SetOf(Slugs(niches.value));
    var personas := CheckList(j => PersonaOf(u, j), root["personas"], 5);
    if personas.Err? { return Err(personas.error); }
    if !Distinct(FoldedNames(u, personas.value)) { return Err(ValueError); }
    var estimates := CheckEstimates(u, floatRange, root, slugs);
    if estimates.Err? { return Err(estimates.error); }
    var winner := WinnerOf(root, slugs, estimates.value);
    if winner.Err? { return Err(winner.error); }
    var rationale := RationaleOf(u, root);
    if rationale.Err? { return Err(rationale.error); }
    if winner.value.Some? && rationale.value == "" { return Err(ValueError); }
    var critiques := CheckCritiques(u, root, PersonaNames(personas.value), slugs);
    if critiques.Err? { return Err(critiques.error); }
    return Ok(Payload(niches.value, personas.value, critiques.value, estimates.value, winner.value, rationale.value));
  }

  method CheckEstimates(u: Unicode, floatRange: int, root: map<string, Json>, slugs: set<string>)
      returns (r: Result<seq<Estimate>>)
    ensures r == EstimatesOf(u, floatRange, root, slugs)
  {
    if "estimates" !in root { return Ok([]); }
    r := CheckList(j => EstimateOf(u, floatRange, j), root["estimates"], 3);
    if r.Ok? && EstimateSlugs(r.value) != slugs { r := Err(ValueError); }
  }

  method CheckCritiques(u: Unicode, root: map<string, Json>, personas: set<string>, slugs: set<string>)
      returns (r: Result<seq<Critique>>)
    ensures r == CritiquesOf(u, root, personas, slugs)
  {
    if "critiques" !in root { return Ok([]); }
    r := CheckList(j => CritiqueOf(u, personas, slugs, j), root["critiques"], 15);
    if r.Ok? && !(Pairs(r.value) == Product(personas, slugs) && |Pairs(r.value)| == 15) { r := Err(ValueError); }
  }
}
