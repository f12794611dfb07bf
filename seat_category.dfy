/** The three seat classes of a flight and their case-insensitive parsing. */
module SeatCategories {
  import opened Common

  datatype SeatCategory = ECONOMY | BUSINESS | EXECUTIVE

  /** The constants in declaration order, as `values()` yields them. */
  const Values: seq<SeatCategory> := [ECONOMY, BUSINESS, EXECUTIVE]

  /** The text a category carries: its own constant name. */
  function GetValue(c: SeatCategory): (s: string)
    ensures |s| > 0 && forall i :: 0 <= i < |s| ==> 'A' <= s[i] <= 'Z'
  {
    match c
    case ECONOMY => "ECONOMY"
    case BUSINESS => "BUSINESS"
    case EXECUTIVE => "EXECUTIVE"
  }

  /** ASCII upper-casing of one character. */
  function UpperAscii(ch: char): char {
    if 'a' <= ch <= 'z' then (ch as int - 32) as char else ch
  }

  /** ASCII lower-casing of one character. */
  function LowerAscii(ch: char): char {
    if 'A' <= ch <= 'Z' then (ch as int + 32) as char else ch
  }

  /** ASCII lower-casing of a whole string. */
  function ToLowerAscii(s: string): (r: string)
    ensures |r| == |s| && forall i :: 0 <= i < |s| ==> r[i] == LowerAscii(s[i])
  {
    if s == [] then [] else [LowerAscii(s[0])] + ToLowerAscii(s[1..])
  }

  /** Two characters are equal ignoring case. */
  predicate CharEqualsIgnoreCase(a: char, b: char) {
    a == b || UpperAscii(a) == UpperAscii(b)
  }

  /** `String.equalsIgnoreCase`, restricted to the ASCII case mapping:
      same length, and equal ignoring case position by position. */
  predicate EqualsIgnoreCase(a: string, b: string) {
    |a| == |b| && forall i :: 0 <= i < |a| ==> CharEqualsIgnoreCase(a[i], b[i])
  }

  /** The linear search of `fromValue`: the first candidate whose value
      matches `s` ignoring case, if any. */
  function FindCategory(cands: seq<SeatCategory>, s: string): (r: Option<SeatCategory>)
    ensures r.Some? ==> r.value in cands && EqualsIgnoreCase(GetValue(r.value), s)
    ensures r.None? <==> forall c :: c in cands ==> !EqualsIgnoreCase(GetValue(c), s)
  {
    if cands == [] then None
    else if EqualsIgnoreCase(GetValue(cands[0]), s) then Some(cands[0])
    else FindCategory(cands[1..], s)
  }

  /** `values()` lists every category. */
  lemma ValuesListsAll()
    ensures forall c :: c in Values
  {
    forall c ensures c in Values {
      match c
      case ECONOMY => assert Values[0] == c;
      case BUSINESS => assert Values[1] == c;
      case EXECUTIVE => assert Values[2] == c;
    }
  }

  /** `fromValue`: the category whose value equals `s` ignoring case, or an
      `IllegalArgumentException` naming the unknown text. */
  function FromValue(s: string): (r: Result<SeatCategory>)
    ensures r.Ok? ==> EqualsIgnoreCase(GetValue(r.value), s)
    ensures r.Err? ==> r.error == IllegalArgument("Unknown SeatCategory: " + s)
    ensures r.Err? <==> forall c :: !EqualsIgnoreCase(GetValue(c), s)
  {
    match FindCategory(Values, s)
    case Some(c) => Ok(c)
    case None =>
      ValuesListsAll();
      Err(IllegalArgument("Unknown SeatCategory: " + s))
  }

  /** No text matches two different categories, so the search order of
      `fromValue` does not decide its answer. */
  lemma ValuesDistinctIgnoringCase(c: SeatCategory, d: SeatCategory, s: string)
    requires EqualsIgnoreCase(GetValue(c), s) && EqualsIgnoreCase(GetValue(d), s)
    ensures c == d
  {
  }

  /** Any spelling of a category's value, in any case, parses to that category. */
  lemma FromValueMatches(c: SeatCategory, s: string)
    requires EqualsIgnoreCase(GetValue(c), s)
    ensures FromValue(s) == Ok(c)
  {
    var r := FromValue(s);
    assert r.Ok?;
    ValuesDistinctIgnoringCase(c, r.value, s);
  }

  /** `fromValue(c.getValue()) == c`. */
  lemma FromValueRoundTrip(c: SeatCategory)
    ensures FromValue(GetValue(c)) == Ok(c)
  {
    FromValueMatches(c, GetValue(c));
  }

  /** The lower-case spelling of a value parses to its category. */
  lemma {:induction false} FromValueLowerCase(c: SeatCategory)
    ensures FromValue(ToLowerAscii(GetValue(c))) == Ok(c)
  {
    var v := GetValue(c);
    var w := ToLowerAscii(v);
    forall i | 0 <= i < |v| ensures CharEqualsIgnoreCase(v[i], w[i]) {
      assert 'A' <= v[i] <= 'Z';
      assert UpperAscii(w[i]) == v[i];
    }
    FromValueMatches(c, w);
  }

  /** Mixed-case spellings parse. */
  lemma FromValueExamples()
    ensures FromValue("economy") == Ok(ECONOMY)
    ensures FromValue("Business") == Ok(BUSINESS)
  {
    FromValueMatches(ECONOMY, "economy");
    FromValueMatches(BUSINESS, "Business");
  }

  /** An unknown name is rejected with its text. */
  lemma FromValueUnknownExample()
    ensures FromValue("FIRST") == Err(IllegalArgument("Unknown SeatCategory: FIRST"))
  {
    assert !EqualsIgnoreCase(GetValue(ECONOMY), "FIRST");
    assert !EqualsIgnoreCase(GetValue(BUSINESS), "FIRST");
    assert !EqualsIgnoreCase(GetValue(EXECUTIVE), "FIRST");
  }
}
