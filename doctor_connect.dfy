/**
 * The doctor panel: the specialist chosen from the disease name and the symptoms, and
 * the search address built from that specialist and the city.
 */
module DoctorConnect {
  import opened Wrappers
  import opened Strings

  const DefaultSpecialty := "General Physician"
  const DefaultCity := "Bangalore"

  /** Keyword and specialist, in the order the lookup tries them. */
  const SpecialistMap: seq<(string, string)> := [
    ("skin", "Dermatologist"),
    ("rash", "Dermatologist"),
    ("acne", "Dermatologist"),
    ("fever", "General Physician"),
    ("cold", "General Physician"),
    ("flu", "General Physician"),
    ("viral", "General Physician"),
    ("stomach", "Gastroenterologist"),
    ("digest", "Gastroenterologist"),
    ("heart", "Cardiologist"),
    ("breath", "Pulmonologist"),
    ("lung", "Pulmonologist"),
    ("bone", "Orthopedic"),
    ("joint", "Orthopedic"),
    ("headache", "Neurologist"),
    ("migraine", "Neurologist"),
    ("brain", "Neurologist"),
    ("eye", "Ophthalmologist"),
    ("ear", "ENT Specialist"),
    ("throat", "ENT Specialist"),
    ("tooth", "Dentist"),
    ("teeth", "Dentist")
  ]

  /** The specialists the panel can recommend. */
  function Specialists(): set<string> {
    (set i | 0 <= i < |SpecialistMap| :: SpecialistMap[i].1) + {DefaultSpecialty}
  }

  /** The disease name, a space and the symptoms joined by spaces, lower-cased. */
  function SearchText(diseaseName: string, symptoms: seq<string>): string {
    ToLower(diseaseName + " " + Join(symptoms, " "))
  }

  /** The keyword of entry `i` occurs in `text`. */
  predicate KeyMatches(text: string, i: int)
    requires 0 <= i < |SpecialistMap|
  {
    Includes(text, SpecialistMap[i].0)
  }

  /** The first entry at or after `from` whose keyword occurs in `text`. */
  function FirstMatch(text: string, from: nat): (r: Option<nat>)
    decreases |SpecialistMap| - from
    ensures r.Some? ==> from <= r.value < |SpecialistMap| && KeyMatches(text, r.value)
    ensures r.Some? ==> forall j :: from <= j < r.value ==> !KeyMatches(text, j)
    ensures r.None? ==> forall j :: from <= j < |SpecialistMap| ==> !KeyMatches(text, j)
  {
    if from >= |SpecialistMap| then None
    else if KeyMatches(text, from) then Some(from)
    else FirstMatch(text, from + 1)
  }

  /**
   * The specialist for a search text: the one of the first keyword, in map order, that
   * occurs in the text, or the general physician when none does.
   */
  function Specialty(text: string): (r: string)
    ensures r in Specialists()
    ensures (forall j :: 0 <= j < |SpecialistMap| ==> !KeyMatches(text, j)) ==> r == DefaultSpecialty
    ensures forall i :: 0 <= i < |SpecialistMap| && KeyMatches(text, i) && (forall j :: 0 <= j < i ==> !KeyMatches(text, j)) ==>
              r == SpecialistMap[i].1
  {
    match FirstMatch(text, 0)
    case None => DefaultSpecialty
    case Some(i) =>
      assert forall k :: 0 <= k < |SpecialistMap| && KeyMatches(text, k) && (forall j :: 0 <= j < k ==> !KeyMatches(text, j)) ==> k == i;
      SpecialistMap[i].1
  }

  /** `getSpecialty`: tries the entries in order and returns at the first keyword found. */
  method GetSpecialty(diseaseName: string, symptoms: seq<string>) returns (r: string)
    ensures r == Specialty(SearchText(diseaseName, symptoms))
  {
    var text := SearchText(diseaseName, symptoms);
    var i := 0;
    while i < |SpecialistMap|
      invariant 0 <= i <= |SpecialistMap|
      invariant forall j :: 0 <= j < i ==> !KeyMatches(text, j)
    {
      if Includes(text, SpecialistMap[i].0) {
        return SpecialistMap[i].1;
      }
      i := i + 1;
    }
    return DefaultSpecialty;
  }

  /**
   * Every text that mentions "heart" also contains the keyword "ear", yet it goes to the
   * cardiologist: the earlier entry wins.
   */
  lemma HeartBeforeEar(text: string)
    requires Includes(text, "heart")
    requires forall j :: 0 <= j < 9 ==> !KeyMatches(text, j)
    ensures KeyMatches(text, 18)
    ensures Specialty(text) == "Cardiologist"
  {
    var i := IndexOf(text, "heart", 0).value;
    assert OccursAt(text, "ear", i + 1) by {
      assert text[i..i + 5] == "heart";
      assert text[i + 1..i + 4] == text[i..i + 5][1..4];
    }
    IncludesAt(text, "ear", i + 1);
    assert SpecialistMap[18].0 == "ear";
    assert SpecialistMap[9] == ("heart", "Cardiologist");
    assert KeyMatches(text, 9);
  }

  // ---------------------------------------------------------------- search address

  /** One element of the search query. */
  datatype QueryItem = QueryItem(word: string, autocompleted: bool, category: string)

  /** The query is a single auto-completed sub-speciality entry naming the specialist. */
  function PractoQuery(specialty: string): (q: seq<QueryItem>)
    ensures |q| == 1
    ensures q[0].word == specialty && q[0].autocompleted && q[0].category == "subspeciality"
  {
    [QueryItem(specialty, true, "subspeciality")]
  }

  /** The city as it goes into the address: trimmed, then lower-cased. */
  function PractoLocation(city: string): (r: string)
    ensures r == [] || (!IsWhitespace(r[0]) && !IsWhitespace(r[|r| - 1]))
    ensures forall i :: 0 <= i < |r| ==> !('A' <= r[i] <= 'Z')
    ensures ToLower(Trim(city)) == r
  {
    var t := Trim(city);
    ToLowerFacts(t);
    ToLower(t)
  }

  /** Normalising a city that is already normalised changes nothing. */
  lemma PractoLocationIdempotent(city: string)
    ensures PractoLocation(PractoLocation(city)) == PractoLocation(city)
  {
    var r := PractoLocation(city);
    assert Trim(r) == r by { TrimUnpadded(r); }
    assert ToLower(r) == r by { ToLowerUnchanged(r); }
    assert PractoLocation(r) == ToLower(Trim(r));
  }

  /** The default city is searched as "bangalore". */
  lemma DefaultCityLocation()
    ensures PractoLocation(DefaultCity) == "bangalore"
  {
    TrimUnpadded(DefaultCity);
    var k := ToLower("Bangalore");
    assert LowerChar('B') == 'b';
    assert k[0] == 'b';
    assert forall i :: 1 <= i < |k| ==> k[i] == "Bangalore"[i];
    assert k == "bangalore";
  }

  const PractoSearch := "https://www.practo.com/search/doctors?q="
  const PractoResults := "&results_type=doctor"

  /**
   * The address opened for a specialist and a city; `stringify` and `encode` stand for
   * `JSON.stringify` and `encodeURIComponent`. It is the search address, then the encoded
   * query, then the encoded normalised city, then the result type.
   */
  function PractoUrl(specialty: string, city: string, stringify: seq<QueryItem> -> string, encode: string -> string): (url: string)
    ensures |PractoSearch| <= |url| && url[..|PractoSearch|] == PractoSearch
    ensures |PractoResults| <= |url| && url[|url| - |PractoResults|..] == PractoResults
    ensures url[|PractoSearch|..] == encode(stringify(PractoQuery(specialty))) + ("&city=" + encode(PractoLocation(city)) + PractoResults)
    ensures Includes(url, "&city=" + encode(PractoLocation(city)) + PractoResults)
  {
    var q := encode(stringify(PractoQuery(specialty)));
    var tail := "&city=" + encode(PractoLocation(city)) + PractoResults;
    var url := PractoSearch + q + tail;
    assert url == (PractoSearch + q) + tail;
    assert url[|PractoSearch|..] == q + tail;
    IncludesSelf(tail);
    IncludesRight(PractoSearch + q, tail, tail);
    url
  }

  /**
   * With a one-to-one serialiser and encoder, the address determines the specialist it
   * searches for: two specialists searched in the same city give two addresses.
   */
  lemma PractoUrlNamesSpecialty(s1: string, s2: string, city: string, stringify: seq<QueryItem> -> string, encode: string -> string)
    requires forall a, b :: stringify(a) == stringify(b) ==> a == b
    requires forall a, b :: encode(a) == encode(b) ==> a == b
    requires PractoUrl(s1, city, stringify, encode) == PractoUrl(s2, city, stringify, encode)
    ensures s1 == s2
  {
    SameUrlSameQuery(s1, s2, city, stringify, encode);
    QueryNamesSpecialty(s1, s2, stringify, encode);
  }

  /** Two addresses for the same city are equal only if their encoded queries are. */
  lemma SameUrlSameQuery(s1: string, s2: string, city: string, stringify: seq<QueryItem> -> string, encode: string -> string)
    requires PractoUrl(s1, city, stringify, encode) == PractoUrl(s2, city, stringify, encode)
    ensures encode(stringify(PractoQuery(s1))) == encode(stringify(PractoQuery(s2)))
  {
    var tail := "&city=" + encode(PractoLocation(city)) + PractoResults;
    CancelTail(encode(stringify(PractoQuery(s1))), encode(stringify(PractoQuery(s2))), tail);
  }

  /** Equal encoded queries name the same specialist. */
  lemma QueryNamesSpecialty(s1: string, s2: string, stringify: seq<QueryItem> -> string, encode: string -> string)
    requires forall a, b :: stringify(a) == stringify(b) ==> a == b
    requires forall a, b :: encode(a) == encode(b) ==> a == b
    requires encode(stringify(PractoQuery(s1))) == encode(stringify(PractoQuery(s2)))
    ensures s1 == s2
  {
    assert PractoQuery(s1)[0].word == s1 && PractoQuery(s2)[0].word == s2;
  }
}
