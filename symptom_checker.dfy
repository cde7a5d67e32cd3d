/**
 * The symptom-checker page: the symptom list (typed, picked or dictated), the guard
 * before analysis, the page's own risk-level badge and icon, and the doctor panel.
 */
module SymptomChecker {
  import opened Wrappers
  import opened Strings
  import opened Lists
  import Helpers
  import SymptomsRoute

  // ---------------------------------------------------------------- voice transcript

  /** A `,` or an `and` starts at index `i` of `s`. */
  predicate SeparatorAt(s: string, i: int) {
    && 0 <= i < |s|
    && (s[i] == ',' || (i + 3 <= |s| && s[i] == 'a' && s[i + 1] == 'n' && s[i + 2] == 'd'))
  }

  predicate NoSeparator(s: string) {
    forall i :: 0 <= i < |s| ==> !SeparatorAt(s, i)
  }

  /** The first separator at or after `from`. */
  function FirstSeparator(s: string, from: nat): (r: Option<nat>)
    decreases |s| - from
    ensures r.Some? ==> from <= r.value < |s| && SeparatorAt(s, r.value)
    ensures r.Some? ==> forall j :: from <= j < r.value ==> !SeparatorAt(s, j)
    ensures r.None? ==> forall j :: from <= j < |s| ==> !SeparatorAt(s, j)
  {
    if from >= |s| then None
    else if SeparatorAt(s, from) then Some(from)
    else FirstSeparator(s, from + 1)
  }

  function SeparatorLength(s: string, i: nat): (n: nat)
    requires SeparatorAt(s, i)
    ensures i + n <= |s|
  {
    if s[i] == ',' then 1 else 3
  }

  /** `s.split(/,|and/)`: the pieces between separators, found left to right. */
  function SplitPieces(s: string): (r: seq<string>)
    decreases |s|
    ensures |r| >= 1
    ensures forall k :: 0 <= k < |r| ==> NoSeparator(r[k])
  {
    match FirstSeparator(s, 0)
    case None => [s]
    case Some(i) =>
      var piece := s[..i];
      assert NoSeparator(piece) by {
        forall j | 0 <= j < |piece| ensures !SeparatorAt(piece, j) {
          assert !SeparatorAt(s, j);
        }
      }
      [piece] + SplitPieces(s[i + SeparatorLength(s, i)..])
  }

  /** The first separator is at `k` when none comes before it. */
  lemma {:induction false} FirstSeparatorIs(s: string, from: nat, k: nat)
    requires from <= k && SeparatorAt(s, k)
    requires forall j :: from <= j < k ==> !SeparatorAt(s, j)
    ensures FirstSeparator(s, from) == Some(k)
    decreases k - from
  {
    if from < k {
      FirstSeparatorIs(s, from + 1, k);
    }
  }

  /** A separator-free piece followed by a separator is split off as it is. */
  lemma SplitAfterPiece(a: string, sep: string, b: string)
    requires sep == "," || sep == "and"
    requires NoSeparator(a)
    ensures SplitPieces(a + sep + b) == [a] + SplitPieces(b)
  {
    var s := a + sep + b;
    assert s[|a|] == sep[0];
    forall j | 0 <= j < |a| ensures !SeparatorAt(s, j) {
      assert !SeparatorAt(a, j);
      assert s[j] == a[j];
    }
    if sep == "and" {
      assert s[|a| + 1] == 'n' && s[|a| + 2] == 'd';
    }
    FirstSeparatorIs(s, 0, |a|);
    assert s[..|a|] == a;
    assert s[|a| + |sep|..] == b;
  }

  /** A separator-free piece keeps that property in every part of it. */
  lemma NoSeparatorInside(s: string, lo: int, hi: int)
    requires 0 <= lo <= hi <= |s| && NoSeparator(s)
    ensures NoSeparator(s[lo..hi])
  {
    var t := s[lo..hi];
    forall j | 0 <= j < |t| ensures !SeparatorAt(t, j) {
      assert !SeparatorAt(s, lo + j);
      assert t[j] == s[lo + j];
    }
  }

  /** A separator-free text contains neither "," nor "and". */
  lemma NoSeparatorExcludes(s: string)
    requires NoSeparator(s)
    ensures !Includes(s, ",") && !Includes(s, "and")
  {
    forall i ensures !OccursAt(s, ",", i) && !OccursAt(s, "and", i) {
      if 0 <= i < |s| {
        assert !SeparatorAt(s, i);
        assert s[i..i + 1][0] == s[i];
        if i + 3 <= |s| {
          assert s[i..i + 3][0] == s[i] && s[i..i + 3][1] == s[i + 1] && s[i..i + 3][2] == s[i + 2];
        }
      }
    }
  }

  /** `.map(s => s.trim()).filter(Boolean)`. */
  function CleanPieces(pieces: seq<string>): (r: seq<string>)
    ensures |r| <= |pieces|
    ensures forall k :: 0 <= k < |r| ==> r[k] != ""
  {
    if pieces == [] then []
    else
      var t := Trim(pieces[0]);
      (if t == "" then [] else [t]) + CleanPieces(pieces[1..])
  }

  /** Every piece kept is trimmed. */
  lemma {:induction false} CleanPiecesTrimmed(pieces: seq<string>)
    ensures forall k :: 0 <= k < |CleanPieces(pieces)| ==>
      var x := CleanPieces(pieces)[k]; !IsWhitespace(x[0]) && !IsWhitespace(x[|x| - 1])
  {
    if pieces != [] {
      CleanPiecesTrimmed(pieces[1..]);
    }
  }

  /** A slice of a separator-free text is separator-free. */
  lemma NoSeparatorSlice(p: string, t: string, i: int)
    requires NoSeparator(p) && 0 <= i && i + |t| <= |p| && t == p[i..i + |t|]
    ensures NoSeparator(t)
  {
    NoSeparatorInside(p, i, i + |t|);
  }

  /** Trimming a separator-free piece leaves it separator-free. */
  lemma TrimKeepsNoSeparator(p: string)
    requires NoSeparator(p)
    ensures NoSeparator(Trim(p))
  {
    TrimIsSlice(p);
    NoSeparatorSlice(p, Trim(p), |p| - |TrimStart(p)|);
  }

  /** Trimming cuts pieces down, so it cannot create a separator. */
  lemma {:induction false} CleanPiecesNoSeparator(pieces: seq<string>)
    requires forall k :: 0 <= k < |pieces| ==> NoSeparator(pieces[k])
    ensures forall k :: 0 <= k < |CleanPieces(pieces)| ==> NoSeparator(CleanPieces(pieces)[k])
  {
    if pieces != [] {
      var t := Trim(pieces[0]);
      var rest := CleanPieces(pieces[1..]);
      assert forall k :: 0 <= k < |pieces[1..]| ==> NoSeparator(pieces[1..][k]) by {
        forall k | 0 <= k < |pieces[1..]| ensures NoSeparator(pieces[1..][k]) {
          assert pieces[1..][k] == pieces[k + 1];
        }
      }
      CleanPiecesNoSeparator(pieces[1..]);
      if t == "" {
        assert CleanPieces(pieces) == rest;
      } else {
        TrimKeepsNoSeparator(pieces[0]);
        assert CleanPieces(pieces) == [t] + rest;
        forall k | 0 <= k < |CleanPieces(pieces)| ensures NoSeparator(CleanPieces(pieces)[k]) {
          if k > 0 {
            assert CleanPieces(pieces)[k] == rest[k - 1];
          }
        }
      }
    }
  }

  /**
   * The symptoms dictated in a transcript: the pieces between commas and "and"s, trimmed,
   * empty ones dropped. Each is non-empty, has no white space at either end and holds no
   * separator.
   */
  function TranscriptSymptoms(transcript: string): (r: seq<string>)
    ensures forall k :: 0 <= k < |r| ==> r[k] != "" && !IsWhitespace(r[k][0]) && !IsWhitespace(r[k][|r[k]| - 1])
    ensures forall k :: 0 <= k < |r| ==> !Includes(r[k], ",") && !Includes(r[k], "and")
  {
    var r := CleanPieces(SplitPieces(transcript));
    CleanPiecesTrimmed(SplitPieces(transcript));
    CleanPiecesNoSeparator(SplitPieces(transcript));
    forall k | 0 <= k < |r| ensures !Includes(r[k], ",") && !Includes(r[k], "and") {
      NoSeparatorExcludes(r[k]);
    }
    r
  }

  /** `[...new Set([...symptoms, ...dictated])]`. */
  function MergeDictated(symptoms: seq<string>, transcript: string): seq<string> {
    Dedup(symptoms + TranscriptSymptoms(transcript))
  }

  /**
   * Dictation keeps the current list, in order, at the front, adds every dictated
   * symptom, adds nothing else, and leaves no duplicate.
   */
  lemma MergeDictatedKeepsList(symptoms: seq<string>, transcript: string)
    requires NoDuplicates(symptoms)
    ensures var m := MergeDictated(symptoms, transcript);
      |symptoms| <= |m| && m[..|symptoms|] == symptoms && NoDuplicates(m)
    ensures forall x :: x in TranscriptSymptoms(transcript) ==> x in MergeDictated(symptoms, transcript)
    ensures forall x :: x in MergeDictated(symptoms, transcript) ==> x in symptoms || x in TranscriptSymptoms(transcript)
  {
    DedupPrefix(symptoms, TranscriptSymptoms(transcript));
    DedupOfDistinct(symptoms);
  }

  /** A text without commas and without a `d` cannot hold a separator. */
  lemma NoSeparatorWithout(s: string)
    requires ',' !in s && 'd' !in s
    ensures NoSeparator(s)
  {
    forall j | 0 <= j < |s| ensures !SeparatorAt(s, j) {
      assert s[j] != ',';
      if j + 3 <= |s| {
        assert s[j + 2] != 'd';
      }
    }
  }

  lemma SplitHand()
    ensures SplitPieces("Hand") == ["H", ""]
  {
    NoSeparatorWithout("H");
    assert "H" + "and" + "" == "Hand";
    SplitAfterPiece("H", "and", "");
  }

  lemma CleanBlank()
    ensures CleanPieces([""]) == []
  {
    TrimUnpadded("");
  }

  lemma CleanHand(h: string, pieces: seq<string>)
    requires h == "H" && pieces == [h, ""]
    ensures CleanPieces(pieces) == [h]
  {
    TrimUnpadded(h);
    CleanBlank();
    assert pieces[1..] == [""];
  }

  /** "and" is matched inside words too: the word "Hand" is dictated as the symptom "H". */
  lemma AndInsideWordSplits()
    ensures TranscriptSymptoms("Hand") == ["H"]
  {
    SplitHand();
    CleanHand("H", ["H", ""]);
  }

  // ---------------------------------------------------------------- risk badge

  /** The variants the badge component styles. */
  const BadgeVariants := {"default", "success", "warning", "danger", "info"}

  /** The page's `getRiskColor` as written: high, medium and low only, high as 'error'. */
  function LocalRiskColorAsWritten(level: Option<string>): (r: string)
    ensures r in {"error", "warning", "success", "default"}
    ensures r == "error" <==> level.Some? && ToLower(level.value) == "high"
    ensures r == "warning" <==> level.Some? && ToLower(level.value) == "medium"
    ensures r == "success" <==> level.Some? && ToLower(level.value) == "low"
  {
    match level
    case None => "default"
    case Some(l) =>
      var k := ToLower(l);
      if k == "high" then "error" else if k == "medium" then "warning" else if k == "low" then "success" else "default"
  }

  /** The page's `getRiskIcon` as written. */
  function LocalRiskIconAsWritten(level: Option<string>): (r: string)
    ensures r in {"\U{1F534}", "\U{1F7E1}", "\U{1F7E2}", "\U{26AA}"}
    ensures r == "\U{1F534}" <==> level.Some? && ToLower(level.value) == "high"
    ensures r == "\U{1F7E1}" <==> level.Some? && ToLower(level.value) == "medium"
    ensures r == "\U{1F7E2}" <==> level.Some? && ToLower(level.value) == "low"
    ensures r == "\U{26AA}" <==> level.None? || ToLower(level.value) !in {"high", "medium", "low"}
  {
    match level
    case None => "\U{26AA}"
    case Some(l) =>
      var k := ToLower(l);
      if k == "high" then "\U{1F534}" else if k == "medium" then "\U{1F7E1}" else if k == "low" then "\U{1F7E2}" else "\U{26AA}"
  }

  /** The server's level "moderate", also the route's fallback level, gets the neutral badge. */
  lemma LocalColorMissesModerate()
    ensures LocalRiskColorAsWritten(Some("moderate")) == "default"
    ensures LocalRiskColorAsWritten(Some(SymptomsRoute.FallbackDisease.riskLevel)) == "default"
  {
    ToLowerUnchanged("moderate");
  }

  /** The server's level "emergency" gets the neutral badge and icon. */
  lemma LocalRiskMissesEmergency()
    ensures LocalRiskColorAsWritten(Some("emergency")) == "default"
    ensures LocalRiskIconAsWritten(Some("emergency")) == "\U{26AA}"
  {
    ToLowerUnchanged("emergency");
  }

  /** "high" gets a variant the badge component does not style. */
  lemma LocalColorHighUnstyled()
    ensures LocalRiskColorAsWritten(Some("high")) !in BadgeVariants
  {
    ToLowerUnchanged("high");
  }

  /**
   * The intended badge: the server's four levels (and "medium") mapped onto the badge's
   * own variants, in agreement with the shared colour table.
   */
  function LocalRiskColor(level: Option<string>): (r: string)
    ensures r in BadgeVariants
    ensures r == "danger" <==> level.Some? && ToLower(level.value) in {"high", "emergency"}
    ensures r == "warning" <==> level.Some? && ToLower(level.value) in {"moderate", "medium"}
    ensures r == "success" <==> level.Some? && ToLower(level.value) == "low"
  {
    match level
    case None => "default"
    case Some(l) =>
      var k := ToLower(l);
      if k == "high" || k == "emergency" then "danger"
      else if k == "moderate" || k == "medium" then "warning"
      else if k == "low" then "success"
      else "default"
  }

  /** The intended icon, on the same levels. */
  function LocalRiskIcon(level: Option<string>): (r: string)
    ensures r in {"\U{1F534}", "\U{1F7E1}", "\U{1F7E2}", "\U{26AA}"}
    ensures r == "\U{1F534}" <==> level.Some? && ToLower(level.value) in {"high", "emergency"}
    ensures r == "\U{1F7E1}" <==> level.Some? && ToLower(level.value) in {"moderate", "medium"}
    ensures r == "\U{1F7E2}" <==> level.Some? && ToLower(level.value) == "low"
  {
    match level
    case None => "\U{26AA}"
    case Some(l) =>
      var k := ToLower(l);
      if k == "high" || k == "emergency" then "\U{1F534}"
      else if k == "moderate" || k == "medium" then "\U{1F7E1}"
      else if k == "low" then "\U{1F7E2}"
      else "\U{26AA}"
  }

  /** The intended badge agrees with the shared colour table everywhere except on "medium". */
  lemma LocalRiskColorMatchesTable(level: Option<string>)
    requires level.Some? ==> ToLower(level.value) != "medium"
    ensures LocalRiskColor(level) == Helpers.RiskColor(level)
  {
  }

  // ---------------------------------------------------------------- doctor panel

  /** The doctor panel appears only for a non-empty disease list, named after its first disease. */
  function DoctorPanel(diseaseNames: Option<seq<string>>): (r: Option<string>)
    ensures r.Some? <==> diseaseNames.Some? && |diseaseNames.value| > 0
    ensures r.Some? ==> r.value == diseaseNames.value[0]
  {
    match diseaseNames
    case None => None
    case Some(names) => if |names| > 0 then Some(names[0]) else None
  }

  // ---------------------------------------------------------------- page state

  const NeedSymptom := "Please add at least one symptom"
  const AnalyzeFailed := "Failed to analyze symptoms. Please try again."

  /** The page's state; `R` is the analysis the server sends back. */
  class SymptomPage<R> {
    var symptoms: seq<string>
    var inputValue: string
    var error: string
    var isAnalyzing: bool
    var results: Option<R>

    /** The list holds no empty entry and no duplicate. */
    predicate Valid()
      reads this
    {
      NoDuplicates(symptoms) && "" !in symptoms
    }

    constructor ()
      ensures Valid() && symptoms == [] && inputValue == "" && error == "" && !isAnalyzing && results == None
    {
      symptoms := [];
      inputValue := "";
      error := "";
      isAnalyzing := false;
      results := None;
    }

    /** Empty and already-listed symptoms are ignored; otherwise it is appended and the input cleared. */
    method AddSymptom(symptom: string)
      requires Valid()
      modifies this
      ensures Valid()
      ensures symptom != "" && symptom !in old(symptoms) ==> symptoms == old(symptoms) + [symptom] && inputValue == ""
      ensures symptom == "" || symptom in old(symptoms) ==> symptoms == old(symptoms) && inputValue == old(inputValue)
      ensures error == old(error) && isAnalyzing == old(isAnalyzing) && results == old(results)
    {
      if symptom != "" && symptom !in symptoms {
        AppendIfAbsentKeepsNoDuplicates(symptoms, symptom);
        symptoms := symptoms + [symptom];
        inputValue := "";
      }
    }

    method RemoveSymptom(symptom: string)
      requires Valid()
      modifies this
      ensures Valid()
      ensures symptoms == RemoveAll(old(symptoms), symptom) && symptom !in symptoms
      ensures inputValue == old(inputValue) && error == old(error) && isAnalyzing == old(isAnalyzing) && results == old(results)
    {
      RemoveAllKeepsNoDuplicates(symptoms, symptom);
      symptoms := RemoveAll(symptoms, symptom);
    }

    /** The speech-recognition result handler. */
    method OnTranscript(transcript: string)
      requires Valid()
      modifies this
      ensures Valid()
      ensures symptoms == MergeDictated(old(symptoms), transcript)
      ensures |old(symptoms)| <= |symptoms| && symptoms[..|old(symptoms)|] == old(symptoms)
      ensures inputValue == old(inputValue) && error == old(error) && isAnalyzing == old(isAnalyzing) && results == old(results)
    {
      MergeDictatedKeepsList(symptoms, transcript);
      var dictated := TranscriptSymptoms(transcript);
      assert "" !in dictated;
      symptoms := MergeDictated(symptoms, transcript);
    }

    /** The synchronous part of `handleAnalyze`: the list to send, or the error for an empty list. */
    method BeginAnalyze() returns (request: Option<seq<string>>)
      modifies this
      ensures old(symptoms) == [] ==> request == None && error == NeedSymptom && isAnalyzing == old(isAnalyzing)
      ensures old(symptoms) != [] ==> request == Some(old(symptoms)) && error == "" && isAnalyzing
      ensures symptoms == old(symptoms) && inputValue == old(inputValue) && results == old(results)
    {
      if symptoms == [] {
        error := NeedSymptom;
        return None;
      }
      isAnalyzing := true;
      error := "";
      request := Some(symptoms);
    }

    /**
     * The rest of `handleAnalyze`. The client wrapper throws a bare string, whose
     * `message` is undefined, so a failure always shows the page's own text.
     */
    method FinishAnalyze(outcome: Option<R>)
      modifies this
      ensures !isAnalyzing
      ensures outcome.Some? ==> results == outcome && error == old(error)
      ensures outcome.None? ==> results == old(results) && error == AnalyzeFailed
      ensures symptoms == old(symptoms) && inputValue == old(inputValue)
    {
      if outcome.Some? {
        results := outcome;
      } else {
        error := AnalyzeFailed;
      }
      isAnalyzing := false;
    }
  }
}
