/**
 * The client's utility module: the per-category history log kept in the browser's
 * key-value storage, and the risk-level lookups used to colour and label results.
 */
module Helpers {
  import opened Wrappers
  import opened Strings

  /** The retention cap: a category keeps its 50 newest entries. */
  const MaxHistory: nat := 50

  /** A saved analysis: `id` is the `Date.now()` of the save, `timestamp` its ISO form. */
  datatype Entry<D> = Entry(id: int, timestamp: string, data: D)

  /** What `localStorage.getItem` gives back for a history key that is present. */
  datatype Slot<D> =
    | Stored(entries: seq<Entry<D>>)  // the JSON text of an entry list, as this store writes it
    | Blank                           // the empty string, which `|| '[]'` replaces
    | Garbage(text: string)           // any other text: `JSON.parse` rejects it

  datatype StoreError = Unparseable(text: string)

  /** The storage key of a category: `${type}History`. */
  function HistoryKey(category: string): string {
    category + "History"
  }

  /** Distinct categories use distinct keys. */
  lemma HistoryKeyInjective(a: string, b: string)
    requires a != b
    ensures HistoryKey(a) != HistoryKey(b)
  {
    if |a| == |b| {
      assert HistoryKey(a)[..|a|] == a && HistoryKey(b)[..|b|] == b;
    } else {
      assert |HistoryKey(a)| != |HistoryKey(b)|;
    }
  }

  /** `JSON.parse(localStorage.getItem(key) || '[]')` for one category. */
  function Load<D>(storage: map<string, Slot<D>>, category: string): (r: Result<seq<Entry<D>>, StoreError>)
    ensures HistoryKey(category) !in storage ==> r == Success([])
    ensures HistoryKey(category) in storage && storage[HistoryKey(category)].Stored? ==>
      r == Success(storage[HistoryKey(category)].entries)
    ensures HistoryKey(category) in storage && storage[HistoryKey(category)].Blank? ==> r == Success([])
    ensures r.Failure? <==> HistoryKey(category) in storage && storage[HistoryKey(category)].Garbage?
    ensures r.Failure? ==> r.error == Unparseable(storage[HistoryKey(category)].text)
  {
    var key := HistoryKey(category);
    if key !in storage then Success([])
    else match storage[key]
      case Stored(entries) => Success(entries)
      case Blank => Success([])
      case Garbage(text) => Failure(Unparseable(text))
  }

  /**
   * `unshift` followed by `slice(0, 50)`: the new entry goes first and the list
   * is cut to the cap, so the oldest entry beyond it is dropped.
   */
  function Prepend<D>(history: seq<Entry<D>>, e: Entry<D>): (r: seq<Entry<D>>)
    ensures |r| == if |history| < MaxHistory then |history| + 1 else MaxHistory
    ensures r[0] == e
    ensures forall i :: 0 < i < |r| ==> r[i] == history[i - 1]
  {
    var full := [e] + history;
    full[..if |full| < MaxHistory then |full| else MaxHistory]
  }

  /** `history.filter(item => item.id !== id)`. */
  function WithoutId<D>(history: seq<Entry<D>>, id: int): (r: seq<Entry<D>>)
    ensures |r| <= |history|
    ensures forall e :: e in r ==> e in history && e.id != id
    ensures forall e :: e in history && e.id != id ==> e in r
    ensures (forall e :: e in history ==> e.id != id) ==> r == history
  {
    if history == [] then []
    else if history[0].id == id then WithoutId(history[1..], id)
    else
      assert history == [history[0]] + history[1..];
      [history[0]] + WithoutId(history[1..], id)
  }

  /** Filtering by id distributes over concatenation: the kept entries stay in their order. */
  lemma {:induction false} WithoutIdAppend<D>(a: seq<Entry<D>>, b: seq<Entry<D>>, id: int)
    ensures WithoutId(a + b, id) == WithoutId(a, id) + WithoutId(b, id)
  {
    if a == [] {
      assert a + b == b;
    } else {
      assert (a + b)[0] == a[0] && (a + b)[1..] == a[1..] + b;
      WithoutIdAppend(a[1..], b, id);
      if a[0].id != id {
        assert WithoutId(a + b, id) == [a[0]] + (WithoutId(a[1..], id) + WithoutId(b, id));
      }
    }
  }

  /** Writing one category's key leaves what every other category loads unchanged. */
  lemma WriteIsolated<D>(storage: map<string, Slot<D>>, category: string, slot: Slot<D>, other: string)
    requires other != category
    ensures Load(storage[HistoryKey(category) := slot], other) == Load(storage, other)
  {
    HistoryKeyInjective(category, other);
  }

  /** Removing one category's key leaves what every other category loads unchanged. */
  lemma RemoveIsolated<D>(storage: map<string, Slot<D>>, category: string, other: string)
    requires other != category
    ensures Load(storage - {HistoryKey(category)}, other) == Load(storage, other)
  {
    HistoryKeyInjective(category, other);
  }

  /** Saving each of `entries` in turn, starting from `history`. */
  function SaveAll<D>(history: seq<Entry<D>>, entries: seq<Entry<D>>): seq<Entry<D>>
    decreases |entries|
  {
    if entries == [] then history else SaveAll(Prepend(history, entries[0]), entries[1..])
  }

  function Reverse<T>(s: seq<T>): (r: seq<T>)
    ensures |r| == |s|
    ensures forall i :: 0 <= i < |s| ==> r[i] == s[|s| - 1 - i]
  {
    if s == [] then [] else Reverse(s[1..]) + [s[0]]
  }

  function Cap<T>(s: seq<T>): (r: seq<T>) {
    s[..if |s| < MaxHistory then |s| else MaxHistory]
  }

  lemma CapOfCap<T>(a: seq<T>, b: seq<T>)
    ensures Cap(a + Cap(b)) == Cap(a + b)
  {
    var n := if |a + b| < MaxHistory then |a + b| else MaxHistory;
    assert |a + Cap(b)| >= n;
    assert forall i :: 0 <= i < n ==> (a + Cap(b))[i] == (a + b)[i];
  }

  /**
   * Saving entries one by one leaves the newest first, at most 50 of them: the
   * log equals the entries in reverse order of saving, followed by the old log, cut to 50.
   */
  lemma {:induction false} SaveAllNewestFirst<D>(history: seq<Entry<D>>, entries: seq<Entry<D>>)
    requires |history| <= MaxHistory
    ensures SaveAll(history, entries) == Cap(Reverse(entries) + history)
    decreases |entries|
  {
    if entries == [] {
      assert Reverse(entries) + history == history;
    } else {
      var e := entries[0];
      var rest := entries[1..];
      SaveAllNewestFirst(Prepend(history, e), rest);
      assert Prepend(history, e) == Cap([e] + history);
      CapOfCap(Reverse(rest), [e] + history);
      assert Reverse(entries) == Reverse(rest) + [e];
      assert Reverse(rest) + ([e] + history) == Reverse(entries) + history;
    }
  }

  // Risk-level lookups. `colors[riskLevel?.toLowerCase()] || 'default'` indexes a plain
  // object literal, so besides its own four keys it also finds what every object inherits
  // from Object.prototype. The only inherited names that survive lower-casing are
  // "constructor" and "__proto__"; both hold objects, which are truthy, so they are
  // returned instead of the default.

  const RiskColors: map<string, string> :=
    map["low" := "success", "moderate" := "warning", "high" := "danger", "emergency" := "danger"]

  const RiskIcons: map<string, string> :=
    map["low" := "\U{2713}", "moderate" := "\U{26A0}", "high" := "\U{26A0}", "emergency" := "\U{1F6A8}"]

  /** The lower-case names of the members every object literal inherits. */
  const InheritedNames: set<string> := {"constructor", "__proto__"}

  /** What a property read on an object literal yields, after `|| fallback`. */
  datatype Lookup = Text(value: string) | InheritedMember(name: string)

  /** The lookup as written: table, then Object.prototype, then the fallback. */
  function LookupAsWritten(table: map<string, string>, level: Option<string>, fallback: string): Lookup {
    match level
    case None => Text(fallback)
    case Some(l) =>
      var key := ToLower(l);
      if key in table then Text(table[key])
      else if key in InheritedNames then InheritedMember(key)
      else Text(fallback)
  }

  /** `getRiskColor` as written in the helpers module. */
  function RiskColorAsWritten(level: Option<string>): Lookup {
    LookupAsWritten(RiskColors, level, "default")
  }

  /** `getRiskIcon` as written in the helpers module. */
  function RiskIconAsWritten(level: Option<string>): Lookup {
    LookupAsWritten(RiskIcons, level, "\U{2022}")
  }

  /** A risk level of "constructor" yields the Object constructor, not a colour. */
  lemma RiskColorFindsConstructor()
    ensures RiskColorAsWritten(Some("constructor")) == InheritedMember("constructor")
  {
    ToLowerUnchanged("constructor");
    assert "constructor" !in RiskColors;
  }

  /** A risk level of "__proto__" yields Object.prototype, not an icon. */
  lemma RiskIconFindsPrototype()
    ensures RiskIconAsWritten(Some("__proto__")) == InheritedMember("__proto__")
  {
    ToLowerUnchanged("__proto__");
    assert "__proto__" !in RiskIcons;
  }

  /** The own-keys-only lookup the table is meant to be. */
  function TableLookup(table: map<string, string>, level: Option<string>, fallback: string): string {
    if level.Some? && ToLower(level.value) in table then table[ToLower(level.value)] else fallback
  }

  /**
   * `getRiskColor`, reading only the table's own keys: low, moderate, high and emergency,
   * in any letter case, give success, warning, danger and danger; anything else,
   * including no level at all, gives "default".
   */
  function RiskColor(level: Option<string>): (r: string)
    ensures r in {"success", "warning", "danger", "default"}
    ensures r == "default" <==> level.None? || ToLower(level.value) !in {"low", "moderate", "high", "emergency"}
    ensures r == "success" <==> level.Some? && ToLower(level.value) == "low"
    ensures r == "warning" <==> level.Some? && ToLower(level.value) == "moderate"
    ensures r == "danger" <==> level.Some? && ToLower(level.value) in {"high", "emergency"}
  {
    TableLookup(RiskColors, level, "default")
  }

  /** `getRiskIcon`, reading only the table's own keys. */
  function RiskIcon(level: Option<string>): (r: string)
    ensures r in {"\U{2713}", "\U{26A0}", "\U{1F6A8}", "\U{2022}"}
    ensures r == "\U{2022}" <==> level.None? || ToLower(level.value) !in {"low", "moderate", "high", "emergency"}
    ensures r == "\U{2713}" <==> level.Some? && ToLower(level.value) == "low"
    ensures r == "\U{26A0}" <==> level.Some? && ToLower(level.value) in {"moderate", "high"}
    ensures r == "\U{1F6A8}" <==> level.Some? && ToLower(level.value) == "emergency"
  {
    TableLookup(RiskIcons, level, "\U{2022}")
  }

  /** Away from the inherited names, the code as written and the corrected lookups agree. */
  lemma LookupsAgree(level: Option<string>)
    requires level.Some? ==> ToLower(level.value) !in InheritedNames
    ensures RiskColorAsWritten(level) == Text(RiskColor(level))
    ensures RiskIconAsWritten(level) == Text(RiskIcon(level))
  {
  }

  /**
   * The history store over the browser's storage. Each operation reads and writes
   * only the key of its own category.
   */
  class HistoryStore<D> {
    var storage: map<string, Slot<D>>

    constructor (initial: map<string, Slot<D>>)
      ensures storage == initial
    {
      storage := initial;
    }

    /**
     * `getHistory(type)`: the stored list, the empty list for an absent or blank key,
     * and a failure (the code throws) when the stored text does not parse.
     */
    function GetHistory(category: string): (r: Result<seq<Entry<D>>, StoreError>)
      reads this
      ensures r == Load(storage, category)
      ensures HistoryKey(category) !in storage ==> r == Success([])
      ensures HistoryKey(category) in storage && storage[HistoryKey(category)].Stored? ==>
        r == Success(storage[HistoryKey(category)].entries)
    {
      Load(storage, category)
    }

    /**
     * `saveToHistory(type, data)` with `Date.now()` passed as `now` and its ISO
     * form as `isoNow`. When the stored text does not parse, nothing is written.
     */
    method SaveToHistory(category: string, data: D, now: int, isoNow: string)
      returns (r: Result<Entry<D>, StoreError>)
      modifies this
      ensures old(Load(storage, category)).Failure? ==>
        r == Failure(old(Load(storage, category)).error) && storage == old(storage)
      ensures old(Load(storage, category)).Success? ==>
        && r == Success(Entry(now, isoNow, data))
        && storage == old(storage)[HistoryKey(category) := Stored(Prepend(old(Load(storage, category)).value, r.value))]
    {
      var history := Load(storage, category);
      if history.Failure? {
        return Failure(history.error);
      }
      var entry := Entry(now, isoNow, data);
      storage := storage[HistoryKey(category) := Stored(Prepend(history.value, entry))];
      r := Success(entry);
    }

    /**
     * `deleteHistoryItem(type, id)`: writes back the list without the entries carrying
     * `id`; even an absent key is then written, holding the empty list.
     */
    method DeleteHistoryItem(category: string, id: int) returns (r: Result<(), StoreError>)
      modifies this
      ensures old(Load(storage, category)).Failure? ==>
        r == Failure(old(Load(storage, category)).error) && storage == old(storage)
      ensures old(Load(storage, category)).Success? ==>
        && r == Success(())
        && storage == old(storage)[HistoryKey(category) := Stored(WithoutId(old(Load(storage, category)).value, id))]
    {
      var history := Load(storage, category);
      if history.Failure? {
        return Failure(history.error);
      }
      storage := storage[HistoryKey(category) := Stored(WithoutId(history.value, id))];
      r := Success(());
    }

    /** `clearHistory(type)`: removes the category's key. */
    method ClearHistory(category: string)
      modifies this
      ensures storage == old(storage) - {HistoryKey(category)}
      ensures Load(storage, category) == Success([])
    {
      storage := storage - {HistoryKey(category)};
    }
  }
}
