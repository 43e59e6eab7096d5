/**
 * The front end's entry script: the default-language initialisation in
 * localStorage and the `$t` it installs, which picks the table by the
 * stored language and walks the key's segments without the `(o || {})`
 * guard of the i18n plugin.
 */
module MainApp {
  import opened Wrappers
  import opened JsValues
  import I18nPlugin

  const LanguageKey := "language"
  const DefaultLanguage := "en-US"
  const ChineseLanguage := "zh-CN"

  /** The browser's `localStorage`: string keys to string values. */
  class LocalStorage {
    var items: map<string, string>

    constructor (items: map<string, string>)
      ensures this.items == items
    {
      this.items := items;
    }

    /** `getItem`: the stored value, `null` (None) when absent. */
    method GetItem(key: string) returns (v: Option<string>)
      ensures v == if key in items then Some(items[key]) else None
    {
      v := if key in items then Some(items[key]) else None;
    }

    method SetItem(key: string, value: string)
      modifies this
      ensures items == old(items)[key := value]
    {
      items := items[key := value];
    }
  }

  /** `localStorage.getItem('language')`: the stored language, `None` when the key is absent. */
  function StoredLanguage(storage: LocalStorage): (r: Option<string>)
    reads storage
    ensures r.Some? <==> LanguageKey in storage.items
    ensures r.Some? ==> r.value == storage.items[LanguageKey]
  {
    if LanguageKey in storage.items then Some(storage.items[LanguageKey]) else None
  }

  /** Startup: a missing or empty stored language becomes en-US; any other value is kept. */
  method InitDefaultLanguage(storage: LocalStorage)
    modifies storage
    ensures old(StoredLanguage(storage)).Some? && old(StoredLanguage(storage)).value != "" ==>
              storage.items == old(storage.items)
    ensures !(old(StoredLanguage(storage)).Some? && old(StoredLanguage(storage)).value != "") ==>
              storage.items == old(storage.items)[LanguageKey := DefaultLanguage]
    ensures StoredLanguage(storage).Some? && StoredLanguage(storage).value != ""
  {
    var stored := storage.GetItem(LanguageKey);
    if stored.None? || stored.value == "" {
      storage.SetItem(LanguageKey, DefaultLanguage);
    }
  }

  /** `localStorage.getItem('language') || 'en-US'`. */
  function Language(stored: Option<string>): (r: string)
    ensures stored.Some? && stored.value != "" ==> r == stored.value
    ensures !(stored.Some? && stored.value != "") ==> r == DefaultLanguage
  {
    if stored.Some? && stored.value != "" then stored.value else DefaultLanguage
  }

  /** `lang === 'zh-CN' ? zhCN : enUS`: only the exact string selects Chinese. */
  function MessagesFor(lang: string, enUS: Value, zhCN: Value): (r: Value)
    ensures lang == ChineseLanguage ==> r == zhCN
    ensures lang != ChineseLanguage ==> r == enUS
  {
    if lang == ChineseLanguage then zhCN else enUS
  }

  /** The TypeError thrown by reading segment `segment` of `undefined`. */
  datatype LookupError = CannotReadProperty(segment: string)

  /**
   * `segments.reduce((o, i) => o[i], messages)`: reading a property of
   * `undefined` throws, naming one of the segments; no segments give the
   * table itself.
   */
  function StrictWalk(o: Value, segments: seq<string>): (r: Result<Value, LookupError>)
    ensures segments == [] ==> r == Ok(o)
    ensures segments != [] && o.Undefined? ==> r == Err(CannotReadProperty(segments[0]))
    ensures r.Err? ==> r.error.segment in segments
    decreases |segments|
  {
    if segments == [] then Ok(o)
    else if o.Undefined? then Err(CannotReadProperty(segments[0]))
    else StrictWalk(Get(o, segments[0]), segments[1..])
  }

  /**
   * The strict lookup of a dotted key in one table: an `undefined` table
   * throws for every key, and an error names a segment of the key.
   */
  function StrictLookup(messages: Value, key: string): (r: Result<Value, LookupError>)
    ensures messages.Undefined? ==> r.Err?
    ensures r.Err? ==> r.error.segment in Split(key, '.')
  {
    StrictWalk(messages, Split(key, '.'))
  }

  /** `$t(key)` as the entry script installs it: the Chinese table exactly when zh-CN is stored. */
  function Translate(storage: LocalStorage, key: string, enUS: Value, zhCN: Value): (r: Result<Value, LookupError>)
    reads storage
    ensures StoredLanguage(storage) == Some(ChineseLanguage) ==> r == StrictLookup(zhCN, key)
    ensures StoredLanguage(storage) != Some(ChineseLanguage) ==> r == StrictLookup(enUS, key)
  {
    StrictLookup(MessagesFor(Language(StoredLanguage(storage)), enUS, zhCN), key)
  }

  /** After the startup step, `$t` uses the table of the language stored then, or en-US. */
  method StartAndTranslate(storage: LocalStorage, key: string, enUS: Value, zhCN: Value)
    returns (r: Result<Value, LookupError>)
    modifies storage
    ensures old(StoredLanguage(storage)) == Some(ChineseLanguage) ==> r == StrictLookup(zhCN, key)
    ensures old(StoredLanguage(storage)) != Some(ChineseLanguage) ==> r == StrictLookup(enUS, key)
  {
    InitDefaultLanguage(storage);
    r := Translate(storage, key, enUS, zhCN);
  }

  /** `$t` descends one level per segment, and throws when the table reached is `undefined`. */
  lemma StrictLookupDescends(messages: Value, head: string, rest: string)
    requires '.' !in head
    ensures messages.Undefined? ==> StrictLookup(messages, head + "." + rest) == Err(CannotReadProperty(head))
    ensures !messages.Undefined? ==>
              StrictLookup(messages, head + "." + rest) == StrictLookup(Get(messages, head), rest)
  {
    SplitCons(head, '.', rest);
  }

  /** Where the strict walk succeeds, the plugin's guarded walk gives the same value. */
  lemma {:induction false} StrictAgreesWithPlugin(o: Value, segments: seq<string>)
    ensures StrictWalk(o, segments).Ok? ==> I18nPlugin.Walk(o, segments) == StrictWalk(o, segments).value
    ensures StrictWalk(o, segments).Err? ==> I18nPlugin.Walk(o, segments) == Undefined
    decreases |segments|
  {
    if segments != [] {
      if o.Undefined? {
        I18nPlugin.WalkUndefined(segments);
      } else {
        StrictAgreesWithPlugin(Get(o, segments[0]), segments[1..]);
      }
    }
  }

  /**
   * The strict walk throws exactly when the value reached before some
   * segment is `undefined`: a missing intermediate segment (or a missing
   * table) is an error, a missing last segment is not.
   */
  lemma {:induction false} StrictErrorIffMissingIntermediate(o: Value, segments: seq<string>)
    ensures StrictWalk(o, segments).Err? <==>
              exists i :: 0 <= i < |segments| && I18nPlugin.Walk(o, segments[..i]) == Undefined
    decreases |segments|
  {
    if segments == [] {
      return;
    }
    if o.Undefined? {
      assert segments[..0] == [];
      assert I18nPlugin.Walk(o, segments[..0]) == Undefined;
      return;
    }
    var next := Get(o, segments[0]);
    StrictErrorIffMissingIntermediate(next, segments[1..]);
    assert I18nPlugin.GuardedGet(o, segments[0]) == next;
    forall i | 0 < i <= |segments|
      ensures I18nPlugin.Walk(o, segments[..i]) == I18nPlugin.Walk(next, segments[1..][..i - 1])
    {
      assert segments[..i][1..] == segments[1..][..i - 1];
    }
    if StrictWalk(o, segments).Err? {
      var j :| 0 <= j < |segments[1..]| && I18nPlugin.Walk(next, segments[1..][..j]) == Undefined;
      assert I18nPlugin.Walk(o, segments[..j + 1]) == Undefined;
    }
    if exists i :: 0 <= i < |segments| && I18nPlugin.Walk(o, segments[..i]) == Undefined {
      var i :| 0 <= i < |segments| && I18nPlugin.Walk(o, segments[..i]) == Undefined;
      assert segments[..0] == [];
      assert i != 0;
      assert I18nPlugin.Walk(next, segments[1..][..i - 1]) == Undefined;
    }
  }
}
