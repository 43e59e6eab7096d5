/**
 * The front end's i18n plugin: the merged locale tables, the `$t` lookup
 * it installs (with the `(o || {})` guard and the fallback to en-US), and
 * the mixin's `currentLocale` computed value and `locale.name` watcher.
 */
module I18nPlugin {
  import opened Wrappers
  import opened JsValues

  const DefaultLocale := "en-US"
  const ChineseLocale := "zh-CN"

  /** `{...base, ...custom}`: a shallow merge in which the custom top-level keys win. */
  function Spread(base: map<string, Value>, custom: map<string, Value>): (r: map<string, Value>)
    ensures r.Keys == base.Keys + custom.Keys
    ensures forall k :: k in custom ==> r[k] == custom[k]
    ensures forall k :: k in base && k !in custom ==> r[k] == base[k]
  {
    base + custom
  }

  /** The component library's locale tables and the plugin's own custom messages. */
  datatype Sources = Sources(
    libraryEn: map<string, Value>, libraryZh: map<string, Value>,
    customEn: map<string, Value>, customZh: map<string, Value>)

  /**
   * `mergedLocales`: exactly the two supported locales, each an object
   * whose top-level keys are the library's and the custom ones, the custom
   * value winning.
   */
  function MergedLocales(src: Sources): (r: map<string, Value>)
    ensures r.Keys == {DefaultLocale, ChineseLocale}
    ensures r[DefaultLocale].Object? && r[DefaultLocale].fields.Keys == src.libraryEn.Keys + src.customEn.Keys
    ensures forall k :: k in src.customEn ==> r[DefaultLocale].fields[k] == src.customEn[k]
    ensures forall k :: k in src.libraryEn && k !in src.customEn ==> r[DefaultLocale].fields[k] == src.libraryEn[k]
    ensures r[ChineseLocale].Object? && r[ChineseLocale].fields.Keys == src.libraryZh.Keys + src.customZh.Keys
    ensures forall k :: k in src.customZh ==> r[ChineseLocale].fields[k] == src.customZh[k]
    ensures forall k :: k in src.libraryZh && k !in src.customZh ==> r[ChineseLocale].fields[k] == src.libraryZh[k]
  {
    map[DefaultLocale := Object(Spread(src.libraryEn, src.customEn)),
        ChineseLocale := Object(Spread(src.libraryZh, src.customZh))]
  }

  /** `this.locale?.name || 'en-US'`. */
  function LocaleName(name: Option<string>): (r: string)
    ensures name.Some? && name.value != "" ==> r == name.value
    ensures !(name.Some? && name.value != "") ==> r == DefaultLocale
  {
    if name.Some? && name.value != "" then name.value else DefaultLocale
  }

  /** `mergedLocales[currentLocale] || mergedLocales['en-US']`. */
  function MessagesFor(src: Sources, name: Option<string>): (r: Value)
    ensures LocaleName(name) == ChineseLocale ==> r == Object(Spread(src.libraryZh, src.customZh))
    ensures LocaleName(name) != ChineseLocale ==> r == Object(Spread(src.libraryEn, src.customEn))
  {
    var locales := MergedLocales(src);
    var current := LocaleName(name);
    if current in locales && Truthy(locales[current]) then locales[current] else locales[DefaultLocale]
  }

  /** `(o || {})[i]`: a falsy value reads as the empty object. */
  function GuardedGet(o: Value, key: string): (r: Value)
    ensures o == Undefined ==> r == Undefined
    ensures o != Undefined ==> r == Get(o, key)
  {
    if Truthy(o) then Get(o, key) else Get(Object(map[]), key)
  }

  /**
   * `segments.reduce((o, i) => (o || {})[i], messages)`: no segments give
   * the table itself; any segment read from a value that is not an object
   * gives `undefined`, however many follow.
   */
  function Walk(o: Value, segments: seq<string>): (r: Value)
    ensures segments == [] ==> r == o
    ensures segments != [] && !o.Object? ==> r == Undefined
    decreases |segments|
  {
    if segments == [] then o else Walk(GuardedGet(o, segments[0]), segments[1..])
  }

  /** The lookup of a dotted key in one table: a table that is not an object answers `undefined` to every key. */
  function LookupKey(messages: Value, key: string): (r: Value)
    ensures !messages.Object? ==> r == Undefined
  {
    Walk(messages, Split(key, '.'))
  }

  /** `$t(key)` as the plugin installs it: the zh-CN merged table for zh-CN, the en-US one for every other name. */
  function Translate(src: Sources, name: Option<string>, key: string): (r: Value)
    ensures LocaleName(name) == ChineseLocale ==> r == LookupKey(Object(Spread(src.libraryZh, src.customZh)), key)
    ensures LocaleName(name) != ChineseLocale ==> r == LookupKey(Object(Spread(src.libraryEn, src.customEn)), key)
  {
    LookupKey(MessagesFor(src, name), key)
  }

  /** Once a segment is missing, every further segment reads `undefined` too. */
  lemma {:induction false} WalkUndefined(segments: seq<string>)
    ensures Walk(Undefined, segments) == Undefined
    decreases |segments|
  {
    if segments != [] {
      WalkUndefined(segments[1..]);
    }
  }

  /** Walking `p + q` is walking `p`, then `q` from where `p` ended. */
  lemma {:induction false} WalkAppend(o: Value, p: seq<string>, q: seq<string>)
    ensures Walk(o, p + q) == Walk(Walk(o, p), q)
    decreases |p|
  {
    if p == [] {
      assert p + q == q;
    } else {
      assert (p + q)[1..] == p[1..] + q;
      WalkAppend(GuardedGet(o, p[0]), p[1..], q);
    }
  }

  /** A missing segment anywhere makes the whole lookup `undefined`, with no error. */
  lemma MissingSegmentIsUndefined(o: Value, segments: seq<string>, i: nat)
    requires i <= |segments| && Walk(o, segments[..i]) == Undefined
    ensures Walk(o, segments) == Undefined
  {
    assert segments == segments[..i] + segments[i..];
    WalkAppend(o, segments[..i], segments[i..]);
    WalkUndefined(segments[i..]);
  }

  /** A key without a dot reads one property. */
  lemma LookupSingle(messages: Value, key: string)
    requires '.' !in key
    ensures LookupKey(messages, key) == GuardedGet(messages, key)
  {
    SplitSingle(key, '.');
    assert Walk(messages, [key]) == Walk(GuardedGet(messages, key), []);
  }

  /** `$t` descends one table level per dot-separated segment. */
  lemma LookupDescends(messages: Value, head: string, rest: string)
    requires '.' !in head
    ensures LookupKey(messages, head + "." + rest) == LookupKey(GuardedGet(messages, head), rest)
  {
    SplitCons(head, '.', rest);
  }

  /** An absent or empty locale name, or one without a table, gives the en-US answer. */
  lemma UnknownLocaleFallsBack(src: Sources, name: Option<string>, key: string)
    requires LocaleName(name) != ChineseLocale
    ensures Translate(src, name, key) == Translate(src, None, key)
  {
  }

  /**
   * The merge is shallow: in a merged table, a key under a top-level key the
   * custom messages define is looked up entirely in the custom messages;
   * under any other key that the base defines, in the base.
   */
  lemma SpreadLookup(base: map<string, Value>, custom: map<string, Value>, head: string, rest: string)
    requires '.' !in head
    ensures head in custom ==>
              LookupKey(Object(Spread(base, custom)), head + "." + rest) == LookupKey(custom[head], rest)
    ensures head !in custom && head in base ==>
              LookupKey(Object(Spread(base, custom)), head + "." + rest) == LookupKey(base[head], rest)
    ensures head !in custom && head !in base ==>
              LookupKey(Object(Spread(base, custom)), head + "." + rest) == Undefined
  {
    LookupDescends(Object(Spread(base, custom)), head, rest);
  }

  /** `$t` on a dotted key, in both merged locales: custom top-level keys win, the merge is shallow. */
  lemma MergedLookup(src: Sources, name: Option<string>, head: string, rest: string)
    requires '.' !in head
    ensures LocaleName(name) != ChineseLocale && head in src.customEn ==>
              Translate(src, name, head + "." + rest) == LookupKey(src.customEn[head], rest)
    ensures LocaleName(name) != ChineseLocale && head !in src.customEn && head in src.libraryEn ==>
              Translate(src, name, head + "." + rest) == LookupKey(src.libraryEn[head], rest)
    ensures LocaleName(name) != ChineseLocale && head !in src.customEn && head !in src.libraryEn ==>
              Translate(src, name, head + "." + rest) == Undefined
    ensures LocaleName(name) == ChineseLocale && head in src.customZh ==>
              Translate(src, name, head + "." + rest) == LookupKey(src.customZh[head], rest)
    ensures LocaleName(name) == ChineseLocale && head !in src.customZh && head in src.libraryZh ==>
              Translate(src, name, head + "." + rest) == LookupKey(src.libraryZh[head], rest)
    ensures LocaleName(name) == ChineseLocale && head !in src.customZh && head !in src.libraryZh ==>
              Translate(src, name, head + "." + rest) == Undefined
  {
    SpreadLookup(src.libraryEn, src.customEn, head, rest);
    SpreadLookup(src.libraryZh, src.customZh, head, rest);
  }

  /** The mixin's initial `currentLanguage`. */
  const InitialLanguage := DefaultLocale

  /** The computed `currentLocale`: `this.locale?.name || this.currentLanguage`. */
  function CurrentLocale(name: Option<string>, currentLanguage: string): (r: string)
    ensures name.Some? && name.value != "" ==> r == name.value
    ensures !(name.Some? && name.value != "") ==> r == currentLanguage
  {
    if name.Some? && name.value != "" then name.value else currentLanguage
  }

  /** The `locale.name` watcher: a truthy new name becomes `currentLanguage`. */
  function Watch(currentLanguage: string, newName: Option<string>): (r: string)
    ensures newName.Some? && newName.value != "" ==> r == newName.value
    ensures !(newName.Some? && newName.value != "") ==> r == currentLanguage
  {
    if newName.Some? && newName.value != "" then newName.value else currentLanguage
  }

  /**
   * `currentLanguage` after the watcher has seen `names`, oldest first: it
   * only ever changes to a truthy name the watcher saw.
   */
  function WatchAll(currentLanguage: string, names: seq<Option<string>>): (r: string)
    ensures r != currentLanguage ==> r != "" && Some(r) in names
    decreases |names|
  {
    if names == [] then currentLanguage else WatchAll(Watch(currentLanguage, names[0]), names[1..])
  }

  /** The last truthy name among `names`, if any. */
  function LastTruthy(names: seq<Option<string>>): (r: Option<string>)
    ensures r.Some? ==> r.value != "" && r in names
    decreases |names|
  {
    if names == [] then None
    else if names[|names| - 1].Some? && names[|names| - 1].value != "" then names[|names| - 1]
    else LastTruthy(names[..|names| - 1])
  }

  lemma {:induction false} WatchAllSnoc(currentLanguage: string, names: seq<Option<string>>, n: Option<string>)
    ensures WatchAll(currentLanguage, names + [n]) == Watch(WatchAll(currentLanguage, names), n)
    decreases |names|
  {
    if names != [] {
      assert (names + [n])[1..] == names[1..] + [n];
      WatchAllSnoc(Watch(currentLanguage, names[0]), names[1..], n);
    }
  }

  /** The watcher leaves `currentLanguage` at the last truthy name it saw, or where it started. */
  lemma {:induction false} WatchAllIsLastTruthy(currentLanguage: string, names: seq<Option<string>>)
    ensures WatchAll(currentLanguage, names) ==
              (if LastTruthy(names).Some? then LastTruthy(names).value else currentLanguage)
    decreases |names|
  {
    if names != [] {
      var init := names[..|names| - 1];
      assert names == init + [names[|names| - 1]];
      WatchAllSnoc(currentLanguage, init, names[|names| - 1]);
      WatchAllIsLastTruthy(currentLanguage, init);
    }
  }

  /** Starting from en-US, `currentLanguage` and so `currentLocale` are never empty. */
  lemma CurrentLocaleNeverEmpty(names: seq<Option<string>>, name: Option<string>)
    ensures WatchAll(InitialLanguage, names) != ""
    ensures CurrentLocale(name, WatchAll(InitialLanguage, names)) != ""
  {
    WatchAllIsLastTruthy(InitialLanguage, names);
  }
}
