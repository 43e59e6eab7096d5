/**
 * The JavaScript values the message lookups of the front end walk through:
 * `undefined`, strings, and plain objects (nested message tables), with
 * property reads and `String.prototype.split` on one separator.
 */
module JsValues {

  /** A message-table value. */
  datatype Value = Undefined | Text(s: string) | Object(fields: map<string, Value>)

  /** JavaScript truthiness: `undefined` and "" are falsy, objects and other strings truthy. */
  predicate Truthy(v: Value) {
    v.Object? || (v.Text? && v.s != "")
  }

  /**
   * `v[key]` on a value that is not `undefined`: an object's own property or
   * `undefined`.  Properties of strings and of the object prototype are not
   * modelled and read as `undefined`.
   */
  function Get(v: Value, key: string): (r: Value)
    ensures v.Object? && key in v.fields ==> r == v.fields[key]
    ensures !(v.Object? && key in v.fields) ==> r == Undefined
  {
    if v.Object? && key in v.fields then v.fields[key] else Undefined
  }

  /** `parts.join(sep)`. */
  function JoinWith(parts: seq<string>, sep: char): string
    decreases |parts|
  {
    if parts == [] then ""
    else if |parts| == 1 then parts[0]
    else parts[0] + [sep] + JoinWith(parts[1..], sep)
  }

  /** Index of the first `sep` in `s`, if any. */
  function FirstIndex(s: string, sep: char): (r: int)
    ensures -1 <= r < |s|
    ensures r >= 0 ==> s[r] == sep && sep !in s[..r]
    ensures r == -1 ==> sep !in s
    decreases |s|
  {
    if s == [] then -1
    else if s[0] == sep then 0
    else
      var k := FirstIndex(s[1..], sep);
      if k == -1 then -1
      else
        assert s[..k + 1] == [s[0]] + s[1..][..k];
        k + 1
  }

  /** `s.split(sep)`: at least one part, none holding `sep`, and joining them gives `s` back. */
  function Split(s: string, sep: char): (parts: seq<string>)
    ensures |parts| >= 1
    ensures forall k :: 0 <= k < |parts| ==> sep !in parts[k]
    ensures JoinWith(parts, sep) == s
    decreases |s|
  {
    var i := FirstIndex(s, sep);
    if i == -1 then [s]
    else
      var rest := Split(s[i + 1..], sep);
      var parts := [s[..i]] + rest;
      assert parts[1..] == rest;
      assert JoinWith(parts, sep) == s[..i] + [sep] + JoinWith(rest, sep);
      assert s == s[..i] + [sep] + s[i + 1..];
      parts
  }

  /** A key with no separator is one segment. */
  lemma SplitSingle(s: string, sep: char)
    requires sep !in s
    ensures Split(s, sep) == [s]
  {
  }

  /** Splitting `head + sep + rest`, when `head` holds no separator, peels `head` off. */
  lemma SplitCons(head: string, sep: char, rest: string)
    requires sep !in head
    ensures Split(head + [sep] + rest, sep) == [head] + Split(rest, sep)
  {
    var s := head + [sep] + rest;
    assert s[|head|] == sep;
    assert s[..|head|] == head;
    assert FirstIndex(s, sep) == |head|;
    assert s[|head| + 1..] == rest;
  }

  /** Split then join recovers the key, and split of a join recovers the parts. */
  lemma {:induction false} SplitJoin(parts: seq<string>, sep: char)
    requires |parts| >= 1
    requires forall k :: 0 <= k < |parts| ==> sep !in parts[k]
    ensures Split(JoinWith(parts, sep), sep) == parts
    decreases |parts|
  {
    if |parts| == 1 {
      SplitSingle(parts[0], sep);
    } else {
      SplitJoin(parts[1..], sep);
      SplitCons(parts[0], sep, JoinWith(parts[1..], sep));
    }
  }
}
