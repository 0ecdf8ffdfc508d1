/**
 * Option normalisation (`handleOptions`): the `value` option becomes a list
 * of keywords and a plain object mapping each keyword to `true`.
 */
module Options {

  const DEFAULT_KEYWORD := "precall"

  /** The `value` option: left out, a single keyword, or an array of keywords. */
  datatype KeywordValue = Absent | Single(keyword: string) | Several(keywords: seq<string>)

  /** The options object handed to the plugin (`{ value }`). */
  datatype PluginOptions = PluginOptions(value: KeywordValue)

  /** The `{}` that `Program.enter` falls back to when the file has no options. */
  const EMPTY_OPTIONS := PluginOptions(Absent)

  /** The result of `handleOptions`: `{ keyList, keyMap }`. */
  datatype Normalized = Normalized(keyList: seq<string>, keyMap: map<string, bool>)

  /** The distinct keywords of a list. */
  function ElementsOf(keys: seq<string>): set<string> {
    set k | k in keys
  }

  /** Destructuring with the default keyword, then wrapping a non-array in a one-element list. */
  function KeyListOf(value: KeywordValue): (keys: seq<string>)
    ensures value.Absent? ==> keys == [DEFAULT_KEYWORD]
    ensures !value.Several? ==> |keys| == 1
  {
    match value
    case Absent => [DEFAULT_KEYWORD]
    case Single(k) => [k]
    case Several(ks) => ks
  }

  /**
   * The `reduce` that sets `sum[v] = true` for each keyword in turn, starting
   * from the accumulator `acc`.
   */
  function MarkAll(keys: seq<string>, acc: map<string, bool>): (m: map<string, bool>)
    ensures forall k :: k in m <==> k in acc || k in keys
    ensures forall k :: k in keys ==> m[k]
    ensures forall k :: k in acc && k !in keys ==> m[k] == acc[k]
  {
    if keys == [] then acc
    else
      var rest := MarkAll(keys[1..], acc[keys[0] := true]);
      assert forall k :: k in keys <==> k == keys[0] || k in keys[1..];
      rest
  }

  function HandleOptions(options: PluginOptions): (r: Normalized)
    ensures r.keyList == KeyListOf(options.value)
    ensures forall k :: k in r.keyMap <==> k in r.keyList
    ensures forall k :: k in r.keyMap ==> r.keyMap[k]
  {
    var keys := KeyListOf(options.value);
    Normalized(keys, MarkAll(keys, map[]))
  }

  /** With no `value` the only keyword is `precall`. */
  lemma DefaultKeyword()
    ensures HandleOptions(PluginOptions(Absent)).keyList == ["precall"]
    ensures HandleOptions(PluginOptions(Absent)).keyMap == map["precall" := true]
  {
    var m := HandleOptions(PluginOptions(Absent)).keyMap;
    assert m.Keys == {"precall"};
  }

  /** A single string becomes a one-element list. */
  lemma SingleKeyword(k: string)
    ensures HandleOptions(PluginOptions(Single(k))) == Normalized([k], map[k := true])
  {
    var m := HandleOptions(PluginOptions(Single(k))).keyMap;
    assert m.Keys == {k};
  }

  /** An array is used unchanged, and its keywords are exactly the keys of the map, all `true`. */
  lemma SeveralKeywords(ks: seq<string>)
    ensures HandleOptions(PluginOptions(Several(ks))).keyList == ks
    ensures HandleOptions(PluginOptions(Several(ks))).keyMap == map k | k in ks :: true
  {
  }

  /** An empty array gives an empty map and no error. */
  lemma EmptyKeywordList()
    ensures HandleOptions(PluginOptions(Several([]))) == Normalized([], map[])
  {
  }

  lemma {:induction false} ElementsBound(keys: seq<string>)
    ensures |ElementsOf(keys)| <= |keys|
  {
    if keys != [] {
      ElementsBound(keys[1..]);
      assert ElementsOf(keys) == ElementsOf(keys[1..]) + {keys[0]};
    }
  }

  /** The map has one entry per distinct keyword, never more entries than the list. */
  lemma KeyMapSize(options: PluginOptions)
    ensures HandleOptions(options).keyMap.Keys == ElementsOf(HandleOptions(options).keyList)
    ensures |HandleOptions(options).keyMap| <= |HandleOptions(options).keyList|
  {
    var r := HandleOptions(options);
    assert r.keyMap.Keys == ElementsOf(r.keyList);
    ElementsBound(r.keyList);
  }

  /** A repeated keyword collapses into one entry of the map. */
  lemma DuplicatesCollapse(ks: seq<string>, i: nat, j: nat)
    requires i < j < |ks| && ks[i] == ks[j]
    ensures |HandleOptions(PluginOptions(Several(ks))).keyMap| < |ks|
  {
    var without := ks[..j] + ks[j + 1..];
    assert ElementsOf(ks) == ElementsOf(without) by {
      assert ks == ks[..j] + [ks[j]] + ks[j + 1..];
      assert ks[j] in without;
    }
    ElementsBound(without);
    KeyMapSize(PluginOptions(Several(ks)));
  }

  /** The map depends only on which keywords occur, not on their order or repetition. */
  lemma KeyMapByElements(xs: seq<string>, ys: seq<string>)
    requires ElementsOf(xs) == ElementsOf(ys)
    ensures HandleOptions(PluginOptions(Several(xs))).keyMap
         == HandleOptions(PluginOptions(Several(ys))).keyMap
  {
    var mx := HandleOptions(PluginOptions(Several(xs))).keyMap;
    var my := HandleOptions(PluginOptions(Several(ys))).keyMap;
    assert mx.Keys == my.Keys by {
      assert forall k :: k in xs <==> k in ElementsOf(xs);
      assert forall k :: k in ys <==> k in ElementsOf(ys);
    }
  }
}
