/**
 * The browser facilities the two clients use, as values: a chosen File,
 * FileReader.readAsBinaryString, Array.prototype.splice for one element,
 * Location.search and URLSearchParams.get.
 */
module Browser {
  import opened Wrappers
  import opened JsString

  /** One byte, as a Uint8Array element holds it. */
  newtype byte = b: int | 0 <= b < 0x100

  /** A File from the file picker or a drop: its name, MIME type and bytes (File.size is |bytes|). */
  datatype File = File(name: string, mime: string, bytes: seq<byte>)

  /** A "binary string": one character per byte, every character below U+0100 (what readAsBinaryString and atob produce). */
  predicate IsBinaryString(s: string) {
    forall i :: 0 <= i < |s| ==> s[i] as int < 0x100
  }

  /** FileReader.readAsBinaryString: character i has the value of byte i. */
  function BinaryString(bytes: seq<byte>): (s: string)
    ensures |s| == |bytes| && IsBinaryString(s)
    ensures forall i :: 0 <= i < |s| ==> s[i] as int == bytes[i] as int
  {
    seq(|bytes|, i requires 0 <= i < |bytes| => bytes[i] as int as char)
  }

  /** The bytes a binary string stands for: byte i is the char code at i. */
  function CharCodes(s: string): (bytes: seq<byte>)
    requires IsBinaryString(s)
    ensures |bytes| == |s|
    ensures forall i :: 0 <= i < |s| ==> bytes[i] as int == s[i] as int
  {
    seq(|s|, i requires 0 <= i < |s| => s[i] as int as byte)
  }

  /** Reading a file as a binary string and taking the char codes back gives its bytes. */
  lemma BinaryStringRoundTrip(bytes: seq<byte>)
    ensures CharCodes(BinaryString(bytes)) == bytes
  {
    var back := CharCodes(BinaryString(bytes));
    assert forall i :: 0 <= i < |bytes| ==> back[i] as int == bytes[i] as int;
  }

  /** The index Array.prototype.splice starts at: a negative index counts from the end, and both are clamped to [0, len]. */
  function SpliceStart(len: nat, index: int): (start: nat)
    ensures start <= len
  {
    if index < 0 then (if len + index < 0 then 0 else len + index)
    else if index > len then len
    else index
  }

  /** xs.splice(index, 1): removes the one element at the clamped start, if there is one there. */
  function SpliceOne<T>(xs: seq<T>, index: int): (r: seq<T>)
    ensures 0 <= index < |xs| ==>
      && |r| == |xs| - 1
      && (forall j :: 0 <= j < index ==> r[j] == xs[j])
      && (forall j :: index <= j < |r| ==> r[j] == xs[j + 1])
      && multiset(r) + multiset{xs[index]} == multiset(xs)
    ensures |xs| <= index ==> r == xs
    ensures -|xs| <= index < 0 ==> r == xs[..|xs| + index] + xs[|xs| + index + 1..]
    ensures index < -|xs| && xs != [] ==> r == xs[1..]
    ensures xs == [] ==> r == []
  {
    var start := SpliceStart(|xs|, index);
    if start < |xs| then
      assert xs == xs[..start] + [xs[start]] + xs[start + 1..];
      xs[..start] + xs[start + 1..]
    else xs
  }

  /**
   * Location.search of a URL: the query with its leading '?', up to the
   * fragment; empty when there is no query or the query is empty.
   */
  function LocationSearch(url: string): (search: string)
    ensures search == [] || (search[0] == '?' && |search| > 1)
    ensures '#' !in search
  {
    var hash := IndexOf(url, '#');
    var beforeFragment := if hash < 0 then url else url[..hash];
    var question := IndexOf(beforeFragment, '?');
    if question < 0 || question == |beforeFragment| - 1 then []
    else
      assert '#' !in beforeFragment;
      beforeFragment[question..]
  }

  /** pair is a non-empty query pair named name with the given value ("name" alone has the empty value). */
  predicate PairOf(pair: string, name: string, value: string) {
    pair != [] && ((pair == name && value == []) || pair == name + "=" + value)
  }

  /** pair is a non-empty query pair named name. */
  predicate Named(pair: string, name: string) {
    pair != [] && (pair == name || StartsWith(pair, name + "="))
  }

  /** pairs[i] is named name with the given value, and no pair before it is named name. */
  predicate FirstPairAt(pairs: seq<string>, name: string, value: string, i: int) {
    && 0 <= i < |pairs| && PairOf(pairs[i], name, value)
    && forall j :: 0 <= j < i ==> !Named(pairs[j], name)
  }

  /**
   * The value of the first name=value pair named name: the pair is cut at its
   * first '=', and empty pairs are skipped. For a name without '=', a value is
   * found exactly when some pair is named name, and it is the value of the
   * first such pair.
   */
  function FirstValue(pairs: seq<string>, name: string): (r: Option<string>)
    ensures r.Some? ==> exists i :: 0 <= i < |pairs| && PairOf(pairs[i], name, r.value)
    ensures '=' !in name && r.Some? ==> exists i :: FirstPairAt(pairs, name, r.value, i)
    ensures '=' !in name ==> (r.None? <==> forall i :: 0 <= i < |pairs| ==> !Named(pairs[i], name))
  {
    if pairs == [] then None
    else if pairs[0] != [] && PairKey(pairs[0]) == name then
      PairKeyNamed(pairs[0], name);
      assert FirstPairAt(pairs, name, PairValue(pairs[0]), 0);
      Some(PairValue(pairs[0]))
    else
      var rest := FirstValue(pairs[1..], name);
      PairKeyNamed(pairs[0], name);
      FirstValueSkip(pairs, name, rest);
      rest
  }

  /** The text of a pair before its first '=' (the whole pair when it has none). */
  function PairKey(pair: string): string {
    var eq := IndexOf(pair, '=');
    if eq < 0 then pair else pair[..eq]
  }

  /** The text of a pair after its first '=' (empty when it has none). */
  function PairValue(pair: string): string {
    var eq := IndexOf(pair, '=');
    if eq < 0 then [] else pair[eq + 1..]
  }

  /** A non-empty pair is named by its text before the first '=', and for a name without '=' only by it. */
  lemma PairKeyNamed(pair: string, name: string)
    ensures pair != [] && PairKey(pair) == name ==> PairOf(pair, name, PairValue(pair)) && Named(pair, name)
    ensures '=' !in name && Named(pair, name) ==> PairKey(pair) == name
  {
    var eq := IndexOf(pair, '=');
    if pair != [] && PairKey(pair) == name && eq >= 0 {
      assert pair == pair[..eq] + "=" + pair[eq + 1..];
      assert pair[..|name| + 1] == name + "=";
    }
    if '=' !in name && Named(pair, name) && pair != name {
      var rest := pair[|name| + 1..];
      assert pair == name + ("=" + rest);
      IndexOfAfter(name, "=" + rest, '=');
    }
  }

  /** Skipping a first pair that is not named name keeps what the rest of the pairs give. */
  lemma FirstValueSkip(pairs: seq<string>, name: string, rest: Option<string>)
    requires pairs != []
    requires '=' !in name ==> !Named(pairs[0], name)
    requires rest.Some? ==> exists i :: 0 <= i < |pairs[1..]| && PairOf(pairs[1..][i], name, rest.value)
    requires '=' !in name && rest.Some? ==> exists i :: FirstPairAt(pairs[1..], name, rest.value, i)
    requires '=' !in name ==> (rest.None? <==> forall i :: 0 <= i < |pairs[1..]| ==> !Named(pairs[1..][i], name))
    ensures rest.Some? ==> exists i :: 0 <= i < |pairs| && PairOf(pairs[i], name, rest.value)
    ensures '=' !in name && rest.Some? ==> exists i :: FirstPairAt(pairs, name, rest.value, i)
    ensures '=' !in name ==> (rest.None? <==> forall i :: 0 <= i < |pairs| ==> !Named(pairs[i], name))
  {
    if rest.Some? {
      var i :| 0 <= i < |pairs[1..]| && PairOf(pairs[1..][i], name, rest.value);
      assert PairOf(pairs[i + 1], name, rest.value);
      if '=' !in name {
        var k :| FirstPairAt(pairs[1..], name, rest.value, k);
        assert FirstPairAt(pairs, name, rest.value, k + 1);
        assert Named(pairs[1..][k], name) && pairs[k + 1] == pairs[1..][k];
      }
    }
    if '=' !in name && rest.None? {
      forall i | 0 <= i < |pairs|
        ensures !Named(pairs[i], name)
      {
        if i > 0 {
          assert pairs[i] == pairs[1..][i - 1];
        }
      }
    }
  }

  /** The query's pairs: a leading '?' is dropped and the rest is split on '&'. */
  function QueryPairs(search: string): (pairs: seq<string>)
    ensures |pairs| >= 1 && forall i :: 0 <= i < |pairs| ==> '&' !in pairs[i]
    ensures Join(pairs, '&') == if search != [] && search[0] == '?' then search[1..] else search
  {
    Split(if search != [] && search[0] == '?' then search[1..] else search, '&')
  }

  /**
   * new URLSearchParams(search).get(name), without percent-decoding: for a
   * name without '=', a value is found exactly when some pair of the query is
   * named name, and it is the value of the first such pair. Such a value never
   * holds '&', because decoding (which could produce one from %26) is left out.
   */
  function SearchParamGet(search: string, name: string): (r: Option<string>)
    ensures '=' !in name ==> (r.None? <==> forall i :: 0 <= i < |QueryPairs(search)| ==> !Named(QueryPairs(search)[i], name))
    ensures '=' !in name && r.Some? ==> exists i :: FirstPairAt(QueryPairs(search), name, r.value, i)
    ensures r.Some? ==> '&' !in r.value
  {
    var pairs := QueryPairs(search);
    var r := FirstValue(pairs, name);
    if r.Some? then
      var i :| 0 <= i < |pairs| && PairOf(pairs[i], name, r.value);
      assert r.value != [] ==> r.value == pairs[i][|name| + 1..];
      r
    else r
  }

  /** A query of one pair gives its value back, for a value without '&'. */
  lemma SearchParamOfOnePair(name: string, value: string)
    requires name != [] && '=' !in name && '&' !in name && '&' !in value
    ensures SearchParamGet("?" + name + "=" + value, name) == Some(value)
  {
    var search := "?" + name + "=" + value;
    var pair := name + "=" + value;
    assert search[0] == '?' && search[1..] == pair;
    assert '&' !in pair by {
      assert pair == name + ("=" + value);
    }
    SplitWithoutSeparator(pair, '&');
    assert pair == name + ("=" + value);
    IndexOfAfter(name, "=" + value, '=');
    assert IndexOf(pair, '=') == |name|;
    assert pair != [] && PairKey(pair) == name && PairValue(pair) == value;
    assert FirstValue([pair], name) == Some(value);
  }

  /** The search of base + "?" + query, for a base without '?' or '#' and a non-empty query without '#'. */
  lemma LocationSearchOfQuery(base: string, query: string)
    requires '?' !in base && '#' !in base
    requires query != [] && '#' !in query
    ensures LocationSearch(base + "?" + query) == "?" + query
  {
    var rest := "?" + query;
    var url := base + rest;
    assert base + "?" + query == url;
    assert rest[0] == '?' && rest[1..] == query;
    assert '#' !in rest;
    IndexOfAfter(base, rest, '#');
    assert IndexOf(url, '#') == -1;
    assert IndexOf(rest, '?') == 0;
    IndexOfAfter(base, rest, '?');
    assert IndexOf(url, '?') == |base| < |url| - 1;
    assert url[|base|..] == rest;
    assert LocationSearch(url) == rest;
  }
}
