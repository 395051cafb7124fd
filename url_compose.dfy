/**
 * `build_url_with_name`: set the `name` query parameter of a URL.
 *
 * The URL is held as the six components `urlparse` splits it into, and the
 * query component as the decoded key/value pairs `parse_qsl` yields with
 * blank values kept. The function turns those pairs into a Python dict,
 * assigns its `name` entry, and puts the dict's items back into the query
 * component; everything else is copied through.
 */
module UrlCompose {
  import opened Wrappers

  /** Decoded query parameters, in the order they appear. */
  type Query = seq<(string, string)>

  /** scheme, netloc, path, params, query, fragment: the six slots of `urlparse`. */
  datatype Url = Url(scheme: string, netloc: string, path: string, params: string,
                     query: Query, fragment: string)

  /** The parameter the rewrite sets. */
  const NameKey: string := "name"

  /** The keys that occur in a query. */
  function KeysOf(q: Query): set<string> {
    set i | 0 <= i < |q| :: q[i].0
  }

  /** No key occurs twice. */
  predicate DistinctKeys(q: Query) {
    forall i, j :: 0 <= i < j < |q| ==> q[i].0 != q[j].0
  }

  /**
   * The value of the last pair whose key is `k`, or `None` when `k` does not
   * occur; read from the front, the value of a later occurrence wins.
   */
  function LastValue(q: Query, k: string): (v: Option<string>)
    ensures v.None? <==> k !in KeysOf(q)
    ensures v.Some? ==> (k, v.value) in q
  {
    if q == [] then None
    else
      assert forall i :: 0 < i < |q| ==> q[1..][i - 1] == q[i];
      var later := LastValue(q[1..], k);
      if later.Some? then later
      else if q[0].0 == k then Some(q[0].1)
      else None
  }

  /** The position of the first pair whose key is `k`. */
  ghost function FirstIndex(q: Query, k: string): (i: nat)
    requires k in KeysOf(q)
    ensures i < |q| && q[i].0 == k
    ensures forall j :: 0 <= j < i ==> q[j].0 != k
  {
    if q[0].0 == k then 0
    else
      var w :| 0 <= w < |q| && q[w].0 == k;
      assert q[1..][w - 1].0 == k;
      FirstIndex(q[1..], k) + 1
  }

  /**
   * A Python dict from strings to strings: the keys in insertion order and
   * the mapping itself.
   */
  datatype Dict = Dict(keys: seq<string>, values: map<string, string>) {

    /** Each key is listed once, and the listed keys are exactly the mapped ones. */
    ghost predicate Valid() {
      && (forall i, j :: 0 <= i < j < |keys| ==> keys[i] != keys[j])
      && (forall k :: k in values <==> k in keys)
    }

    /** `dict.items()`: the pairs in insertion order, each key once. */
    function Items(): (q: Query)
      requires Valid()
      ensures DistinctKeys(q)
    {
      seq(|keys|, i requires 0 <= i < |keys| => (keys[i], values[keys[i]]))
    }

    /** `d[k] = v`, in place; `SetItems` says what it does to the items. */
    function Set(k: string, v: string): (d: Dict)
      requires Valid()
      ensures d.Valid()
    {
      if k in values then Dict(keys, values[k := v]) else Dict(keys + [k], values[k := v])
    }
  }

  lemma KeysOfSnoc(q: Query, p: (string, string))
    ensures KeysOf(q + [p]) == KeysOf(q) + {p.0}
  {
    assert forall i :: 0 <= i < |q| ==> (q + [p])[i] == q[i];
    assert (q + [p])[|q|] == p;
  }

  /** Every mapped key shows up in the items with its value. */
  lemma ItemsHasEntry(d: Dict, k: string)
    requires d.Valid() && k in d.values
    ensures (k, d.values[k]) in d.Items()
  {
    var i :| 0 <= i < |d.keys| && d.keys[i] == k;
    assert d.Items()[i] == (k, d.values[k]);
  }

  /**
   * `d[k] = v`: an existing key keeps its position and takes the new value,
   * a new key is appended; every other pair is unchanged.
   */
  lemma SetItems(d: Dict, k: string, v: string)
    requires d.Valid()
    ensures k in d.values ==> |d.Set(k, v).Items()| == |d.Items()|
    ensures k in d.values ==> forall i :: 0 <= i < |d.keys| ==>
              d.Set(k, v).Items()[i] == if d.keys[i] == k then (k, v) else d.Items()[i]
    ensures k !in d.values ==> d.Set(k, v).Items() == d.Items() + [(k, v)]
  {
  }

  /**
   * `dict(pairs)`: the pairs inserted one after the other, so that a repeated
   * key keeps the position of its first occurrence and takes its last value.
   */
  function FromPairs(q: Query): (d: Dict)
    ensures d.Valid()
    ensures d.values.Keys == KeysOf(q)
  {
    if q == [] then Dict([], map[])
    else
      KeysOfSnoc(q[..|q| - 1], q[|q| - 1]);
      assert q == q[..|q| - 1] + [q[|q| - 1]];
      FromPairs(q[..|q| - 1]).Set(q[|q| - 1].0, q[|q| - 1].1)
  }

  /**
   * `build_url_with_name`: the query component becomes the items of the
   * dict built from its pairs, with `name` assigned; no other component
   * changes, and the new query has distinct keys with `name` bound to the
   * given value, so `name` occurs exactly once.
   */
  function BuildUrlWithName(baseUrl: Url, name: string): (url: Url)
    ensures url.(query := baseUrl.query) == baseUrl
    ensures DistinctKeys(url.query) && (NameKey, name) in url.query
  {
    var query := FromPairs(baseUrl.query).Set(NameKey, name);
    ItemsHasEntry(query, NameKey);
    baseUrl.(query := query.Items())
  }

  /* Facts about appending one pair, the step `dict(pairs)` takes per pair. */

  lemma {:induction false} LastValueSnoc(q: Query, p: (string, string), k: string)
    ensures LastValue(q + [p], k) == if p.0 == k then Some(p.1) else LastValue(q, k)
  {
    if q == [] {
      assert ([] + [p])[1..] == [];
    } else {
      assert (q + [p])[1..] == q[1..] + [p];
      LastValueSnoc(q[1..], p, k);
    }
  }

  lemma FirstIndexSnoc(q: Query, p: (string, string), k: string)
    requires k in KeysOf(q)
    ensures k in KeysOf(q + [p]) && FirstIndex(q + [p], k) == FirstIndex(q, k)
  {
    var i := FirstIndex(q, k);
    assert (q + [p])[i] == q[i];
  }

  lemma FirstIndexAppended(q: Query, p: (string, string))
    requires p.0 !in KeysOf(q)
    ensures p.0 in KeysOf(q + [p]) && FirstIndex(q + [p], p.0) == |q|
  {
    assert (q + [p])[|q|] == p;
  }

  /** Each key of `dict(pairs)` is bound to the last value the pairs give it. */
  lemma {:induction false} FromPairsLastValue(q: Query)
    ensures forall k :: LastValue(q, k) == Get(FromPairs(q).values, k)
  {
    if q != [] {
      var q', p := q[..|q| - 1], q[|q| - 1];
      assert q == q' + [p];
      FromPairsLastValue(q');
      forall k ensures LastValue(q, k) == Get(FromPairs(q).values, k) {
        LastValueSnoc(q', p, k);
      }
    }
  }

  /** `ks` lists keys of `q`, each before every key that first occurs later in `q`. */
  ghost predicate InFirstOccurrenceOrder(ks: seq<string>, q: Query) {
    && (forall i :: 0 <= i < |ks| ==> ks[i] in KeysOf(q))
    && (forall i, j :: 0 <= i < j < |ks| ==> FirstIndex(q, ks[i]) < FirstIndex(q, ks[j]))
  }

  /** One insertion step keeps the keys in first-occurrence order. */
  lemma OrderSnoc(ks: seq<string>, q: Query, p: (string, string))
    requires InFirstOccurrenceOrder(ks, q)
    ensures p.0 in KeysOf(q) ==> InFirstOccurrenceOrder(ks, q + [p])
    ensures p.0 !in KeysOf(q) ==> InFirstOccurrenceOrder(ks + [p.0], q + [p])
  {
    KeysOfSnoc(q, p);
    forall k | k in KeysOf(q) ensures FirstIndex(q + [p], k) == FirstIndex(q, k) {
      FirstIndexSnoc(q, p, k);
    }
    if p.0 !in KeysOf(q) {
      FirstIndexAppended(q, p);
      var ks' := ks + [p.0];
      forall i, j | 0 <= i < j < |ks'|
        ensures FirstIndex(q + [p], ks'[i]) < FirstIndex(q + [p], ks'[j])
      {
        assert ks'[i] == ks[i];
        if j < |ks| {
          assert ks'[j] == ks[j];
        }
      }
    }
  }

  /** The keys of `dict(pairs)` are listed in the order of their first occurrence. */
  lemma {:induction false} FromPairsOrder(q: Query)
    ensures InFirstOccurrenceOrder(FromPairs(q).keys, q)
  {
    if q != [] {
      var q', p := q[..|q| - 1], q[|q| - 1];
      assert q == q' + [p];
      FromPairsOrder(q');
      OrderSnoc(FromPairs(q').keys, q', p);
    }
  }

  /** The dict without its most recently inserted key. */
  function DropLast(d: Dict): (d': Dict)
    requires d.Valid() && |d.keys| > 0
    ensures d'.Valid() && |d'.keys| == |d.keys| - 1
    ensures d'.Items() == d.Items()[..|d.keys| - 1]
    ensures d'.Set(d.keys[|d.keys| - 1], d.values[d.keys[|d.keys| - 1]]) == d
  {
    var n := |d.keys|;
    var k := d.keys[n - 1];
    var d' := Dict(d.keys[..n - 1], d.values - {k});
    assert d'.Valid() by {
      forall x ensures x in d'.values <==> x in d'.keys {
        if x in d'.keys {
          var i :| 0 <= i < n - 1 && d'.keys[i] == x;
          assert d.keys[i] == x;
        }
      }
    }
    assert d'.keys + [k] == d.keys;
    assert d'.values[k := d.values[k]] == d.values;
    d'
  }

  /** `dict(d.items())` rebuilds `d`: the items lose nothing of the dict. */
  lemma {:induction false} FromPairsOfItems(d: Dict)
    requires d.Valid()
    ensures FromPairs(d.Items()) == d
    decreases |d.keys|
  {
    if |d.keys| == 0 {
      assert d.values == map[];
    } else {
      var d' := DropLast(d);
      FromPairsOfItems(d');
    }
  }

  /**
   * After the rewrite, `name` is bound to the given value and every other key
   * to the value of its last occurrence in the original query; so no other
   * key is added or removed, and blank values survive as "".
   */
  lemma RewriteValues(baseUrl: Url, name: string)
    ensures forall k :: LastValue(BuildUrlWithName(baseUrl, name).query, k)
                        == if k == NameKey then Some(name) else LastValue(baseUrl.query, k)
  {
    var d := FromPairs(baseUrl.query);
    var d2 := d.Set(NameKey, name);
    FromPairsLastValue(baseUrl.query);
    FromPairsOfItems(d2);
    FromPairsLastValue(d2.Items());
  }

  /**
   * After the rewrite, keys appear in the order of their first occurrence in
   * the original query (an existing `name` included), and a `name` that was
   * absent comes last.
   */
  lemma RewriteKeyOrder(baseUrl: Url, name: string)
    ensures var r, q := BuildUrlWithName(baseUrl, name).query, baseUrl.query;
      && (forall i, j :: 0 <= i < j < |r| ==>
            r[i].0 in KeysOf(q)
            && (r[j].0 in KeysOf(q) ==> FirstIndex(q, r[i].0) < FirstIndex(q, r[j].0)))
      && (NameKey !in KeysOf(q) ==> |r| > 0 && r[|r| - 1] == (NameKey, name))
  {
    var q := baseUrl.query;
    var d := FromPairs(q);
    var r := BuildUrlWithName(baseUrl, name).query;
    FromPairsOrder(q);
    assert |r| == |d.keys| || |r| == |d.keys| + 1;
    forall i | 0 <= i < |d.keys| ensures r[i].0 == d.keys[i] && d.keys[i] in KeysOf(q) {
      assert d.keys[i] in d.values;
    }
  }

  /** Blank values are kept: a key whose last value was "" still carries "". */
  lemma BlankValuesKept(baseUrl: Url, name: string, k: string)
    requires k != NameKey && LastValue(baseUrl.query, k) == Some("")
    ensures (k, "") in BuildUrlWithName(baseUrl, name).query
  {
    RewriteValues(baseUrl, name);
  }

  /** Assigning a key the value it already has leaves the dict as it was. */
  lemma SetSame(d: Dict, k: string, v: string)
    requires d.Valid() && k in d.values && d.values[k] == v
    ensures d.Set(k, v) == d
  {
    assert d.values[k := v] == d.values;
  }

  /** Rewriting again with the same name changes nothing. */
  lemma RewriteIdempotent(baseUrl: Url, name: string)
    ensures BuildUrlWithName(BuildUrlWithName(baseUrl, name), name) == BuildUrlWithName(baseUrl, name)
  {
    var d2 := FromPairs(baseUrl.query).Set(NameKey, name);
    var u2 := BuildUrlWithName(baseUrl, name);
    assert u2 == baseUrl.(query := d2.Items());
    FromPairsOfItems(d2);
    assert FromPairs(u2.query) == d2;
    assert NameKey in d2.values && d2.values[NameKey] == name;
    SetSame(d2, NameKey, name);
  }

  /** A query without `name` gets it appended. */
  lemma AppendExample(baseUrl: Url)
    requires baseUrl.query == [("foo", "bar")]
    ensures BuildUrlWithName(baseUrl, "Ada").query == [("foo", "bar"), (NameKey, "Ada")]
  {
    assert FromPairs([("foo", "bar")]) == Dict(["foo"], map["foo" := "bar"]) by {
      assert [("foo", "bar")][..0] == [];
    }
  }

  /** An existing `name` keeps its place and takes the new value. */
  lemma OverwriteExample(baseUrl: Url)
    requires baseUrl.query == [(NameKey, "Old"), ("x", "1")]
    ensures BuildUrlWithName(baseUrl, "New").query == [(NameKey, "New"), ("x", "1")]
  {
    var q := baseUrl.query;
    assert q[..1] == [(NameKey, "Old")] && q[..1][..0] == [];
    var d1 := Dict([NameKey], map[NameKey := "Old"]);
    assert FromPairs(q[..1]) == d1;
    var d := Dict([NameKey, "x"], map[NameKey := "Old", "x" := "1"]);
    assert FromPairs(q) == d;
    var d2 := Dict([NameKey, "x"], map[NameKey := "New", "x" := "1"]);
    assert d.values[NameKey := "New"] == d2.values;
    assert d.Set(NameKey, "New") == d2;
    assert d2.Items() == [(NameKey, "New"), ("x", "1")];
  }

  /** Every repeated key collapses, not only `name`: `a=1&a=2` keeps `a=2` once. */
  lemma CollapseExample(baseUrl: Url)
    requires baseUrl.query == [("a", "1"), ("a", "2")]
    ensures BuildUrlWithName(baseUrl, "n").query == [("a", "2"), (NameKey, "n")]
  {
    var q := baseUrl.query;
    assert q[..1] == [("a", "1")] && q[..1][..0] == [];
    assert FromPairs(q[..1]) == Dict(["a"], map["a" := "1"]);
    assert map["a" := "1"]["a" := "2"] == map["a" := "2"];
    assert FromPairs(q) == Dict(["a"], map["a" := "2"]);
  }
}
