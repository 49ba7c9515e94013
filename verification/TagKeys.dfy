/** The identity of a metric instance: makeKey and sortedTagsKey of internal/metric/collector.go. */
module TagKeys {
  import opened Strings

  type Tags = map<string, string>

  datatype MetricKey = MetricKey(name: string, tagsKey: string)

  function Pair(k: string, v: string): string {
    k + "=" + v
  }

  /** key=value pairs separated by commas. */
  function Render(keys: seq<string>, tags: Tags): string
    requires forall k :: k in keys ==> k in tags
  {
    if keys == [] then ""
    else if |keys| == 1 then Pair(keys[0], tags[keys[0]])
    else
      assert forall k :: k in keys[1..] ==> k in keys;
      Pair(keys[0], tags[keys[0]]) + "," + Render(keys[1..], tags)
  }

  /** The keys of the map in order, each once. */
  ghost predicate Lists(keys: seq<string>, tags: Tags) {
    SortedStrings(keys) && Distinct(keys) && (forall k :: k in keys <==> k in tags)
  }

  /** `key` is the canonical text of `tags`. */
  ghost predicate Canonical(key: string, tags: Tags) {
    exists keys: seq<string> :: Lists(keys, tags) && key == Render(keys, tags)
  }

  lemma {:induction false} RenderAppend(keys: seq<string>, k: string, tags: Tags)
    requires keys != [] && k in tags && forall x :: x in keys ==> x in tags
    ensures Render(keys + [k], tags) == Render(keys, tags) + "," + Pair(k, tags[k])
  {
    if |keys| == 1 {
      assert (keys + [k])[1..] == [k];
    } else {
      assert (keys + [k])[1..] == keys[1..] + [k];
      assert forall x :: x in keys[1..] ==> x in keys;
      RenderAppend(keys[1..], k, tags);
      Regroup(Pair(keys[0], tags[keys[0]]) + ",", Render(keys[1..], tags), ",", Pair(k, tags[k]));
    }
  }

  lemma Regroup(a: string, b: string, c: string, d: string)
    ensures a + (b + c + d) == a + b + c + d
  {}

  lemma SortLists(keys: seq<string>, tags: Tags)
    requires Distinct(keys) && forall k :: k in keys <==> k in tags
    ensures Lists(SortStrings(keys), tags)
  {
    SortDistinct(keys);
  }

  /** Ranging over the map visits the keys in any order; the choices below stand for that order. */
  method SortedTagsKey(tags: Tags) returns (key: string)
    ensures Canonical(key, tags)
  {
    if |tags| == 0 {
      assert Lists([], tags);
      return "";
    }
    if |tags| == 1 {
      var k :| k in tags;
      SingleKey(tags, k);
      return Pair(k, tags[k]);
    }
    var keys: seq<string> := [];
    var rest := tags.Keys;
    while rest != {}
      invariant rest <= tags.Keys && Distinct(keys)
      invariant forall k :: k in keys <==> k in tags && k !in rest
      decreases rest
    {
      var k :| k in rest;
      keys := keys + [k];
      rest := rest - {k};
    }
    SortLists(keys, tags);
    keys := SortStrings(keys);
    key := WriteTags(keys, tags);
  }

  /** The builder loop. */
  method WriteTags(keys: seq<string>, tags: Tags) returns (b: string)
    requires forall k :: k in keys ==> k in tags
    ensures b == Render(keys, tags)
  {
    b := "";
    var i := 0;
    while i < |keys|
      invariant 0 <= i <= |keys| && b == Render(keys[..i], tags)
    {
      if i > 0 {
        RenderAppend(keys[..i], keys[i], tags);
        b := b + ",";
      }
      b := b + keys[i];
      b := b + "=";
      b := b + tags[keys[i]];
      assert keys[..i + 1] == keys[..i] + [keys[i]];
      i := i + 1;
    }
    assert keys[..i] == keys;
  }

  lemma SingleKey(tags: Tags, k: string)
    requires |tags| == 1 && k in tags
    ensures Lists([k], tags) && Canonical(Pair(k, tags[k]), tags)
  {
    assert |tags.Keys - {k}| == 0;
    assert forall x :: x in tags ==> x in tags.Keys - {k} || x == k;
    LeTotal(k, k);
    assert Render([k], tags) == Pair(k, tags[k]);
  }

  method MakeKey(name: string, tags: Tags) returns (key: MetricKey)
    ensures key.name == name && Canonical(key.tagsKey, tags)
  {
    if |tags| == 0 {
      assert Lists([], tags);
      return MetricKey(name, "");
    }
    if |tags| == 1 {
      var k :| k in tags;
      SingleKey(tags, k);
      return MetricKey(name, Pair(k, tags[k]));
    }
    var s := SortedTagsKey(tags);
    return MetricKey(name, s);
  }

  /** The order in which a map is ranged over never shows: a map has one canonical key. */
  lemma CanonicalUnique(a: string, b: string, tags: Tags)
    requires Canonical(a, tags) && Canonical(b, tags)
    ensures a == b
  {
    var ka :| Lists(ka, tags) && a == Render(ka, tags);
    var kb :| Lists(kb, tags) && b == Render(kb, tags);
    ListsUnique(ka, kb, tags);
  }

  lemma ListsUnique(a: seq<string>, b: seq<string>, tags: Tags)
    requires Lists(a, tags) && Lists(b, tags)
    ensures a == b
  {
    SortedDistinctUnique(a, b);
  }

  /** What keeps the separators unambiguous: no '=' in a key and no ',' in a value. */
  ghost predicate Separable(tags: Tags) {
    forall k :: k in tags ==> '=' !in k && ',' !in tags[k]
  }

  lemma PairText(k: string, v: string, x: string)
    ensures Pair(k, v) + x == k + ("=" + (v + x))
  {}

  /** The text up to the first separator, and the text after it, are determined. */
  lemma FirstFieldAgrees(sep: char, a: string, x: string, b: string, y: string)
    requires sep !in a && sep !in b && (x != "" ==> x[0] == sep) && (y != "" ==> y[0] == sep)
    requires a + x == b + y
    ensures a == b && x == y
  {
    IndexAfter(sep, a, x);
    IndexAfter(sep, b, y);
    assert a == (a + x)[..|a|] && b == (b + y)[..|b|];
    assert x == (a + x)[|a|..] && y == (b + y)[|b|..];
  }

  /** The first '=' ends the first key, the first ',' after it ends the value. */
  lemma PairsAgree(k: string, v: string, x: string, l: string, w: string, y: string)
    requires '=' !in k && ',' !in v && '=' !in l && ',' !in w
    requires (x != "" ==> x[0] == ',') && (y != "" ==> y[0] == ',')
    requires Pair(k, v) + x == Pair(l, w) + y
    ensures k == l && v == w && x == y
  {
    PairText(k, v, x);
    PairText(l, w, y);
    var vx, wy := "=" + (v + x), "=" + (w + y);
    FirstFieldAgrees('=', k, vx, l, wy);
    assert v + x == vx[1..] && w + y == wy[1..];
    FirstFieldAgrees(',', v, x, w, y);
  }

  lemma RenderUnfolds(keys: seq<string>, tags: Tags) returns (tail: string)
    requires Separable(tags) && keys != [] && forall k :: k in keys ==> k in tags
    ensures var k := keys[0];
            k in tags && '=' !in k && ',' !in tags[k] && Render(keys, tags) == Pair(k, tags[k]) + tail
    ensures |keys| == 1 <==> tail == ""
    ensures |keys| > 1 ==> tail[0] == ',' && (forall k :: k in keys[1..] ==> k in tags) && tail[1..] == Render(keys[1..], tags)
  {
    assert keys[0] in tags;
    assert forall k :: k in keys[1..] ==> k in keys;
    if |keys| == 1 {
      tail := "";
    } else {
      tail := "," + Render(keys[1..], tags);
      assert Render(keys, tags) == Pair(keys[0], tags[keys[0]]) + tail;
    }
  }

  lemma FirstPairsAgree(a: seq<string>, s: Tags, b: seq<string>, t: Tags)
    requires Separable(s) && Separable(t) && a != [] && b != []
    requires (forall k :: k in a ==> k in s) && (forall k :: k in b ==> k in t)
    requires Render(a, s) == Render(b, t)
    ensures a[0] == b[0] && s[a[0]] == t[b[0]]
    ensures (|a| > 1 <==> |b| > 1) && (|a| > 1 ==> Render(a[1..], s) == Render(b[1..], t))
  {
    var x := RenderUnfolds(a, s);
    var y := RenderUnfolds(b, t);
    PairsAgree(a[0], s[a[0]], x, b[0], t[b[0]], y);
  }

  lemma {:induction false} RenderInjective(a: seq<string>, s: Tags, b: seq<string>, t: Tags)
    requires Separable(s) && Separable(t)
    requires (forall k :: k in a ==> k in s) && (forall k :: k in b ==> k in t)
    requires Render(a, s) == Render(b, t)
    ensures a == b && forall i :: 0 <= i < |a| ==> s[a[i]] == t[a[i]]
  {
    if a != [] && b != [] {
      FirstPairsAgree(a, s, b, t);
      if |a| > 1 {
        RenderInjective(a[1..], s, b[1..], t);
      }
      assert a == [a[0]] + a[1..] && b == [b[0]] + b[1..];
    }
  }

  /** Two separable tag maps share a key only if they are the same map. */
  lemma KeysInjective(key: string, s: Tags, t: Tags)
    requires Separable(s) && Separable(t) && Canonical(key, s) && Canonical(key, t)
    ensures s == t
  {
    var ks :| Lists(ks, s) && key == Render(ks, s);
    var kt :| Lists(kt, t) && key == Render(kt, t);
    RenderInjective(ks, s, kt, t);
    SameEntries(ks, s, t);
  }

  lemma SameEntries(keys: seq<string>, s: Tags, t: Tags)
    requires (forall k :: k in keys <==> k in s) && (forall k :: k in keys <==> k in t)
    requires forall i :: 0 <= i < |keys| ==> s[keys[i]] == t[keys[i]]
    ensures s == t
  {
    forall k | k in s ensures s[k] == t[k] {
      var i :| 0 <= i < |keys| && keys[i] == k;
    }
  }

  /** A comma in a value breaks that: these two maps have the same key, though no key has an '='. */
  lemma CommaCollides()
    ensures '=' !in "a" && '=' !in "b" && ',' in "1,b=2"
    ensures Canonical("a=1,b=2", map["a" := "1,b=2"]) && Canonical("a=1,b=2", map["a" := "1", "b" := "2"])
  {
    var s, t := map["a" := "1,b=2"], map["a" := "1", "b" := "2"];
    assert StringLe("a", "a") && StringLe("a", "b") && StringLe("b", "b");
    assert Lists(["a"], s) && Lists(["a", "b"], t);
    assert "1,b=2"[1] == ',';
    assert Render(["a"], s) == "a=1,b=2";
    assert ["a", "b"][1..] == ["b"];
    assert Render(["a", "b"], t) == "a=1,b=2";
  }

  /** An '=' in a key breaks it as well: these two maps have the same key, though no value has a comma. */
  lemma EqualsCollides()
    ensures Canonical("a=b=c", map["a" := "b=c"]) && Canonical("a=b=c", map["a=b" := "c"])
    ensures ',' !in "b=c" && ',' !in "c" && '=' !in "a" && '=' in "a=b"
  {
    var s, t := map["a" := "b=c"], map["a=b" := "c"];
    SingleKey(s, "a");
    SingleKey(t, "a=b");
    assert Pair("a", s["a"]) == "a=b=c" && Pair("a=b", t["a=b"]) == "a=b=c";
    assert "a=b"[1] == '=';
  }

  // ---------- Which maps their key identifies ----------

  /** No other tag map has the key of this one. */
  ghost predicate Identified(s: Tags) {
    forall key, t :: Canonical(key, s) && Canonical(key, t) ==> t == s
  }

  lemma ListKeys(left: set<string>) returns (keys: seq<string>)
    ensures Distinct(keys) && forall k :: k in keys <==> k in left
  {
    if left == {} {
      keys := [];
    } else {
      var k :| k in left;
      keys := ListKeys(left - {k});
      keys := keys + [k];
    }
  }

  /** Every map has a key. */
  lemma HasKey(s: Tags) returns (key: string, keys: seq<string>)
    ensures Lists(keys, s) && key == Render(keys, s) && Canonical(key, s) && (keys == [] <==> s == map[])
  {
    var ks := ListKeys(s.Keys);
    SortLists(ks, s);
    keys := SortStrings(ks);
    key := Render(keys, s);
    assert s != map[] ==> exists k :: k in s;
  }

  lemma RenderHasEquals(keys: seq<string>, tags: Tags)
    requires keys != [] && forall k :: k in keys ==> k in tags
    ensures '=' in Render(keys, tags)
  {
    var k := keys[0];
    assert forall x :: x in keys[1..] ==> x in keys;
    assert Render(keys, tags)[|k|] == '=';
  }

  lemma StaysIn(c: char, front: string, s: string)
    requires c in s
    ensures c in front + s
  {
    var i :| 0 <= i < |s| && s[i] == c;
    assert (front + s)[|front| + i] == c;
  }

  lemma PairRest(k: string, v: string, more: string)
    ensures Pair(k, v) + "," + more == Pair(k, v + "," + more)
  {}

  /** The text after the first key: its value and all further pairs. */
  lemma RenderAsPair(keys: seq<string>, tags: Tags) returns (rest: string)
    requires keys != [] && forall k :: k in keys ==> k in tags
    ensures Render(keys, tags) == Pair(keys[0], rest)
    ensures |keys| == 1 ==> rest == tags[keys[0]]
    ensures |keys| > 1 ==> '=' in rest
  {
    var k := keys[0];
    assert forall x :: x in keys[1..] ==> x in keys;
    if |keys| == 1 {
      rest := tags[k];
    } else {
      var more := Render(keys[1..], tags);
      RenderHasEquals(keys[1..], tags);
      rest := tags[k] + "," + more;
      StaysIn('=', tags[k] + ",", more);
      PairRest(k, tags[k], more);
    }
  }

  /** A pair without further '=' splits in one way only. */
  lemma PairUnique(k: string, v: string, l: string, w: string)
    requires '=' !in k && '=' !in v && Pair(k, v) == Pair(l, w)
    ensures k == l && v == w
  {
    var r := Pair(k, v);
    assert forall j :: 0 <= j < |k| ==> r[j] == k[j];
    assert forall j :: |k| < j < |r| ==> r[j] == v[j - |k| - 1];
    assert Pair(l, w)[|l|] == '=';
    assert k == r[..|k|] && l == Pair(l, w)[..|l|];
    assert v == r[|k| + 1..] && w == Pair(l, w)[|l| + 1..];
  }

  lemma SingleTag(s: Tags, k: string)
    requires |s| == 1 && k in s
    ensures s == map[k := s[k]]
  {
    assert |s.Keys - {k}| == 0;
    assert forall x :: x in s ==> x in s.Keys - {k} || x == k;
  }

  /** A single tag free of '=' shares its key with no other map. */
  lemma PlainTagIdentified(k: string, v: string)
    requires '=' !in k && '=' !in v
    ensures Identified(map[k := v])
  {
    var s := map[k := v];
    SingleKey(s, k);
    forall key, t | Canonical(key, s) && Canonical(key, t) ensures t == s {
      CanonicalUnique(key, Pair(k, v), s);
      var ks :| Lists(ks, t) && key == Render(ks, t);
      assert ks != [];
      var rest := RenderAsPair(ks, t);
      PairUnique(k, v, ks[0], rest);
      assert ks == [k];
      assert forall x :: x in t <==> x in ks;
    }
  }

  lemma EmptyIdentified()
    ensures Identified(map[])
  {
    assert Lists([], map[]);
    forall key, t | Canonical(key, map[]) && Canonical(key, t) ensures t == map[] {
      CanonicalUnique(key, "", map[]);
      var ks :| Lists(ks, t) && key == Render(ks, t);
      if ks != [] {
        RenderHasEquals(ks, t);
      }
      assert ks == [] && forall x :: x in t <==> x in ks;
    }
  }

  lemma NotIdentified(s: Tags, key: string, t: Tags)
    requires Canonical(key, s) && Canonical(key, t) && t != s
    ensures !Identified(s)
  {
  }

  /** With two or more tags, one tag whose value is the rest of the text has the same key. */
  lemma SeveralTagsShared(s: Tags)
    requires |s| >= 2
    ensures !Identified(s)
  {
    var key, keys := HasKey(s);
    var rest := RenderAsPair(keys, s);
    var t := map[keys[0] := rest];
    SingleKey(t, keys[0]);
    NotIdentified(s, key, t);
  }

  /** An '=' in a single tag allows another split. */
  lemma EqualsShared(k: string, v: string)
    requires '=' in k || '=' in v
    ensures !Identified(map[k := v])
  {
    var s, t := map[k := v], map[];
    SingleKey(s, k);
    if '=' in k {
      var i :| 0 <= i < |k| && k[i] == '=';
      var l, w := k[..i], k[i + 1..] + "=" + v;
      assert Pair(l, w) == Pair(k, v) by { assert k == l + "=" + k[i + 1..]; }
      t := map[l := w];
      SingleKey(t, l);
      assert l !in s;
    } else {
      var i :| 0 <= i < |v| && v[i] == '=';
      var l, w := k + "=" + v[..i], v[i + 1..];
      assert Pair(l, w) == Pair(k, v) by { assert v == v[..i] + "=" + w; }
      t := map[l := w];
      SingleKey(t, l);
      assert l !in s;
    }
    NotIdentified(s, Pair(k, v), t);
  }

  /** A tag map is identified by its key if and only if it is empty, or its only tag has no '=' in key or value. */
  lemma IdentifiedIff(s: Tags)
    ensures Identified(s) <==> |s| == 0 || (|s| == 1 && forall k :: k in s ==> '=' !in k && '=' !in s[k])
  {
    if |s| == 0 {
      EmptyIdentified();
      assert s == map[];
    } else if |s| == 1 {
      var k :| k in s;
      SingleTag(s, k);
      if '=' in k || '=' in s[k] { EqualsShared(k, s[k]); } else { PlainTagIdentified(k, s[k]); }
    } else {
      SeveralTagsShared(s);
    }
  }
}
