/** What the model needs of a `BTreeMap<String, V>`: its bindings in key order. */
module OrderedMap {
  import opened Basics

  datatype Binding<V> = Binding(key: string, value: V)

  /** Strings are ordered by their code points, as their UTF-8 octets are. */
  predicate Less(a: string, b: string)
    decreases |b|
  {
    b != [] && (a == [] || a[0] < b[0] || (a[0] == b[0] && Less(a[1..], b[1..])))
  }

  lemma {:induction false} LessTransitive(a: string, b: string, c: string)
    requires Less(a, b) && Less(b, c)
    ensures Less(a, c)
    decreases |c|
  {
    if a != [] && a[0] == b[0] && b[0] == c[0] {
      LessTransitive(a[1..], b[1..], c[1..]);
    }
  }

  lemma {:induction false} LessTotal(a: string, b: string)
    ensures Less(a, b) || Less(b, a) || a == b
    ensures !Less(a, a) && !(Less(a, b) && Less(b, a))
    decreases |a|, |b|
  {
    if a != [] {
      LessTotal(a[1..], a[1..]);
      if b != [] && a[0] == b[0] {
        LessTotal(a[1..], b[1..]);
        assert a == [a[0]] + a[1..] && b == [b[0]] + b[1..];
      }
    }
  }

  ghost predicate Sorted<V>(m: seq<Binding<V>>) {
    forall i, j :: 0 <= i < j < |m| ==> Less(m[i].key, m[j].key)
  }

  ghost function ToMap<V>(m: seq<Binding<V>>): map<string, V> {
    if m == [] then map[] else ToMap(m[1..])[m[0].key := m[0].value]
  }

  function Insert<V>(m: seq<Binding<V>>, key: string, value: V): seq<Binding<V>> {
    if m == [] || Less(key, m[0].key) then [Binding(key, value)] + m
    else if key == m[0].key then [Binding(key, value)] + m[1..]
    else [m[0]] + Insert(m[1..], key, value)
  }

  predicate Has<V>(m: seq<Binding<V>>, key: string) {
    exists i :: 0 <= i < |m| && m[i].key == key
  }

  function Remove<V>(m: seq<Binding<V>>, key: string): seq<Binding<V>> {
    if m == [] then [] else if m[0].key == key then m[1..] else [m[0]] + Remove(m[1..], key)
  }

  lemma {:induction false} ToMapKeys<V>(m: seq<Binding<V>>, key: string)
    ensures key in ToMap(m) <==> Has(m, key)
    decreases |m|
  {
    if m != [] {
      ToMapKeys(m[1..], key);
      if Has(m[1..], key) {
        var i :| 0 <= i < |m[1..]| && m[1..][i].key == key;
        assert m[i + 1].key == key;
      }
      if Has(m, key) && m[0].key != key {
        var i :| 0 <= i < |m| && m[i].key == key;
        assert m[1..][i - 1].key == key;
      }
    }
  }

  lemma SortedHead<V>(m: seq<Binding<V>>, key: string)
    requires Sorted(m) && m != [] && (key == m[0].key || Less(key, m[0].key))
    ensures !Has(m[1..], key)
  {
    forall i | 0 <= i < |m[1..]| ensures m[1..][i].key != key {
      assert Less(m[0].key, m[i + 1].key);
      if Less(key, m[0].key) {
        LessTransitive(key, m[0].key, m[i + 1].key);
      }
      LessTotal(key, m[i + 1].key);
    }
  }

  lemma SortedCons<V>(b: Binding<V>, m: seq<Binding<V>>)
    requires Sorted(m) && (m != [] ==> Less(b.key, m[0].key))
    ensures Sorted([b] + m)
  {
    forall j | 0 <= j < |m| ensures Less(b.key, m[j].key) {
      if j > 0 {
        LessTransitive(b.key, m[0].key, m[j].key);
      }
    }
  }

  /** `insert` keeps the order and is an update of the map. */
  lemma {:induction false} InsertUpdates<V>(m: seq<Binding<V>>, key: string, value: V)
    requires Sorted(m)
    ensures Sorted(Insert(m, key, value)) && ToMap(Insert(m, key, value)) == ToMap(m)[key := value]
    ensures Insert(m, key, value)[0].key == (if m == [] || Less(key, m[0].key) then key else m[0].key)
    decreases |m|
  {
    var b := Binding(key, value);
    if m == [] || Less(key, m[0].key) {
      SortedCons(b, m);
      assert ([b] + m)[1..] == m;
    } else if key == m[0].key {
      assert Sorted(m[1..]);
      if m[1..] != [] {
        assert Less(m[0].key, m[1].key);
      }
      SortedCons(b, m[1..]);
      assert ([b] + m[1..])[1..] == m[1..];
    } else {
      LessTotal(key, m[0].key);
      var rest := Insert(m[1..], key, value);
      InsertUpdates(m[1..], key, value);
      SortedCons(m[0], rest);
      assert ([m[0]] + rest)[1..] == rest;
    }
  }

  /** `remove` keeps the order and takes one key out of the map. */
  lemma {:induction false} RemoveUpdates<V>(m: seq<Binding<V>>, key: string)
    requires Sorted(m)
    ensures Sorted(Remove(m, key)) && ToMap(Remove(m, key)) == ToMap(m) - {key}
    ensures Remove(m, key) != [] && m[0].key != key ==> Remove(m, key)[0].key == m[0].key
    decreases |m|
  {
    if m != [] {
      if m[0].key == key {
        SortedHead(m, key);
        ToMapKeys(m[1..], key);
        assert ToMap(m) - {key} == ToMap(m[1..]);
      } else {
        var rest := Remove(m[1..], key);
        RemoveUpdates(m[1..], key);
        if rest != [] {
          RemoveKeepsFirst(m, key);
        }
        SortedCons(m[0], rest);
        assert ([m[0]] + rest)[1..] == rest;
      }
    }
  }

  lemma RemoveKeepsFirst<V>(m: seq<Binding<V>>, key: string)
    requires Sorted(m) && m != [] && Remove(m[1..], key) != []
    ensures Less(m[0].key, Remove(m[1..], key)[0].key)
  {
    var first := Remove(m[1..], key)[0];
    RemoveKeepsMembers(m[1..], key);
    assert first in m[1..];
    var i :| 0 <= i < |m[1..]| && m[1..][i] == first;
    assert Less(m[0].key, m[i + 1].key);
  }

  lemma {:induction false} RemoveKeepsMembers<V>(m: seq<Binding<V>>, key: string)
    ensures forall j :: 0 <= j < |Remove(m, key)| ==> Remove(m, key)[j] in m
    decreases |m|
  {
    if m != [] && m[0].key != key {
      RemoveKeepsMembers(m[1..], key);
    }
  }
}
