/** Ordered key/value records, as PHP associative arrays hold them before the
    generator hands them to its JavaScript serialiser.

    A record is a sequence of entries; assigning to a key that is already
    present replaces its value in place, assigning to a new key appends it.
    An array literal is the sequence of assignments of its pairs, so a key
    written twice in a literal keeps its first position and its last value. */
module Records {

  datatype Option<+T> = None | Some(value: T)

  /** A value inside a generated record. `Js` is the serialiser object the
      generator builds around some content (its `getJSObject`), with the
      multi-line and raw flags it passes. */
  datatype Value =
    | Str(s: string)
    | Bool(b: bool)
    | Dict(entries: seq<Entry>)
    | List(items: seq<Value>)
    | Js(content: Value, multiline: bool, raw: bool)

  /** One key of a record; a `None` value is PHP `null`. */
  datatype Entry = Entry(key: string, value: Option<Value>)

  ghost predicate DistinctKeys(d: seq<Entry>) {
    forall i, j :: 0 <= i < j < |d| ==> d[i].key != d[j].key
  }

  predicate HasKey(d: seq<Entry>, k: string) {
    exists i :: 0 <= i < |d| && d[i].key == k
  }

  /** Position of the first entry with key `k`. */
  function IndexOf(d: seq<Entry>, k: string): (i: nat)
    requires HasKey(d, k)
    ensures i < |d| && d[i].key == k
    ensures forall j :: 0 <= j < i ==> d[j].key != k
  {
    if d[0].key == k then 0
    else
      assert HasKey(d[1..], k) by {
        var i :| 0 <= i < |d| && d[i].key == k;
        assert d[1..][i - 1].key == k;
      }
      1 + IndexOf(d[1..], k)
  }

  /** The value stored under `k`: PHP `$d[$k]` for a key that is set. */
  function At(d: seq<Entry>, k: string): Option<Value>
    requires HasKey(d, k)
  {
    d[IndexOf(d, k)].value
  }

  /** Two records whose keys agree position by position find a key at the same place. */
  lemma IndexOfSameKeys(d: seq<Entry>, r: seq<Entry>, k: string)
    requires HasKey(d, k) && |d| <= |r|
    requires forall i :: 0 <= i < |d| ==> r[i].key == d[i].key
    ensures HasKey(r, k) && IndexOf(r, k) == IndexOf(d, k)
  {
    var id := IndexOf(d, k);
    assert r[id].key == k;
  }

  /** PHP `$d[$k] = $v`: the first entry with key `k` takes the new value in
      place; without one, the pair goes at the end. */
  function Put(d: seq<Entry>, k: string, v: Option<Value>): seq<Entry>
    decreases |d|
  {
    if d == [] then [Entry(k, v)]
    else if d[0].key == k then [Entry(k, v)] + d[1..]
    else [d[0]] + Put(d[1..], k, v)
  }

  /** An assignment replaces the entry of a present key and appends a new one. */
  lemma {:induction false} PutShape(d: seq<Entry>, k: string, v: Option<Value>)
    ensures HasKey(d, k) ==> Put(d, k, v) == d[IndexOf(d, k) := Entry(k, v)]
    ensures !HasKey(d, k) ==> Put(d, k, v) == d + [Entry(k, v)]
    decreases |d|
  {
    if d != [] && d[0].key != k {
      PutShape(d[1..], k, v);
      if HasKey(d, k) {
        var i :| 0 <= i < |d| && d[i].key == k;
        assert d[1..][i - 1].key == k;
        assert IndexOf(d, k) == 1 + IndexOf(d[1..], k);
        assert [d[0]] + d[1..][IndexOf(d[1..], k) := Entry(k, v)] == d[IndexOf(d, k) := Entry(k, v)];
      } else {
        assert !HasKey(d[1..], k);
        assert [d[0]] + (d[1..] + [Entry(k, v)]) == d + [Entry(k, v)];
      }
    } else if d != [] {
      assert IndexOf(d, k) == 0;
      assert [Entry(k, v)] + d[1..] == d[0 := Entry(k, v)];
    }
  }

  /** What an assignment does to the keys and values of a record. */
  lemma PutFacts(d: seq<Entry>, k: string, v: Option<Value>)
    ensures var r := Put(d, k, v);
      && HasKey(r, k) && At(r, k) == v
      && (forall k' :: HasKey(r, k') <==> HasKey(d, k') || k' == k)
      && (forall k' :: k' != k && HasKey(d, k') ==> At(r, k') == At(d, k'))
      && |r| == (if HasKey(d, k) then |d| else |d| + 1)
      && (forall i :: 0 <= i < |d| ==> r[i].key == d[i].key)
      && (DistinctKeys(d) ==> DistinctKeys(r))
  {
    PutShape(d, k, v);
    AssignFacts(d, Put(d, k, v), k, v);
  }

  lemma AssignFacts(d: seq<Entry>, r: seq<Entry>, k: string, v: Option<Value>)
    requires r == if HasKey(d, k) then d[IndexOf(d, k) := Entry(k, v)] else d + [Entry(k, v)]
    ensures HasKey(r, k) && At(r, k) == v
    ensures forall k' :: HasKey(r, k') <==> HasKey(d, k') || k' == k
    ensures forall k' :: k' != k && HasKey(d, k') ==> At(r, k') == At(d, k')
    ensures |r| == (if HasKey(d, k) then |d| else |d| + 1)
    ensures forall i :: 0 <= i < |d| ==> r[i].key == d[i].key
    ensures DistinctKeys(d) ==> DistinctKeys(r)
  {
    if HasKey(d, k) {
      ReplaceFacts(d, r, k, v);
    } else {
      AppendFacts(d, r, k, v);
    }
  }

  lemma ReplaceFacts(d: seq<Entry>, r: seq<Entry>, k: string, v: Option<Value>)
    requires HasKey(d, k) && r == d[IndexOf(d, k) := Entry(k, v)]
    ensures HasKey(r, k) && At(r, k) == v
    ensures forall k' :: HasKey(r, k') <==> HasKey(d, k') || k' == k
    ensures forall k' :: k' != k && HasKey(d, k') ==> At(r, k') == At(d, k')
    ensures |r| == |d|
    ensures forall i :: 0 <= i < |d| ==> r[i].key == d[i].key
    ensures DistinctKeys(d) ==> DistinctKeys(r)
  {
    var p := IndexOf(d, k);
    assert forall i :: 0 <= i < |d| ==> r[i].key == d[i].key by {
      forall i | 0 <= i < |d| ensures r[i].key == d[i].key {
        if i == p { assert r[i].key == k; }
      }
    }
    IndexOfSameKeys(d, r, k);
    assert At(r, k) == r[p].value;
    forall k' ensures HasKey(r, k') <==> HasKey(d, k') || k' == k {
      if HasKey(r, k') {
        var i :| 0 <= i < |r| && r[i].key == k';
        assert d[i].key == k';
      }
      if HasKey(d, k') { IndexOfSameKeys(d, r, k'); }
    }
    forall k' | k' != k && HasKey(d, k') ensures At(r, k') == At(d, k') {
      IndexOfSameKeys(d, r, k');
      assert IndexOf(d, k') != p;
    }
  }

  lemma AppendFacts(d: seq<Entry>, r: seq<Entry>, k: string, v: Option<Value>)
    requires !HasKey(d, k) && r == d + [Entry(k, v)]
    ensures HasKey(r, k) && At(r, k) == v
    ensures forall k' :: HasKey(r, k') <==> HasKey(d, k') || k' == k
    ensures forall k' :: k' != k && HasKey(d, k') ==> At(r, k') == At(d, k')
    ensures |r| == |d| + 1
    ensures forall i :: 0 <= i < |d| ==> r[i].key == d[i].key
    ensures DistinctKeys(d) ==> DistinctKeys(r)
  {
    assert r[|d|].key == k;
    assert IndexOf(r, k) == |d|;
    assert forall k' :: HasKey(r, k') ==> HasKey(d, k') || k' == k by {
      forall k' | HasKey(r, k') ensures HasKey(d, k') || k' == k {
        var i :| 0 <= i < |r| && r[i].key == k';
        if i < |d| { assert d[i].key == k'; }
      }
    }
    assert forall k' :: HasKey(d, k') ==> HasKey(r, k') by {
      forall k' | HasKey(d, k') ensures HasKey(r, k') {
        var i :| 0 <= i < |d| && d[i].key == k';
        assert r[i].key == k';
      }
    }
    assert forall k' :: k' != k && HasKey(d, k') ==> At(r, k') == At(d, k') by {
      forall k' | k' != k && HasKey(d, k') ensures At(r, k') == At(d, k') {
        IndexOfSameKeys(d, r, k');
      }
    }
    if DistinctKeys(d) {
      forall i, j | 0 <= i < j < |r| ensures r[i].key != r[j].key {
        if j == |d| {
          assert d[i].key != k;
        }
      }
    }
  }

  /** What an assignment does to the key set of a record. */
  lemma PutKeys(d: seq<Entry>, k: string, v: Option<Value>)
    ensures forall k' :: HasKey(Put(d, k, v), k') <==> HasKey(d, k') || k' == k
    ensures |Put(d, k, v)| <= |d| + 1
    ensures DistinctKeys(d) ==> DistinctKeys(Put(d, k, v))
  {
    PutFacts(d, k, v);
  }

  /** The keys of a record with one more entry. */
  lemma HasKeySnoc(d: seq<Entry>, e: Entry)
    ensures forall k :: HasKey(d + [e], k) <==> HasKey(d, k) || k == e.key
  {
    forall k ensures HasKey(d + [e], k) <==> HasKey(d, k) || k == e.key {
      if HasKey(d + [e], k) {
        var i :| 0 <= i < |d + [e]| && (d + [e])[i].key == k;
        if i < |d| { assert d[i].key == k; }
      }
      if HasKey(d, k) {
        var i :| 0 <= i < |d| && d[i].key == k;
        assert (d + [e])[i].key == k;
      }
      if k == e.key {
        assert (d + [e])[|d|].key == k;
      }
    }
  }

  /** PHP `array_merge($d, $more)` for string keys: every entry of `more`, in
      order, is assigned into `d`. */
  function Merge(d: seq<Entry>, more: seq<Entry>): (r: seq<Entry>)
    ensures DistinctKeys(d) ==> DistinctKeys(r)
    ensures |r| <= |d| + |more|
    ensures forall k :: HasKey(r, k) <==> HasKey(d, k) || HasKey(more, k)
    decreases |more|
  {
    if more == [] then d
    else
      var init := more[..|more| - 1];
      var last := more[|more| - 1];
      var r := Put(Merge(d, init), last.key, last.value);
      PutKeys(Merge(d, init), last.key, last.value);
      HasKeySnoc(init, last);
      assert more == init + [last];
      r
  }

  /** The record a PHP array literal with these pairs builds. */
  function Literal(pairs: seq<Entry>): (r: seq<Entry>)
    ensures DistinctKeys(r)
    ensures |r| <= |pairs|
    ensures forall k :: HasKey(r, k) <==> HasKey(pairs, k)
  {
    Merge([], pairs)
  }

  /** The value of the last pair with key `k`: the one a literal keeps. */
  function LastValue(pairs: seq<Entry>, k: string): Option<Value>
    requires HasKey(pairs, k)
    decreases |pairs|
  {
    var last := pairs[|pairs| - 1];
    if last.key == k then last.value
    else
      assert HasKey(pairs[..|pairs| - 1], k) by {
        var i :| 0 <= i < |pairs| && pairs[i].key == k;
        assert pairs[..|pairs| - 1][i].key == k;
      }
      LastValue(pairs[..|pairs| - 1], k)
  }

  /** A key written several times keeps the value written last. */
  lemma {:induction false} MergeLastWins(d: seq<Entry>, more: seq<Entry>, k: string)
    requires HasKey(more, k)
    ensures HasKey(Merge(d, more), k) && At(Merge(d, more), k) == LastValue(more, k)
    decreases |more|
  {
    var init := more[..|more| - 1];
    var last := more[|more| - 1];
    assert Merge(d, more) == Put(Merge(d, init), last.key, last.value);
    if last.key == k {
      PutAt(Merge(d, init), k, last.value);
    } else {
      assert HasKey(init, k) by {
        var i :| 0 <= i < |more| && more[i].key == k;
        assert init[i].key == k;
      }
      MergeLastWins(d, init, k);
      PutOther(Merge(d, init), last.key, last.value, k);
    }
  }

  /** The assigned key holds the assigned value. */
  lemma PutAt(d: seq<Entry>, k: string, v: Option<Value>)
    ensures HasKey(Put(d, k, v), k) && At(Put(d, k, v), k) == v
  {
    PutFacts(d, k, v);
  }

  /** Any other key keeps its value. */
  lemma PutOther(d: seq<Entry>, k: string, v: Option<Value>, k': string)
    requires k' != k && HasKey(d, k')
    ensures HasKey(Put(d, k, v), k') && At(Put(d, k, v), k') == At(d, k')
  {
    PutFacts(d, k, v);
  }

  /** A key the merged entries do not mention keeps its value. */
  lemma {:induction false} MergeKeeps(d: seq<Entry>, more: seq<Entry>, k: string)
    requires HasKey(d, k) && !HasKey(more, k)
    ensures HasKey(Merge(d, more), k) && At(Merge(d, more), k) == At(d, k)
    decreases |more|
  {
    if more != [] {
      var init := more[..|more| - 1];
      var last := more[|more| - 1];
      HasKeySnoc(init, last);
      assert more == init + [last];
      MergeKeeps(d, init, k);
      PutFacts(Merge(d, init), last.key, last.value);
    }
  }

  /** Merging never moves an entry: the first entries keep their keys. */
  lemma {:induction false} MergeKeepsPositions(d: seq<Entry>, more: seq<Entry>)
    ensures |Merge(d, more)| >= |d|
    ensures forall i :: 0 <= i < |d| ==> Merge(d, more)[i].key == d[i].key
    decreases |more|
  {
    if more != [] {
      var init := more[..|more| - 1];
      var last := more[|more| - 1];
      MergeKeepsPositions(d, init);
      PutFacts(Merge(d, init), last.key, last.value);
    }
  }

  /** Merging entries with new, distinct keys appends them. */
  lemma {:induction false} MergeOfDistinct(d: seq<Entry>, more: seq<Entry>)
    requires DistinctKeys(d + more)
    ensures Merge(d, more) == d + more
    decreases |more|
  {
    if more != [] {
      var init := more[..|more| - 1];
      var last := more[|more| - 1];
      var all := d + more;
      assert all == (d + init) + [last];
      assert DistinctKeys(d + init) by {
        forall i, j | 0 <= i < j < |d + init| ensures (d + init)[i].key != (d + init)[j].key {
          assert (d + init)[i] == all[i] && (d + init)[j] == all[j];
        }
      }
      MergeOfDistinct(d, init);
      assert !HasKey(d + init, last.key) by {
        forall i | 0 <= i < |d + init| ensures (d + init)[i].key != last.key {
          assert (d + init)[i] == all[i] && last == all[|all| - 1];
        }
      }
      PutShape(d + init, last.key, last.value);
    }
  }

  /** With no key written twice, a literal is the list of its pairs. */
  lemma {:induction false} LiteralOfDistinct(pairs: seq<Entry>)
    requires DistinctKeys(pairs)
    ensures Literal(pairs) == pairs
    decreases |pairs|
  {
    if pairs != [] {
      var init := pairs[..|pairs| - 1];
      var last := pairs[|pairs| - 1];
      assert DistinctKeys(init) by {
        forall i, j | 0 <= i < j < |init| ensures init[i].key != init[j].key {
          assert init[i] == pairs[i] && init[j] == pairs[j];
        }
      }
      LiteralOfDistinct(init);
      assert !HasKey(init, last.key) by {
        forall i | 0 <= i < |init| ensures init[i].key != last.key {
          assert init[i] == pairs[i];
        }
      }
      PutShape(init, last.key, last.value);
      calc {
        Literal(pairs);
        Merge([], pairs);
        Put(Merge([], init), last.key, last.value);
        Put(init, last.key, last.value);
        init + [Entry(last.key, last.value)];
        pairs;
      }
    }
  }

  function Keys(d: seq<Entry>): (r: seq<string>)
    ensures |r| == |d| && forall i :: 0 <= i < |d| ==> r[i] == d[i].key
  {
    seq(|d|, i requires 0 <= i < |d| => d[i].key)
  }

  /** PHP `if ($cond) $d[$k] = $v;`. */
  function PutIf(d: seq<Entry>, cond: bool, k: string, v: Option<Value>): seq<Entry> {
    if cond then Put(d, k, v) else d
  }

  /** The pair a conditional assignment of a new key appends. */
  function Piece(cond: bool, k: string, v: Option<Value>): seq<Entry> {
    if cond then [Entry(k, v)] else []
  }

  /** Every key of `d` is one of `s`. */
  predicate KeysIn(d: seq<Entry>, s: set<string>) {
    forall i :: 0 <= i < |d| ==> d[i].key in s
  }

  /** A conditional assignment of a key outside the record's keys appends it. */
  lemma PutIfAppends(d: seq<Entry>, cond: bool, k: string, v: Option<Value>, s: set<string>)
    requires KeysIn(d, s) && k !in s
    ensures PutIf(d, cond, k, v) == d + Piece(cond, k, v)
    ensures KeysIn(PutIf(d, cond, k, v), s + {k})
  {
    if cond {
      PutShape(d, k, v);
    }
  }

  /** Appending one pair to a literal is one more assignment. */
  lemma LiteralSnoc(pairs: seq<Entry>, e: Entry)
    ensures Literal(pairs + [e]) == Put(Literal(pairs), e.key, e.value)
  {
    assert (pairs + [e])[..|pairs|] == pairs;
  }

  /** A literal whose second key is written again at once keeps that key in
      the second position with the later value. */
  lemma {:induction false} LiteralRepeatedSecond(e0: Entry, e1: Entry, e2: Entry, rest: seq<Entry>)
    requires e1.key == e2.key && DistinctKeys([e0, e2] + rest)
    ensures Literal([e0, e1, e2] + rest) == [e0, e2] + rest
    decreases |rest|
  {
    if rest == [] {
      assert ([e0, e2] + rest)[0].key != ([e0, e2] + rest)[1].key;
      LiteralOfDistinct([e0, e1]);
      assert [e0, e1, e2] + rest == [e0, e1] + [e2];
      LiteralSnoc([e0, e1], e2);
      PutShape([e0, e1], e2.key, e2.value);
      assert IndexOf([e0, e1], e2.key) == 1;
    } else {
      var init := rest[..|rest| - 1];
      var last := rest[|rest| - 1];
      var d := [e0, e2] + rest;
      assert DistinctKeys([e0, e2] + init) by {
        forall i, j | 0 <= i < j < |init| + 2 ensures ([e0, e2] + init)[i].key != ([e0, e2] + init)[j].key {
          assert ([e0, e2] + init)[i] == d[i] && ([e0, e2] + init)[j] == d[j];
        }
      }
      LiteralRepeatedSecond(e0, e1, e2, init);
      assert [e0, e1, e2] + rest == ([e0, e1, e2] + init) + [last];
      LiteralSnoc([e0, e1, e2] + init, last);
      assert !HasKey([e0, e2] + init, last.key) by {
        forall i | 0 <= i < |init| + 2 ensures ([e0, e2] + init)[i].key != last.key {
          assert ([e0, e2] + init)[i] == d[i] && last == d[|d| - 1];
        }
      }
      PutShape([e0, e2] + init, last.key, last.value);
      assert [e0, e2] + init + [last] == d;
    }
  }

  /** In a literal without repeated keys, a key holds the value written with it. */
  lemma AtDistinctLiteral(pairs: seq<Entry>, i: nat)
    requires DistinctKeys(pairs) && i < |pairs|
    ensures HasKey(Literal(pairs), pairs[i].key) && At(Literal(pairs), pairs[i].key) == pairs[i].value
  {
    LiteralOfDistinct(pairs);
    assert IndexOf(pairs, pairs[i].key) == i;
  }
}
