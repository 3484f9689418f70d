/**
 * The ascending order of a prefix range over the store. The trailing key
 * component is stored as its raw UTF-8 bytes, and byte-wise order of UTF-8
 * encodings coincides with lexicographic order of code points, so a range
 * scan yields its entries in lexicographic `char` order of that component.
 */
module KeyOrder {

  /** Strict lexicographic order on strings; a proper prefix comes first. */
  predicate Below(a: string, b: string)
    decreases |a|
  {
    if |a| == 0 then |b| > 0
    else if |b| == 0 then false
    else if a[0] != b[0] then a[0] < b[0]
    else Below(a[1..], b[1..])
  }

  lemma {:induction false} BelowIrreflexive(a: string)
    ensures !Below(a, a)
    decreases |a|
  {
    if |a| > 0 {
      BelowIrreflexive(a[1..]);
    }
  }

  lemma {:induction false} BelowTransitive(a: string, b: string, c: string)
    requires Below(a, b) && Below(b, c)
    ensures Below(a, c)
    decreases |a|
  {
    if |a| > 0 && a[0] == b[0] && b[0] == c[0] {
      BelowTransitive(a[1..], b[1..], c[1..]);
    }
  }

  lemma {:induction false} BelowTotal(a: string, b: string)
    requires a != b
    ensures Below(a, b) || Below(b, a)
    decreases |a|
  {
    if |a| > 0 && |b| > 0 && a[0] == b[0] {
      assert a == [a[0]] + a[1..] && b == [b[0]] + b[1..];
      BelowTotal(a[1..], b[1..]);
    }
  }

  lemma BelowAsymmetric(a: string, b: string)
    requires Below(a, b)
    ensures !Below(b, a)
  {
  }

  /** Keys strictly ascending, hence pairwise distinct. */
  predicate Ascending<V>(r: seq<(string, V)>)
  {
    forall i, j :: 0 <= i < j < |r| ==> Below(r[i].0, r[j].0)
  }

  function KeysOf<V>(r: seq<(string, V)>): set<string>
  {
    set i | 0 <= i < |r| :: r[i].0
  }

  /** Every entry of `r` is the entry `m` holds at that key. */
  ghost predicate EntriesOf<V>(r: seq<(string, V)>, m: map<string, V>)
  {
    forall i :: 0 <= i < |r| ==> r[i].0 in m && r[i].1 == m[r[i].0]
  }

  lemma KeysOfCons<V>(e: (string, V), r: seq<(string, V)>)
    ensures KeysOf([e] + r) == {e.0} + KeysOf(r)
  {
    var r' := [e] + r;
    forall x | x in KeysOf(r') ensures x in {e.0} + KeysOf(r) {
      var i :| 0 <= i < |r'| && r'[i].0 == x;
      if i > 0 { assert r[i - 1].0 == x; }
    }
    forall x | x in KeysOf(r) ensures x in KeysOf(r') {
      var i :| 0 <= i < |r| && r[i].0 == x;
      assert r'[i + 1].0 == x;
    }
    assert r'[0].0 == e.0;
  }

  /** Inserts an entry with a new key at its place in an ascending listing. */
  function Insert<V>(r: seq<(string, V)>, k: string, v: V): (r': seq<(string, V)>)
    requires Ascending(r)
    requires k !in KeysOf(r)
    ensures Ascending(r')
    ensures KeysOf(r') == KeysOf(r) + {k}
    ensures forall i :: 0 <= i < |r'| ==> r'[i] == (k, v) || r'[i] in r
    decreases |r|
  {
    if |r| == 0 || Below(k, r[0].0) then
      assert forall j :: 0 <= j < |r| ==> Below(k, r[j].0) by {
        forall j | 0 < j < |r| {
          BelowTransitive(k, r[0].0, r[j].0);
        }
      }
      KeysOfCons((k, v), r);
      [(k, v)] + r
    else
      assert k != r[0].0 by { assert r[0].0 in KeysOf(r); }
      BelowTotal(k, r[0].0);
      KeysOfCons(r[0], r[1..]);
      assert r == [r[0]] + r[1..];
      var rest := Insert(r[1..], k, v);
      KeysOfCons(r[0], rest);
      [r[0]] + rest
  }

  /**
   * Lists a finite map in ascending key order, the way an ascending range
   * scan over a store prefix collects it.
   */
  method RangeAscending<V>(m: map<string, V>) returns (r: seq<(string, V)>)
    ensures Ascending(r)
    ensures KeysOf(r) == m.Keys
    ensures EntriesOf(r, m)
  {
    r := [];
    var rest := m.Keys;
    while rest != {}
      invariant rest <= m.Keys
      invariant Ascending(r)
      invariant KeysOf(r) == m.Keys - rest
      invariant EntriesOf(r, m)
      decreases rest
    {
      var k :| k in rest;
      r := Insert(r, k, m[k]);
      rest := rest - {k};
    }
  }

  /**
   * An ascending listing of a map's entries is unique: whatever order the
   * keys were visited in, the listing is the same.
   */
  lemma {:induction false} AscendingListingUnique<V>(a: seq<(string, V)>, b: seq<(string, V)>, m: map<string, V>)
    requires Ascending(a) && Ascending(b)
    requires KeysOf(a) == KeysOf(b)
    requires EntriesOf(a, m) && EntriesOf(b, m)
    ensures a == b
    decreases |a|
  {
    if |a| == 0 {
      if |b| > 0 {
        FirstKeyListed(b);
        assert false;
      }
    } else {
      assert a[0].0 in KeysOf(b);
      assert b[0].0 in KeysOf(b);
      var i :| 0 <= i < |a| && a[i].0 == b[0].0;
      var j :| 0 <= j < |b| && b[j].0 == a[0].0;
      if i > 0 && j > 0 {
        BelowAsymmetric(a[0].0, a[i].0);
        assert false;
      } else if i > 0 {
        BelowIrreflexive(b[0].0);
        assert false;
      } else if j > 0 {
        BelowIrreflexive(a[0].0);
        assert false;
      }
      assert a[0] == b[0];
      TailKeys(a);
      TailKeys(b);
      AscendingListingUnique(a[1..], b[1..], m);
      assert a == [a[0]] + a[1..] && b == [b[0]] + b[1..];
    }
  }

  lemma FirstKeyListed<V>(r: seq<(string, V)>)
    requires |r| > 0
    ensures r[0].0 in KeysOf(r)
  {
  }

  lemma TailKeys<V>(r: seq<(string, V)>)
    requires Ascending(r) && |r| > 0
    ensures KeysOf(r[1..]) == KeysOf(r) - {r[0].0}
  {
    var tail := r[1..];
    forall x | x in KeysOf(r) - {r[0].0} ensures x in KeysOf(tail) {
      var i :| 0 <= i < |r| && r[i].0 == x;
      assert tail[i - 1].0 == x;
    }
    forall x | x in KeysOf(tail) ensures x in KeysOf(r) - {r[0].0} {
      var i :| 0 <= i < |tail| && tail[i].0 == x;
      assert r[i + 1].0 == x;
      BelowIrreflexive(x);
    }
  }
}
