/** The agent database's key-value store: the table with its prefix scan as a key range
    (metaharness/agentdb/turso/kv.go), and the in-memory reference it must agree with
    (metaharness/testutils/kv.go). */
module KvStore {
  import opened Wrappers
  import opened Utf8

  type Key = seq<Byte>
  type Value = seq<Byte>

  // ---------------------------------------------------------------- the end of a prefix's range

  function NextRune(r: Rune): Option<Rune> {
    if r == 0xd7ff then Some(0xe000) else if r == MAX_RUNE then None else Some(r + 1)
  }

  /** The next rune is the smallest above r, and only the highest has none. */
  lemma NextRuneLeast(r: Rune, q: Rune)
    ensures q > r <==> NextRune(r).Some? && q >= NextRune(r).value
  {
  }

  /** What the loop of successor computes, on runes. */
  function Bound(p: seq<Rune>): Option<seq<Rune>> {
    if p == [] then None
    else match NextRune(p[|p| - 1])
         case Some(n) => Some(p[..|p| - 1] + [n])
         case None => Bound(p[..|p| - 1])
  }

  lemma {:induction false} BoundFront(c: Rune, p: seq<Rune>)
    ensures Bound([c] + p) == if Bound(p).Some? then Some([c] + Bound(p).value)
                              else match NextRune(c) case Some(n) => Some([n]) case None => None
  {
    var q := [c] + p;
    if p == [] {
      assert q[..|q| - 1] == [];
      assert forall n: Rune :: q[..|q| - 1] + [n] == [n];
    } else {
      assert q[|q| - 1] == p[|p| - 1] && q[..|q| - 1] == [c] + p[..|p| - 1];
      BoundFront(c, p[..|p| - 1]);
      if NextRune(p[|p| - 1]).Some? {
        var n := NextRune(p[|p| - 1]).value;
        assert q[..|q| - 1] + [n] == [c] + (p[..|p| - 1] + [n]);
      }
    }
  }

  lemma PrefixSplits(p: seq<int>, k: seq<int>)
    requires p != [] && k != []
    ensures p <= k <==> p[0] == k[0] && p[1..] <= k[1..]
  {
    assert p == [p[0]] + p[1..] && k == [k[0]] + k[1..];
  }

  /** A string starts with p exactly when it is at least p and below the bound. */
  lemma {:induction false} BoundSplits(p: seq<Rune>, k: seq<Rune>)
    ensures p <= k <==> !Less(k, p) && (Bound(p).Some? ==> Less(k, Bound(p).value))
  {
    if p != [] && k != [] {
      PrefixSplits(p, k);
      assert p == [p[0]] + p[1..];
      BoundFront(p[0], p[1..]);
      NextRuneLeast(p[0], k[0]);
      if k[0] == p[0] {
        BoundSplits(p[1..], k[1..]);
        if Bound(p[1..]).Some? {
          assert ([p[0]] + Bound(p[1..]).value)[1..] == Bound(p[1..]).value;
        }
      }
    }
  }

  /** The first string that no longer starts with prefix, if there is one: by runes, because the
      driver takes only valid UTF-8. */
  method Successor(prefix: Key) returns (next: Option<Key>)
    ensures ValidUtf8(prefix) && next.Some? ==> ValidUtf8(next.value)
    ensures ValidUtf8(prefix) ==>
              forall k: Key | ValidUtf8(k) :: prefix <= k <==> !Less(k, prefix) && (next.Some? ==> Less(k, next.value))
  {
    var rest := prefix;
    ghost var valid := ValidUtf8(prefix);
    ghost var whole: Text := if valid then DecodeAll(prefix).value else [];
    ghost var t := whole;
    if valid {
      EncodeDecodeAll(prefix);
    }
    while rest != []
      invariant valid ==> rest == EncodeAll(t) && Bound(whole) == Bound(t)
      decreases |rest|
    {
      var (r, size) := DecodeLast(rest);
      if valid {
        LastRune(t);
      }
      rest := rest[..|rest| - size];
      var above := NextRune(r);
      if above.Some? {
        if valid {
          AppendRune(t[..|t| - 1], above.value);
          RangeIsPrefix(prefix, whole, Some(rest + Encode(above.value)));
        }
        return Some(rest + Encode(above.value));
      }
      t := if valid then t[..|t| - 1] else t;
    }
    if valid {
      assert Bound(t).None?;
      RangeIsPrefix(prefix, whole, None);
    }
    return None;
  }

  lemma AppendRune(t: Text, r: Rune)
    ensures EncodeAll(t + [r]) == EncodeAll(t) + Encode(r)
  {
    EncodeAllAppend(t, [r]);
    assert EncodeAll([r]) == Encode(r) + [];
  }

  lemma LastRune(t: Text)
    requires t != []
    ensures DecodeLast(EncodeAll(t)) == (t[|t| - 1], |Encode(t[|t| - 1])|)
    ensures EncodeAll(t)[..|EncodeAll(t)| - |Encode(t[|t| - 1])|] == EncodeAll(t[..|t| - 1])
  {
    var init, last := t[..|t| - 1], t[|t| - 1];
    assert t == init + [last];
    AppendRune(init, last);
    DecodeLastEncode(EncodeAll(init), last);
  }

  /** The range of strings is the same read as bytes. */
  lemma RangeIsPrefix(prefix: Key, p: Text, next: Option<Key>)
    requires prefix == EncodeAll(p) && Bound(p).Some? == next.Some?
    requires next.Some? ==> next.value == EncodeAll(Bound(p).value)
    ensures next.Some? ==> ValidUtf8(next.value)
    ensures forall k: Key | ValidUtf8(k) :: prefix <= k <==> !Less(k, prefix) && (next.Some? ==> Less(k, next.value))
  {
    if next.Some? {
      DecodeAllEncode(Bound(p).value);
    }
    forall k: Key | ValidUtf8(k)
      ensures prefix <= k <==> !Less(k, prefix) && (next.Some? ==> Less(k, next.value))
    {
      EncodeDecodeAll(k);
      var t := DecodeAll(k).value;
      PrefixAgrees(p, t);
      OrderAgrees(t, p);
      BoundSplits(p, t);
      if next.Some? {
        OrderAgrees(t, Bound(p).value);
      }
    }
  }

  // ---------------------------------------------------------------- sorted listings

  datatype Entry = Entry(key: Key, value: Value, updated: int)

  ghost predicate Sorted(es: seq<Entry>) {
    forall i, j :: 0 <= i < j < |es| ==> Less(es[i].key, es[j].key)
  }

  /** es is what is stored under the keys that start with prefix, in key order. */
  ghost predicate IsListing(es: seq<Entry>, contents: map<Key, Value>, prefix: Key) {
    && Sorted(es)
    && (forall i :: 0 <= i < |es| ==>
          prefix <= es[i].key && es[i].key in contents && contents[es[i].key] == es[i].value)
    && (forall k :: Wanted(contents, prefix, k) ==> exists i :: 0 <= i < |es| && es[i].key == k)
  }

  predicate Wanted(contents: map<Key, Value>, prefix: Key, k: Key) {
    k in contents && prefix <= k
  }

  lemma {:induction false} LessTransitive(a: seq<int>, b: seq<int>, c: seq<int>)
    requires Less(a, b) && Less(b, c)
    ensures Less(a, c)
  {
    if a != [] && a[0] == b[0] && b[0] == c[0] {
      LessTransitive(a[1..], b[1..], c[1..]);
    }
  }

  lemma {:induction false} LessTotal(a: seq<int>, b: seq<int>)
    requires a != b
    ensures Less(a, b) || Less(b, a)
  {
    if a != [] && b != [] && a[0] == b[0] {
      assert a == [a[0]] + a[1..] && b == [b[0]] + b[1..];
      LessTotal(a[1..], b[1..]);
    }
  }

  /** A listing is determined by what is stored: no order or duplicate is left to choose. */
  lemma {:induction false} ListingUnique(a: seq<Entry>, b: seq<Entry>, contents: map<Key, Value>, prefix: Key)
    requires IsListing(a, contents, prefix) && IsListing(b, contents, prefix)
    ensures |a| == |b| && forall i :: 0 <= i < |a| ==> a[i].key == b[i].key && a[i].value == b[i].value
  {
    ListingPrefix(a, b, contents, prefix, if |a| <= |b| then |a| else |b|);
    NotLonger(a, b, contents, prefix);
    NotLonger(b, a, contents, prefix);
  }

  lemma NotLonger(a: seq<Entry>, b: seq<Entry>, contents: map<Key, Value>, prefix: Key)
    requires IsListing(a, contents, prefix) && IsListing(b, contents, prefix)
    requires forall i :: 0 <= i < |a| && i < |b| ==> a[i].key == b[i].key
    ensures |b| <= |a|
  {
    if |a| < |b| {
      var k := b[|a|].key;
      assert Wanted(contents, prefix, k);
      var i :| 0 <= i < |a| && a[i].key == k;
      assert b[i].key == k;
      LessIrreflexive(k);
    }
  }

  lemma {:induction false} ListingPrefix(a: seq<Entry>, b: seq<Entry>, contents: map<Key, Value>, prefix: Key, n: nat)
    requires IsListing(a, contents, prefix) && IsListing(b, contents, prefix) && n <= |a| && n <= |b|
    ensures forall i :: 0 <= i < n ==> a[i].key == b[i].key
  {
    if n > 0 {
      ListingPrefix(a, b, contents, prefix, n - 1);
      SameNext(a, b, contents, prefix, n - 1);
    }
  }

  lemma SameNext(a: seq<Entry>, b: seq<Entry>, contents: map<Key, Value>, prefix: Key, n: nat)
    requires IsListing(a, contents, prefix) && IsListing(b, contents, prefix) && n < |a| && n < |b|
    requires forall i :: 0 <= i < n ==> a[i].key == b[i].key
    ensures a[n].key == b[n].key
  {
    NotBefore(a, b, contents, prefix, n);
    NotBefore(b, a, contents, prefix, n);
    if a[n].key != b[n].key {
      LessTotal(a[n].key, b[n].key);
    }
  }

  /** Listings that agree before n cannot have a's entry n sort before b's: b would miss it. */
  lemma NotBefore(a: seq<Entry>, b: seq<Entry>, contents: map<Key, Value>, prefix: Key, n: nat)
    requires IsListing(a, contents, prefix) && IsListing(b, contents, prefix) && n < |a| && n < |b|
    requires forall i :: 0 <= i < n ==> a[i].key == b[i].key
    ensures !Less(a[n].key, b[n].key)
  {
    if Less(a[n].key, b[n].key) {
      assert Wanted(contents, prefix, a[n].key);
      var j :| 0 <= j < |b| && b[j].key == a[n].key;
      if j < n {
        assert Less(a[j].key, a[n].key);
        LessIrreflexive(a[n].key);
      } else {
        if j > n {
          assert Less(b[n].key, b[j].key);
        }
        LessAsymmetric(a[n].key, b[n].key);
        LessIrreflexive(a[n].key);
      }
    }
  }

  function Insert(es: seq<Entry>, e: Entry): seq<Entry> {
    if es == [] || Less(e.key, es[0].key) then [e] + es else [es[0]] + Insert(es[1..], e)
  }

  lemma {:induction false} InsertSorts(es: seq<Entry>, e: Entry)
    requires Sorted(es) && forall i :: 0 <= i < |es| ==> es[i].key != e.key
    ensures Sorted(Insert(es, e))
    ensures forall x :: x in Insert(es, e) <==> x == e || x in es
  {
    if es == [] {
    } else if Less(e.key, es[0].key) {
      forall j | 0 <= j < |es|
        ensures Less(e.key, es[j].key)
      {
        if j > 0 {
          LessTransitive(e.key, es[0].key, es[j].key);
        }
      }
    } else {
      LessTotal(e.key, es[0].key);
      InsertSorts(es[1..], e);
      var tail := Insert(es[1..], e);
      forall j | 0 <= j < |tail|
        ensures Less(es[0].key, tail[j].key)
      {
        assert tail[j] in tail;
        if tail[j] != e {
          var i :| 0 <= i < |es[1..]| && es[1..][i] == tail[j];
          assert Less(es[0].key, es[i + 1].key);
        }
      }
    }
  }

  // ---------------------------------------------------------------- the stores

  datatype Row = Row(value: Value, created: int, updated: int)

  /** The agent_kv table. The column is TEXT: every key is valid UTF-8, and the driver refuses a
      parameter that is not. */
  class TursoKv {
    var rows: map<Key, Row>

    constructor ()
      ensures Valid() && Contents() == map[]
    {
      rows := map[];
    }

    ghost predicate Valid()
      reads this
    {
      forall k :: k in rows ==> ValidUtf8(k)
    }

    ghost function Contents(): map<Key, Value>
      reads this
    {
      map k | k in rows :: rows[k].value
    }

    method Get(key: Key) returns (r: Result<Option<Value>, string>)
      requires Valid()
      ensures r.Err? <==> !ValidUtf8(key)
      ensures r.Ok? ==> r.value == if key in Contents() then Some(Contents()[key]) else None
    {
      if !ValidUtf8(key) {
        return Err("get");
      }
      return Ok(if key in rows then Some(rows[key].value) else None);
    }

    /** The row keeps the time its key first appeared. */
    method Put(key: Key, value: Value, now: int) returns (r: Result<(), string>)
      requires Valid()
      modifies this
      ensures Valid() && (r.Err? <==> !ValidUtf8(key))
      ensures r.Ok? ==> Contents() == old(Contents())[key := value] && key in rows
                        && rows[key].created == old(if key in rows then rows[key].created else now)
      ensures r.Ok? ==> rows == old(rows)[key := Row(value, rows[key].created, now)]
      ensures r.Err? ==> rows == old(rows)
    {
      if !ValidUtf8(key) {
        return Err("put");
      }
      rows := rows[key := Row(value, if key in rows then rows[key].created else now, now)];
      return Ok(());
    }

    method Delete(key: Key) returns (r: Result<(), string>)
      requires Valid()
      modifies this
      ensures Valid() && (r.Err? <==> !ValidUtf8(key))
      ensures r.Ok? ==> Contents() == old(Contents()) - {key}
      ensures r.Err? ==> rows == old(rows)
    {
      if !ValidUtf8(key) {
        return Err("delete");
      }
      rows := rows - {key};
      return Ok(());
    }

    /** The query: rows from lo up to but not including hi, in key order. */
    method Select(lo: Option<Key>, hi: Option<Key>) returns (es: seq<Entry>)
      requires Valid()
      ensures Sorted(es)
      ensures forall e :: e in es <==>
                e.key in rows && InRange(e.key, lo, hi) && e == Entry(e.key, rows[e.key].value, rows[e.key].updated)
    {
      es := [];
      var left := rows.Keys;
      while left != {}
        invariant left <= rows.Keys && Sorted(es)
        invariant forall e :: e in es <==>
                    && e.key in rows && e.key !in left && InRange(e.key, lo, hi)
                    && e == Entry(e.key, rows[e.key].value, rows[e.key].updated)
        decreases |left|
      {
        var k :| k in left;
        left := left - {k};
        if InRange(k, lo, hi) {
          var e := Entry(k, rows[k].value, rows[k].updated);
          forall i | 0 <= i < |es|
            ensures es[i].key != k
          {
            assert es[i] in es;
          }
          InsertSorts(es, e);
          es := Insert(es, e);
        }
      }
    }

    /** Every entry whose key starts with prefix, as a range of keys. */
    method List(prefix: Key) returns (r: Result<seq<Entry>, string>)
      requires Valid()
      ensures r.Err? <==> !ValidUtf8(prefix)
      ensures r.Ok? ==> IsListing(r.value, Contents(), prefix)
      ensures r.Ok? ==> forall i, j :: 0 <= i < j < |r.value| ==> Less(r.value[i].key, r.value[j].key)
      ensures r.Ok? ==> forall i :: 0 <= i < |r.value| ==>
                prefix <= r.value[i].key && r.value[i].key in Contents() && Contents()[r.value[i].key] == r.value[i].value
      ensures r.Ok? ==> forall k :: k in Contents() && prefix <= k ==> exists i :: 0 <= i < |r.value| && r.value[i].key == k
      ensures r.Ok? ==> forall i :: 0 <= i < |r.value| ==>
                          r.value[i].key in rows && r.value[i].updated == rows[r.value[i].key].updated
    {
      var lo, hi := None, None;
      if prefix != [] {
        lo := Some(prefix);
        hi := Successor(prefix);
      }
      if !ValidUtf8(prefix) {
        return Err("list");
      }
      var es := Select(lo, hi);
      forall k | k in rows
        ensures InRange(k, lo, hi) <==> prefix <= k
      {
      }
      forall k | k in Contents() && prefix <= k
        ensures exists e :: e in es && e.key == k
      {
        assert Entry(k, rows[k].value, rows[k].updated) in es;
      }
      ListingFromElements(es, Contents(), prefix);
      return Ok(es);
    }
  }

  predicate InRange(k: Key, lo: Option<Key>, hi: Option<Key>) {
    (lo.Some? ==> !Less(k, lo.value)) && (hi.Some? ==> Less(k, hi.value))
  }

  lemma ListingFromElements(es: seq<Entry>, contents: map<Key, Value>, prefix: Key)
    requires Sorted(es)
    requires forall e :: e in es ==> prefix <= e.key && e.key in contents && contents[e.key] == e.value
    requires forall k :: k in contents && prefix <= k ==> exists e :: e in es && e.key == k
    ensures IsListing(es, contents, prefix)
  {
    forall k | Wanted(contents, prefix, k)
      ensures exists i :: 0 <= i < |es| && es[i].key == k
    {
      var e :| e in es && e.key == k;
      var i :| 0 <= i < |es| && es[i] == e;
    }
  }

  /** es holds contents, one entry a key. */
  ghost predicate Hold(es: seq<Entry>, contents: map<Key, Value>) {
    && (forall i, j :: 0 <= i < j < |es| ==> es[i].key != es[j].key)
    && (forall e :: e in es ==> e.key in contents && contents[e.key] == e.value)
    && (forall k :: k in contents ==> exists e :: e in es && e.key == k)
  }

  lemma HoldUpdated(es: seq<Entry>, contents: map<Key, Value>, i: nat, e: Entry)
    requires Hold(es, contents) && i < |es| && es[i].key == e.key
    ensures Hold(es[i := e], contents[e.key := e.value])
  {
    var es' := es[i := e];
    var contents' := contents[e.key := e.value];
    forall k | k in contents'
      ensures exists x :: x in es' && x.key == k
    {
      if k == e.key {
        assert es'[i] == e;
      } else {
        var x :| x in es && x.key == k;
        var j :| 0 <= j < |es| && es[j] == x;
        assert es'[j] == x;
      }
    }
  }

  lemma HoldAppended(es: seq<Entry>, contents: map<Key, Value>, e: Entry)
    requires Hold(es, contents) && e.key !in contents
    ensures Hold(es + [e], contents[e.key := e.value])
  {
    forall i | 0 <= i < |es|
      ensures es[i].key != e.key
    {
      assert es[i] in es;
    }
    var contents' := contents[e.key := e.value];
    forall k | k in contents'
      ensures exists x :: x in es + [e] && x.key == k
    {
      if k == e.key {
        assert (es + [e])[|es|] == e;
      } else {
        var x :| x in es && x.key == k;
        assert x in es + [e];
      }
    }
  }

  lemma HoldDeleted(es: seq<Entry>, contents: map<Key, Value>, i: nat)
    requires Hold(es, contents) && i < |es|
    ensures Hold(es[..i] + es[i + 1..], contents - {es[i].key})
  {
    var es' := es[..i] + es[i + 1..];
    var contents' := contents - {es[i].key};
    forall k | k in contents'
      ensures exists x :: x in es' && x.key == k
    {
      var x :| x in es && x.key == k;
      assert x in es';
    }
  }

  /** The in-memory store: entries in the order their keys first appeared, stamped by a counter. */
  class MemKv {
    var entries: seq<Entry>
    var clock: int
    ghost var contents: map<Key, Value>

    constructor ()
      ensures Valid() && contents == map[]
    {
      entries, clock, contents := [], 0, map[];
    }

    ghost predicate Valid()
      reads this
    {
      Hold(entries, contents)
    }

    method Index(key: Key) returns (i: int)
      requires Valid()
      ensures -1 <= i < |entries| && (i == -1 <==> key !in contents)
      ensures i >= 0 ==> entries[i].key == key
    {
      i := 0;
      while i < |entries|
        invariant 0 <= i <= |entries|
        invariant forall j :: 0 <= j < i ==> entries[j].key != key
      {
        if entries[i].key == key {
          assert entries[i] in entries;
          return;
        }
        i := i + 1;
      }
      return -1;
    }

    method Get(key: Key) returns (r: Option<Value>)
      requires Valid()
      ensures r == if key in contents then Some(contents[key]) else None
    {
      var i := Index(key);
      if i >= 0 {
        assert entries[i] in entries;
        return Some(entries[i].value);
      }
      return None;
    }

    method Put(key: Key, value: Value)
      requires Valid()
      modifies this
      ensures Valid() && contents == old(contents)[key := value] && clock == old(clock) + 1
    {
      clock := clock + 1;
      var i := Index(key);
      if i >= 0 {
        var e := entries[i].(value := value, updated := clock);
        HoldUpdated(entries, contents, i, e);
        entries := entries[i := e];
      } else {
        HoldAppended(entries, contents, Entry(key, value, clock));
        entries := entries + [Entry(key, value, clock)];
      }
      contents := contents[key := value];
    }

    method Delete(key: Key)
      requires Valid()
      modifies this
      ensures Valid() && contents == old(contents) - {key}
    {
      var i := Index(key);
      if i >= 0 {
        HoldDeleted(entries, contents, i);
        entries := entries[..i] + entries[i + 1..];
      }
      contents := contents - {key};
    }

    method List(prefix: Key) returns (found: seq<Entry>)
      requires Valid()
      ensures IsListing(found, contents, prefix)
      ensures forall i, j :: 0 <= i < j < |found| ==> Less(found[i].key, found[j].key)
      ensures forall i :: 0 <= i < |found| ==>
                prefix <= found[i].key && found[i].key in contents && contents[found[i].key] == found[i].value
      ensures forall k :: k in contents && prefix <= k ==> exists i :: 0 <= i < |found| && found[i].key == k
    {
      found := [];
      for n := 0 to |entries|
        invariant Sorted(found)
        invariant forall e :: e in found <==> e in entries[..n] && prefix <= e.key
      {
        if prefix <= entries[n].key {
          forall i | 0 <= i < |found|
            ensures found[i].key != entries[n].key
          {
            assert found[i] in entries[..n];
          }
          InsertSorts(found, entries[n]);
          found := Insert(found, entries[n]);
        }
      }
      ListingFromElements(found, contents, prefix);
    }
  }

  /** Stores that were put and deleted the same list the same, for every valid prefix. */
  method ListsAgree(t: TursoKv, m: MemKv, prefix: Key) returns (a: seq<Entry>, b: seq<Entry>)
    requires t.Valid() && m.Valid() && t.Contents() == m.contents && ValidUtf8(prefix)
    ensures |a| == |b| && forall i :: 0 <= i < |a| ==> a[i].key == b[i].key && a[i].value == b[i].value
    ensures IsListing(a, t.Contents(), prefix)
  {
    var r := t.List(prefix);
    a := r.value;
    b := m.List(prefix);
    ListingUnique(a, b, m.contents, prefix);
  }
}
