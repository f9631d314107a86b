/** The order of object keys, by UTF-16 code units (section 3.2.3 of RFC 8785), and sorting by it. */
module KeyOrder {
  import opened Texts

  /** The default order of Array.prototype.sort on strings. */
  predicate Less(a: Text, b: Text) {
    b != [] && (a == [] || a[0] < b[0] || (a[0] == b[0] && Less(a[1..], b[1..])))
  }

  datatype Keyed<+T> = Keyed(key: Text, value: T)

  function Insert<T>(e: Keyed<T>, es: seq<Keyed<T>>): seq<Keyed<T>> {
    if es == [] || Less(e.key, es[0].key) then [e] + es else [es[0]] + Insert(e, es[1..])
  }

  function Sort<T>(es: seq<Keyed<T>>): seq<Keyed<T>> {
    if es == [] then [] else Insert(es[0], Sort(es[1..]))
  }

  predicate DistinctKeys<T>(es: seq<Keyed<T>>) {
    forall i, j :: 0 <= i < j < |es| ==> es[i].key != es[j].key
  }

  predicate Ascending<T>(es: seq<Keyed<T>>) {
    forall i, j :: 0 <= i < j < |es| ==> Less(es[i].key, es[j].key)
  }

  // ----- a strict total order --------------------------------------------------------------

  lemma {:induction false} LessIrreflexive(a: Text)
    ensures !Less(a, a)
  {
    if a != [] {
      LessIrreflexive(a[1..]);
    }
  }

  lemma {:induction false} LessTotal(a: Text, b: Text)
    ensures a == b || Less(a, b) || Less(b, a)
  {
    if a != [] && b != [] && a[0] == b[0] {
      LessTotal(a[1..], b[1..]);
      assert a == [a[0]] + a[1..] && b == [b[0]] + b[1..];
    }
  }

  lemma {:induction false} LessTransitive(a: Text, b: Text, c: Text)
    requires Less(a, b) && Less(b, c)
    ensures Less(a, c)
  {
    if a != [] && a[0] == b[0] == c[0] {
      LessTransitive(a[1..], b[1..], c[1..]);
    }
  }

  /** The first i code units agree, and then a ends or has the smaller unit. */
  predicate DiffersAt(a: Text, b: Text, i: nat) {
    && i <= |a| && i < |b|
    && a[..i] == b[..i]
    && (i == |a| || a[i] < b[i])
  }

  /** The order is decided by the first code unit that differs, and a proper prefix comes first. */
  lemma {:induction false} FirstDifference(a: Text, b: Text)
    ensures Less(a, b) <==> exists i: nat :: DiffersAt(a, b, i)
  {
    if Less(a, b) {
      if a == [] || a[0] < b[0] {
        assert DiffersAt(a, b, 0);
      } else {
        FirstDifference(a[1..], b[1..]);
        var i: nat :| DiffersAt(a[1..], b[1..], i);
        assert a == [a[0]] + a[1..] && b == [b[0]] + b[1..];
        assert a[..i + 1] == [a[0]] + a[1..][..i] && b[..i + 1] == [b[0]] + b[1..][..i];
        assert DiffersAt(a, b, i + 1);
      }
    }
    if i: nat :| DiffersAt(a, b, i) {
      if i > 0 {
        assert a[0] == a[..i][0] && b[0] == b[..i][0];
        assert a[1..][..i - 1] == a[..i][1..] && b[1..][..i - 1] == b[..i][1..];
        assert DiffersAt(a[1..], b[1..], i - 1);
        FirstDifference(a[1..], b[1..]);
      }
    }
  }

  // ----- sorting ---------------------------------------------------------------------------

  lemma {:induction false} InsertPermutes<T>(e: Keyed<T>, es: seq<Keyed<T>>)
    ensures multiset(Insert(e, es)) == multiset([e] + es)
  {
    if es != [] && !Less(e.key, es[0].key) {
      InsertPermutes(e, es[1..]);
      assert es == [es[0]] + es[1..];
    }
  }

  lemma {:induction false} SortPermutes<T>(es: seq<Keyed<T>>)
    ensures multiset(Sort(es)) == multiset(es)
  {
    if es != [] {
      SortPermutes(es[1..]);
      InsertPermutes(es[0], Sort(es[1..]));
      assert es == [es[0]] + es[1..];
    }
  }

  lemma {:induction false} InsertAscends<T>(e: Keyed<T>, es: seq<Keyed<T>>)
    requires Ascending(es) && forall f | f in es :: f.key != e.key
    ensures Ascending(Insert(e, es))
  {
    if es != [] {
      if Less(e.key, es[0].key) {
        forall i | 0 < i < |es| ensures Less(e.key, es[i].key) {
          LessTransitive(e.key, es[0].key, es[i].key);
        }
      } else {
        InsertAscends(e, es[1..]);
        InsertPermutes(e, es[1..]);
        LessTotal(e.key, es[0].key);
        assert es[0] in es;
        var tail := Insert(e, es[1..]);
        forall i | 0 <= i < |tail| ensures Less(es[0].key, tail[i].key) {
          assert tail[i] in multiset(tail);
          assert tail[i] == e || tail[i] in es[1..];
        }
      }
    }
  }

  lemma {:induction false} SortAscends<T>(es: seq<Keyed<T>>)
    requires DistinctKeys(es)
    ensures Ascending(Sort(es))
  {
    if es != [] {
      SortAscends(es[1..]);
      SortPermutes(es[1..]);
      forall f | f in Sort(es[1..]) ensures f.key != es[0].key {
        assert f in multiset(es[1..]);
      }
      InsertAscends(es[0], Sort(es[1..]));
    }
  }

  /** Sorting holds exactly the same entries. */
  lemma SortKeeps<T>(es: seq<Keyed<T>>, e: Keyed<T>)
    ensures e in Sort(es) <==> e in es
    ensures |Sort(es)| == |es|
  {
    SortPermutes(es);
    assert e in multiset(es) <==> e in es;
    assert |multiset(Sort(es))| == |Sort(es)|;
  }

  ghost predicate HasKey<T>(es: seq<Keyed<T>>, k: Text) {
    exists i :: 0 <= i < |es| && es[i].key == k
  }

  ghost predicate SameKeys<S, T>(es: seq<Keyed<S>>, fs: seq<Keyed<T>>) {
    && (forall i :: 0 <= i < |es| ==> HasKey(fs, es[i].key))
    && (forall j :: 0 <= j < |fs| ==> HasKey(es, fs[j].key))
  }

  /** Ascending lists with the same keys have them in the same places. */
  lemma {:induction false} AscendingUnique<S, T>(es: seq<Keyed<S>>, fs: seq<Keyed<T>>)
    requires Ascending(es) && Ascending(fs) && SameKeys(es, fs)
    ensures |es| == |fs| && forall i :: 0 <= i < |es| ==> es[i].key == fs[i].key
  {
    if es == [] {
      assert fs != [] ==> HasKey(es, fs[0].key);
    } else {
      assert HasKey(fs, es[0].key);
      FirstAgrees(es, fs);
      TailKeys(es, fs);
      TailKeys(fs, es);
      AscendingUnique(es[1..], fs[1..]);
      forall i | 0 <= i < |es| ensures es[i].key == fs[i].key {
        if i > 0 {
          assert es[i] == es[1..][i - 1] && fs[i] == fs[1..][i - 1];
        }
      }
    }
  }

  lemma FirstAgrees<S, T>(es: seq<Keyed<S>>, fs: seq<Keyed<T>>)
    requires es != [] && fs != [] && Ascending(es) && Ascending(fs) && SameKeys(es, fs)
    ensures es[0].key == fs[0].key
  {
    assert HasKey(fs, es[0].key) && HasKey(es, fs[0].key);
    var j :| 0 <= j < |fs| && fs[j].key == es[0].key;
    var i :| 0 <= i < |es| && es[i].key == fs[0].key;
    if i > 0 && j > 0 {
      LessTransitive(es[0].key, es[i].key, fs[j].key);
      LessIrreflexive(es[0].key);
    }
  }

  lemma TailKeys<S, T>(es: seq<Keyed<S>>, fs: seq<Keyed<T>>)
    requires es != [] && fs != [] && Ascending(es) && SameKeys(es, fs) && es[0].key == fs[0].key
    ensures forall i :: 0 <= i < |es[1..]| ==> HasKey(fs[1..], es[1..][i].key)
  {
    forall i | 0 <= i < |es[1..]| ensures HasKey(fs[1..], es[1..][i].key) {
      assert es[1..][i] == es[i + 1];
      assert HasKey(fs, es[i + 1].key);
      var j :| 0 <= j < |fs| && fs[j].key == es[i + 1].key;
      LessIrreflexive(es[0].key);
      assert j > 0;
      assert fs[1..][j - 1] == fs[j];
    }
  }
}
