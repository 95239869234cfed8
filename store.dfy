/** A document collection as the persistence helpers of `StockInfo` and `Holding` use
    it: a list of documents, each filed under a symbol. `find_one`, `update_one` and
    `delete_one` with a `{'symbol': k}` filter act on the first document filed under
    `k`; `insert_one` appends. `sym` reads a document's symbol. */
module Store {
  import opened PyNum

  /** The position of the first document filed under `k`. */
  function FirstIndex<D>(docs: seq<D>, sym: D -> string, k: string): (r: Option<nat>)
    ensures r.Some? ==> r.value < |docs| && sym(docs[r.value]) == k
    ensures r.Some? ==> forall j :: 0 <= j < r.value ==> sym(docs[j]) != k
    ensures r.None? ==> forall j :: 0 <= j < |docs| ==> sym(docs[j]) != k
    decreases |docs|
  {
    if |docs| == 0 then None
    else if sym(docs[0]) == k then Some(0)
    else
      match FirstIndex(docs[1..], sym, k)
      case None => None
      case Some(i) => Some(i + 1)
  }

  /** `find_one({'symbol': k})`. */
  function Find<D>(docs: seq<D>, sym: D -> string, k: string): Option<D> {
    match FirstIndex(docs, sym, k)
    case None => None
    case Some(i) => Some(docs[i])
  }

  /** The symbols the collection holds documents for. */
  function Symbols<D>(docs: seq<D>, sym: D -> string): set<string> {
    set i | 0 <= i < |docs| :: sym(docs[i])
  }

  /** The last document filed under `k`: what a load that keys documents by symbol keeps
      when a symbol is filed more than once. */
  function LastFiled<D>(docs: seq<D>, sym: D -> string, k: string): (r: Option<D>)
    ensures r.Some? <==> k in Symbols(docs, sym)
    ensures r.Some? ==> sym(r.value) == k && r.value in docs
    decreases |docs|
  {
    if |docs| == 0 then None
    else
      var n := |docs| - 1;
      assert Symbols(docs, sym) == Symbols(docs[..n], sym) + {sym(docs[n])} by {
        assert forall i :: 0 <= i < n ==> docs[..n][i] == docs[i];
      }
      if sym(docs[n]) == k then Some(docs[n])
      else LastFiled(docs[..n], sym, k)
  }

  /** Filing one more document adds its symbol, and makes it the last document filed
      under that symbol. */
  lemma FiledLast<D>(docs: seq<D>, sym: D -> string, d: D)
    ensures Symbols(docs + [d], sym) == Symbols(docs, sym) + {sym(d)}
    ensures forall k :: LastFiled(docs + [d], sym, k) == if sym(d) == k then Some(d) else LastFiled(docs, sym, k)
  {
    var e := docs + [d];
    assert e[..|docs|] == docs;
    assert sym(e[|docs|]) == sym(d);
    forall s | s in Symbols(e, sym)
      ensures s in Symbols(docs, sym) + {sym(d)}
    {
      var i :| 0 <= i < |e| && sym(e[i]) == s;
      if i < |docs| {
        assert e[i] == docs[i];
      }
    }
    forall s | s in Symbols(docs, sym)
      ensures s in Symbols(e, sym)
    {
      var i :| 0 <= i < |docs| && sym(docs[i]) == s;
      assert e[i] == docs[i];
    }
  }

  /** No symbol is filed twice. */
  predicate Unique<D>(docs: seq<D>, sym: D -> string) {
    forall i, j :: 0 <= i < j < |docs| ==> sym(docs[i]) != sym(docs[j])
  }

  /** `update_one({'symbol': k}, {'$set': ...})`: the first document filed under `k`,
      if any, is rewritten by `update`. */
  function UpdateFirst<D>(docs: seq<D>, sym: D -> string, k: string, update: D -> D): seq<D> {
    match FirstIndex(docs, sym, k)
    case None => docs
    case Some(i) => docs[i := update(docs[i])]
  }

  /** The find-then-write step of the end of the session: insert `inserted` when nothing
      is filed under `k`, otherwise update the first document filed under `k`. */
  function Upsert<D>(docs: seq<D>, sym: D -> string, k: string, inserted: D, update: D -> D): seq<D> {
    if Find(docs, sym, k).None? then docs + [inserted] else UpdateFirst(docs, sym, k, update)
  }

  /** `delete_one({'symbol': k})`. */
  function DeleteFirst<D>(docs: seq<D>, sym: D -> string, k: string): seq<D> {
    match FirstIndex(docs, sym, k)
    case None => docs
    case Some(i) => docs[..i] + docs[i + 1..]
  }

  /** The first index is determined by where `k` first occurs. */
  lemma FirstIndexIs<D>(docs: seq<D>, sym: D -> string, k: string, i: nat)
    requires i < |docs| && sym(docs[i]) == k
    requires forall j :: 0 <= j < i ==> sym(docs[j]) != k
    ensures FirstIndex(docs, sym, k) == Some(i)
  {
  }

  /** Two collections with the same symbols at the same places agree on every first
      index. */
  lemma SameSymbolsSameIndex<D>(a: seq<D>, b: seq<D>, sym: D -> string, k: string)
    requires |a| == |b| && forall i :: 0 <= i < |a| ==> sym(a[i]) == sym(b[i])
    ensures FirstIndex(a, sym, k) == FirstIndex(b, sym, k)
  {
    var r := FirstIndex(a, sym, k);
    if r.Some? {
      FirstIndexIs(b, sym, k, r.value);
    }
  }

  /** After an upsert under `k` (with an inserted document filed under `k` and an update
      that keeps the symbol), `k` finds the inserted document or the update of the one it
      found before, every other symbol finds what it found before, `k` is added to the
      symbols, and uniqueness is kept. */
  lemma UpsertMeaning<D>(docs: seq<D>, sym: D -> string, k: string, inserted: D, update: D -> D)
    requires sym(inserted) == k
    requires forall d :: sym(update(d)) == sym(d)
    ensures var r := Upsert(docs, sym, k, inserted, update);
      && Find(r, sym, k) == Some(if Find(docs, sym, k).None? then inserted else update(Find(docs, sym, k).value))
      && (forall j :: j != k ==> Find(r, sym, j) == Find(docs, sym, j))
      && Symbols(r, sym) == Symbols(docs, sym) + {k}
      && (Unique(docs, sym) ==> Unique(r, sym))
  {
    var r := Upsert(docs, sym, k, inserted, update);
    if Find(docs, sym, k).None? {
      assert r == docs + [inserted];
      FirstIndexIs(r, sym, k, |docs|);
      forall j | j != k
        ensures Find(r, sym, j) == Find(docs, sym, j)
      {
        var f := FirstIndex(docs, sym, j);
        if f.Some? {
          FirstIndexIs(r, sym, j, f.value);
        }
      }
      assert Symbols(r, sym) == Symbols(docs, sym) + {k} by {
        assert sym(r[|docs|]) == k;
        forall s | s in Symbols(r, sym)
          ensures s in Symbols(docs, sym) + {k}
        {
          var i :| 0 <= i < |r| && sym(r[i]) == s;
          if i < |docs| {
            assert sym(docs[i]) == s;
          }
        }
        forall s | s in Symbols(docs, sym)
          ensures s in Symbols(r, sym)
        {
          var i :| 0 <= i < |docs| && sym(docs[i]) == s;
          assert sym(r[i]) == s;
        }
      }
    } else {
      var i := FirstIndex(docs, sym, k).value;
      assert r == docs[i := update(docs[i])];
      assert forall m :: 0 <= m < |docs| ==> sym(docs[m]) == sym(r[m]) by {
        assert sym(update(docs[i])) == sym(docs[i]);
      }
      forall j
        ensures FirstIndex(r, sym, j) == FirstIndex(docs, sym, j)
      {
        SameSymbolsSameIndex(docs, r, sym, j);
      }
      assert Symbols(r, sym) == Symbols(docs, sym) by {
        forall s | s in Symbols(r, sym)
          ensures s in Symbols(docs, sym)
        {
          var m :| 0 <= m < |r| && sym(r[m]) == s;
          assert sym(docs[m]) == s;
        }
        forall s | s in Symbols(docs, sym)
          ensures s in Symbols(r, sym)
        {
          var m :| 0 <= m < |docs| && sym(docs[m]) == s;
          assert sym(r[m]) == s;
        }
      }
      assert k in Symbols(docs, sym) by {
        assert sym(docs[i]) == k;
      }
    }
  }

  /** Deleting the first document filed under `k` leaves what every other symbol finds. */
  lemma DeleteKeepsOthers<D>(docs: seq<D>, sym: D -> string, k: string, j: string)
    requires j != k
    ensures Find(DeleteFirst(docs, sym, k), sym, j) == Find(docs, sym, j)
  {
    var f := FirstIndex(docs, sym, k);
    var g := FirstIndex(docs, sym, j);
    if f.Some? && g.Some? {
      var r := DeleteFirst(docs, sym, k);
      var i, n := f.value, g.value;
      assert r == docs[..i] + docs[i + 1..];
      assert n != i;
      if n < i {
        assert forall m :: 0 <= m <= n ==> r[m] == docs[m];
        FirstIndexIs(r, sym, j, n);
      } else {
        assert forall m :: i <= m < |r| ==> r[m] == docs[m + 1];
        assert forall m :: 0 <= m < i ==> r[m] == docs[m];
        FirstIndexIs(r, sym, j, n - 1);
      }
    } else if f.Some? {
      var r := DeleteFirst(docs, sym, k);
      var i := f.value;
      assert r == docs[..i] + docs[i + 1..];
      assert forall m :: 0 <= m < |r| ==> sym(r[m]) != j by {
        forall m | 0 <= m < |r|
          ensures sym(r[m]) != j
        {
          if m >= i {
            assert r[m] == docs[m + 1];
          }
        }
      }
    }
  }

  /** In a collection with unique symbols, deleting `k` leaves nothing filed under `k`,
      removes exactly `k` from the symbols and keeps uniqueness. */
  lemma DeleteFromUnique<D>(docs: seq<D>, sym: D -> string, k: string)
    requires Unique(docs, sym)
    ensures var r := DeleteFirst(docs, sym, k);
      Find(r, sym, k).None? && Symbols(r, sym) == Symbols(docs, sym) - {k} && Unique(r, sym)
  {
    var r := DeleteFirst(docs, sym, k);
    var f := FirstIndex(docs, sym, k);
    if f.Some? {
      var i := f.value;
      assert r == docs[..i] + docs[i + 1..];
      assert forall m :: 0 <= m < i ==> r[m] == docs[m];
      assert forall m :: i <= m < |r| ==> r[m] == docs[m + 1];
      assert forall m :: 0 <= m < |r| ==> sym(r[m]) != k by {
        forall m | 0 <= m < |r|
          ensures sym(r[m]) != k
        {
          if m < i {
            assert sym(docs[m]) != sym(docs[i]);
          } else {
            assert sym(docs[i]) != sym(docs[m + 1]);
          }
        }
      }
      assert Unique(r, sym) by {
        forall a, b | 0 <= a < b < |r|
          ensures sym(r[a]) != sym(r[b])
        {
          var a', b' := if a < i then a else a + 1, if b < i then b else b + 1;
          assert r[a] == docs[a'] && r[b] == docs[b'] && a' < b';
        }
      }
      assert Symbols(r, sym) == Symbols(docs, sym) - {k} by {
        forall s | s in Symbols(r, sym)
          ensures s in Symbols(docs, sym) - {k}
        {
          var m :| 0 <= m < |r| && sym(r[m]) == s;
          if m < i {
            assert sym(docs[m]) == s;
          } else {
            assert sym(docs[m + 1]) == s;
          }
        }
        forall s | s in Symbols(docs, sym) - {k}
          ensures s in Symbols(r, sym)
        {
          var m :| 0 <= m < |docs| && sym(docs[m]) == s;
          if m < i {
            assert sym(r[m]) == s;
          } else {
            assert sym(r[m - 1]) == s;
          }
        }
      }
    } else {
      assert k !in Symbols(docs, sym);
    }
  }

  /** After deleting the first document filed under `k`, every other symbol finds what
      it found before; in a collection with unique symbols `k` then finds nothing,
      the symbols lose exactly `k`, and uniqueness is kept. */
  lemma DeleteMeaning<D>(docs: seq<D>, sym: D -> string, k: string)
    ensures var r := DeleteFirst(docs, sym, k);
      && (forall j :: j != k ==> Find(r, sym, j) == Find(docs, sym, j))
      && (Unique(docs, sym) ==> Find(r, sym, k).None? && Symbols(r, sym) == Symbols(docs, sym) - {k} && Unique(r, sym))
  {
    forall j | j != k
      ensures Find(DeleteFirst(docs, sym, k), sym, j) == Find(docs, sym, j)
    {
      DeleteKeepsOthers(docs, sym, k, j);
    }
    if Unique(docs, sym) {
      DeleteFromUnique(docs, sym, k);
    }
  }
}
