/** Sequence and map helpers shared by the model: PHP's `array_values(array_unique(..))`
    and `$map[$key] ?? []`. */
module Collections {

  datatype Option<T> = None | Some(value: T)

  /** A value, or the error the PHP code would throw instead. */
  datatype Result<T, E> = Ok(value: T) | Err(error: E)

  /** No element occurs twice. */
  predicate NoDup<T(==)>(s: seq<T>) {
    forall i, j :: 0 <= i < j < |s| ==> s[i] != s[j]
  }

  /** `array_values(array_unique($s))`: the first occurrence of every element, in order. */
  function Dedup<T(==)>(s: seq<T>): (r: seq<T>)
    ensures |r| <= |s|
  {
    if |s| == 0 then []
    else if s[|s| - 1] in s[..|s| - 1] then Dedup(s[..|s| - 1])
    else Dedup(s[..|s| - 1]) + [s[|s| - 1]]
  }

  /** The position of the first occurrence of `x` in `s`. */
  function IndexOf<T(==)>(s: seq<T>, x: T): (i: nat)
    requires x in s
    ensures i < |s| && s[i] == x && x !in s[..i]
  {
    if s[0] == x then 0 else 1 + IndexOf(s[1..], x)
  }

  /** `$m[$k] ?? []` for a map of lists. */
  function Bucket<K, V>(m: map<K, seq<V>>, k: K): seq<V> {
    if k in m then m[k] else []
  }

  lemma DedupSnoc<T>(s: seq<T>, x: T)
    ensures Dedup(s + [x]) == if x in s then Dedup(s) else Dedup(s) + [x]
  {
    assert (s + [x])[..|s|] == s;
  }

  /** `array_unique` neither loses nor invents elements. */
  lemma {:induction false} DedupElements<T>(s: seq<T>)
    ensures forall x :: x in Dedup(s) <==> x in s
  {
    if |s| > 0 {
      var p, e := s[..|s| - 1], s[|s| - 1];
      assert s == p + [e];
      DedupElements(p);
      DedupSnoc(p, e);
    }
  }

  /** `array_unique` leaves no duplicates. */
  lemma {:induction false} DedupNoDup<T>(s: seq<T>)
    ensures NoDup(Dedup(s))
  {
    if |s| > 0 {
      var p, e := s[..|s| - 1], s[|s| - 1];
      assert s == p + [e];
      DedupNoDup(p);
      DedupElements(p);
      DedupSnoc(p, e);
    }
  }

  /** A list without duplicates is its own `array_unique`. */
  lemma {:induction false} DedupOfNoDup<T>(s: seq<T>)
    requires NoDup(s)
    ensures Dedup(s) == s
  {
    if |s| > 0 {
      var p, e := s[..|s| - 1], s[|s| - 1];
      assert s == p + [e];
      assert NoDup(p);
      DedupOfNoDup(p);
      DedupSnoc(p, e);
    }
  }

  /** Deduplicating a concatenation is deduplicating the concatenation of the deduplicated parts. */
  lemma {:induction false} DedupConcat<T>(a: seq<T>, b: seq<T>)
    ensures Dedup(a + b) == Dedup(Dedup(a) + Dedup(b))
  {
    DedupElements(a);
    if |b| == 0 {
      assert a + b == a;
      assert Dedup(a) + Dedup(b) == Dedup(a);
      DedupNoDup(a);
      DedupOfNoDup(Dedup(a));
    } else {
      var p, e := b[..|b| - 1], b[|b| - 1];
      assert b == p + [e];
      assert a + b == (a + p) + [e];
      DedupConcat(a, p);
      DedupSnoc(a + p, e);
      DedupSnoc(p, e);
      DedupElements(p);
      var da, dp := Dedup(a), Dedup(p);
      assert e in da + dp <==> e in a + p;
      if e in p {
        assert Dedup(b) == dp;
      } else {
        assert da + Dedup(b) == (da + dp) + [e];
        DedupSnoc(da + dp, e);
      }
    }
  }

  lemma SeqAssoc<T>(a: seq<T>, b: seq<T>, c: seq<T>)
    ensures a + b + c == a + (b + c)
  {
  }

  lemma IndexOfUnique<T>(s: seq<T>, x: T, i: nat)
    requires i < |s| && s[i] == x && x !in s[..i]
    ensures IndexOf(s, x) == i
  {
  }

  lemma IndexOfSnoc<T>(s: seq<T>, e: T, x: T)
    requires x in s
    ensures IndexOf(s + [e], x) == IndexOf(s, x)
  {
    var i := IndexOf(s, x);
    assert (s + [e])[..i] == s[..i];
    IndexOfUnique(s + [e], x, i);
  }

  /** `array_unique` keeps elements in the order of their first occurrence. */
  lemma {:induction false} DedupKeepsFirstSeenOrder<T>(s: seq<T>, x: T, y: T)
    requires x in s && y in s
    requires IndexOf(s, x) < IndexOf(s, y)
    ensures x in Dedup(s) && y in Dedup(s)
    ensures IndexOf(Dedup(s), x) < IndexOf(Dedup(s), y)
  {
    DedupElements(s);
    var p, e := s[..|s| - 1], s[|s| - 1];
    assert s == p + [e];
    DedupSnoc(p, e);
    DedupElements(p);
    if e in p {
      IndexOfSnoc(p, e, x);
      IndexOfSnoc(p, e, y);
      DedupKeepsFirstSeenOrder(p, x, y);
    } else {
      IndexOfSnoc(p, e, x);
      IndexOfSnoc(Dedup(p), e, x);
      if y == e {
        assert Dedup(s)[..|Dedup(p)|] == Dedup(p);
        IndexOfUnique(Dedup(s), e, |Dedup(p)|);
      } else {
        IndexOfSnoc(p, e, y);
        IndexOfSnoc(Dedup(p), e, y);
        DedupKeepsFirstSeenOrder(p, x, y);
      }
    }
  }
}
