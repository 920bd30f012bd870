/** Small value types and sequence facts shared by the other modules. */
module Common {

  /** A value that may be absent (Python's `None`). */
  datatype Option<+T> = None | Some(value: T)

  /** The outcome of an operation that raises one of the errors `E` instead of producing a `T`. */
  datatype Result<+T, +E> = Ok(value: T) | Err(error: E)

  /** No element occurs twice in `s`. */
  predicate Distinct<T(==)>(s: seq<T>) {
    forall i, j :: 0 <= i < j < |s| ==> s[i] != s[j]
  }

  /** The set of elements of a sequence. */
  function Elements<T>(s: seq<T>): set<T> {
    set x | x in s
  }

  /** A non-empty set of ids has an element. */
  lemma NonEmpty(s: set<int>)
    requires s != {}
    ensures exists x :: x in s
  {
    assert (forall y :: y !in s) ==> s == {};
  }

  /** Dropping the last element. */
  lemma ElementsSnoc<T>(s: seq<T>)
    requires s != []
    ensures Elements(s) == Elements(s[..|s| - 1]) + {s[|s| - 1]}
  {
    var init := s[..|s| - 1];
    forall x | x in s
      ensures x in init || x == s[|s| - 1]
    {
      var i :| 0 <= i < |s| && s[i] == x;
      if i < |s| - 1 {
        assert init[i] == x;
      }
    }
  }

  /** Dropping the first element. */
  lemma ElementsCons<T>(s: seq<T>)
    requires s != []
    ensures Elements(s) == {s[0]} + Elements(s[1..])
  {
    var tail := s[1..];
    forall x | x in s
      ensures x == s[0] || x in tail
    {
      var i :| 0 <= i < |s| && s[i] == x;
      if i > 0 {
        assert tail[i - 1] == x;
      }
    }
  }

  /** The tail of a sequence without duplicates has none, and lacks the head. */
  lemma DistinctTail<T>(s: seq<T>)
    requires s != [] && Distinct(s)
    ensures Distinct(s[1..]) && s[0] !in s[1..]
  {
    var rest := s[1..];
    forall i, j | 0 <= i < j < |rest|
      ensures rest[i] != rest[j]
    {
      assert rest[i] == s[i + 1] && rest[j] == s[j + 1];
    }
    forall j | 0 <= j < |rest|
      ensures rest[j] != s[0]
    {
      assert rest[j] == s[j + 1];
    }
  }

  /** The front of a sequence without duplicates has none, and lacks the last element. */
  lemma DistinctInit<T>(s: seq<T>)
    requires s != [] && Distinct(s)
    ensures Distinct(s[..|s| - 1]) && s[|s| - 1] !in s[..|s| - 1]
  {
    var init := s[..|s| - 1];
    forall j | 0 <= j < |init|
      ensures init[j] != s[|s| - 1]
    {
      assert init[j] == s[j];
    }
  }

  /** Concatenation. */
  lemma ElementsAppend<T>(a: seq<T>, b: seq<T>)
    ensures Elements(a + b) == Elements(a) + Elements(b)
  {
    forall x | x in a + b
      ensures x in a || x in b
    {
      var i :| 0 <= i < |a + b| && (a + b)[i] == x;
      if i >= |a| {
        assert b[i - |a|] == x;
      }
    }
    forall x | x in a
      ensures x in a + b
    {
      var i :| 0 <= i < |a| && a[i] == x;
      assert (a + b)[i] == x;
    }
    forall x | x in b
      ensures x in a + b
    {
      var i :| 0 <= i < |b| && b[i] == x;
      assert (a + b)[|a| + i] == x;
    }
  }

  /** Removing more elements, one of them still present, leaves a strictly smaller set. */
  lemma SmallerDifference<T>(m: set<T>, o: set<T>, b: set<T>, t: T)
    requires t in m && t !in o && t in b
    ensures |m - (o + b)| < |m - o|
  {
    var before, after := m - o, m - (o + b);
    var gone := before - after;
    assert t in gone;
    assert before == after + gone && after * gone == {};
  }

  /** Removing a key removes values only. */
  lemma RemovalValues<K, V>(m: map<K, V>, key: K)
    ensures (m - {key}).Values <= m.Values
  {
    var rest := m - {key};
    forall v | v in rest.Values
      ensures v in m.Values
    {
      var k :| k in rest && rest[k] == v;
      assert k in m && m[k] == v;
    }
  }

  /** `order` is what Python's `list(set(ids))` may produce for `ids`: the same elements,
      each once, in an order that CPython does not specify. */
  predicate IsDeduplication<T(==)>(order: seq<T>, ids: seq<T>) {
    Distinct(order) && Elements(order) == Elements(ids)
  }

  /** The order this model gives to `list(set(ids))`: each id at its first occurrence. Every
      lemma about the editing operations holds for any order satisfying `IsDeduplication`. */
  function Dedup<T(==)>(s: seq<T>): (r: seq<T>)
    ensures IsDeduplication(r, s)
    decreases |s|
  {
    if s == [] then []
    else
      var d := Dedup(s[..|s| - 1]);
      var last := s[|s| - 1];
      ElementsSnoc(s);
      if last in d then d
      else
        assert (d + [last])[..|d|] == d;
        ElementsSnoc(d + [last]);
        d + [last]
  }
}
