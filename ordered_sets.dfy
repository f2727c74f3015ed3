/**
 * A JavaScript `Set` of strings as the loader uses it: `add` keeps the
 * first insertion's position, and `Array.from` lists the members in
 * insertion order. It is held as a sequence without duplicates.
 */
module OrderedSets {

  ghost predicate NoDuplicates(s: seq<string>) {
    forall i, j :: 0 <= i < j < |s| ==> s[i] != s[j]
  }

  /** `Set.prototype.add`: appends `x` unless it is already present. */
  function Insert(s: seq<string>, x: string): (r: seq<string>)
    ensures NoDuplicates(s) ==> NoDuplicates(r)
    ensures s <= r && x in r
    ensures forall y :: y in r <==> y in s || y == x
    ensures x in s ==> r == s
  {
    if x in s then s else s + [x]
  }

  /** A run of `add` calls, in order. */
  function InsertAll(s: seq<string>, xs: seq<string>): seq<string>
    decreases |xs|
  {
    if xs == [] then s else InsertAll(Insert(s, xs[0]), xs[1..])
  }

  /** `xs` with every element of `drop` filtered out, order kept. */
  function Without(xs: seq<string>, drop: seq<string>): (r: seq<string>)
    ensures |r| <= |xs|
  {
    if xs == [] then [] else (if xs[0] in drop then [] else [xs[0]]) + Without(xs[1..], drop)
  }

  lemma {:induction false} WithoutMembers(xs: seq<string>, drop: seq<string>)
    ensures forall y :: y in Without(xs, drop) <==> y in xs && y !in drop
    decreases |xs|
  {
    if xs != [] {
      WithoutMembers(xs[1..], drop);
      assert xs == [xs[0]] + xs[1..];
    }
  }

  /** Reference definition: each element at its first occurrence, later repeats removed. */
  function FirstOccurrences(xs: seq<string>): seq<string>
    decreases |xs|
  {
    if xs == [] then [] else [xs[0]] + FirstOccurrences(Without(xs[1..], [xs[0]]))
  }

  lemma {:induction false} WithoutWithout(xs: seq<string>, a: seq<string>, b: seq<string>)
    ensures Without(Without(xs, a), b) == Without(xs, a + b)
    decreases |xs|
  {
    if xs != [] {
      var x, tail := xs[0], xs[1..];
      WithoutWithout(tail, a, b);
      var w := Without(tail, a);
      if x in a {
        assert Without(xs, a) == w;
        assert Without(xs, a + b) == Without(tail, a + b);
      } else {
        assert Without(xs, a) == [x] + w;
        assert ([x] + w)[1..] == w;
        assert Without([x] + w, b) == (if x in b then [] else [x]) + Without(w, b);
        assert Without(xs, a + b) == (if x in b then [] else [x]) + Without(tail, a + b);
      }
    }
  }

  lemma {:induction false} WithoutNothing(xs: seq<string>)
    ensures Without(xs, []) == xs
    decreases |xs|
  {
    if xs != [] {
      WithoutNothing(xs[1..]);
      assert xs == [xs[0]] + xs[1..];
    }
  }

  lemma {:induction false} FirstOccurrencesDistinct(xs: seq<string>)
    ensures NoDuplicates(FirstOccurrences(xs))
    ensures forall y :: y in FirstOccurrences(xs) <==> y in xs
    decreases |xs|
  {
    if xs != [] {
      var rest := Without(xs[1..], [xs[0]]);
      WithoutMembers(xs[1..], [xs[0]]);
      FirstOccurrencesDistinct(rest);
      var r, t := FirstOccurrences(xs), FirstOccurrences(rest);
      assert r == [xs[0]] + t;
      assert xs[0] !in t;
      forall i, j | 0 <= i < j < |r| ensures r[i] != r[j] {
        if i == 0 {
          assert r[j] == t[j - 1];
        }
      }
      assert xs == [xs[0]] + xs[1..];
    }
  }

  /** One unfolding of `Without` on a non-empty sequence. */
  lemma WithoutFirst(xs: seq<string>, drop: seq<string>)
    requires xs != []
    ensures Without(xs, drop) == (if xs[0] in drop then [] else [xs[0]]) + Without(xs[1..], drop)
  {
  }

  /** One unfolding of `FirstOccurrences` on `[x] + w`. */
  lemma FirstOccurrencesCons(x: string, w: seq<string>)
    ensures FirstOccurrences([x] + w) == [x] + FirstOccurrences(Without(w, [x]))
  {
    assert ([x] + w)[0] == x && ([x] + w)[1..] == w;
  }

  /** Adding `xs` to a set `s` appends the first occurrences of the new elements of `xs`, in order. */
  lemma {:induction false} InsertAllAppendsFirstOccurrences(s: seq<string>, xs: seq<string>)
    ensures InsertAll(s, xs) == s + FirstOccurrences(Without(xs, s))
    decreases |xs|
  {
    if xs == [] {
      return;
    }
    var x, tail := xs[0], xs[1..];
    assert InsertAll(s, xs) == InsertAll(Insert(s, x), tail);
    WithoutFirst(xs, s);
    if x in s {
      InsertAllAppendsFirstOccurrences(s, tail);
      assert [] + Without(tail, s) == Without(tail, s);
    } else {
      var w := Without(tail, s);
      InsertAllAppendsFirstOccurrences(s + [x], tail);
      WithoutWithout(tail, s, [x]);
      FirstOccurrencesCons(x, w);
    }
  }

  /**
   * A fresh set filled by `add(x)` for each `x` of `xs` lists, by `Array.from`,
   * exactly the distinct elements of `xs` in first-insertion order.
   */
  lemma ArrayFromInsertionOrder(xs: seq<string>)
    ensures InsertAll([], xs) == FirstOccurrences(xs)
    ensures NoDuplicates(InsertAll([], xs))
    ensures forall y :: y in InsertAll([], xs) <==> y in xs
  {
    InsertAllAppendsFirstOccurrences([], xs);
    WithoutNothing(xs);
    FirstOccurrencesDistinct(xs);
  }
}
