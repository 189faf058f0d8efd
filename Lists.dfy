/** Arrays of ids used as sets: the `filter` / spread / `includes` idiom shared by the goal
    picker of the onboarding wizard and the daily task list. */
module Lists {

  /** No id occurs twice. */
  predicate NoDup(s: seq<string>) {
    forall i, j :: 0 <= i < j < |s| ==> s[i] != s[j]
  }

  /** The ids of `s`, as a set. */
  function Elems(s: seq<string>): set<string> {
    set y | y in s
  }

  /** `s.filter(y => y !== x)`: every occurrence of `x` dropped, the rest kept in order. */
  function Remove(s: seq<string>, x: string): (r: seq<string>)
    ensures x !in r
    ensures forall y :: y != x ==> (y in r <==> y in s)
    ensures x !in s ==> r == s
    ensures NoDup(s) ==> NoDup(r)
    ensures NoDup(s) && x in s ==> |r| == |s| - 1
  {
    if s == [] then []
    else
      NoDupCons(s[0], s[1..]);
      assert s == [s[0]] + s[1..];
      if s[0] == x then Remove(s[1..], x)
      else
        var rest := Remove(s[1..], x);
        NoDupCons(s[0], rest);
        [s[0]] + rest
  }

  /** `filter` distributes over concatenation and keeps a single id exactly when it is not
      `x`: together these pin down the result, order included. */
  lemma {:induction false} RemoveConcat(s: seq<string>, t: seq<string>, x: string)
    ensures Remove(s + t, x) == Remove(s, x) + Remove(t, x)
    ensures forall y :: Remove([y], x) == if y == x then [] else [y]
  {
    if s == [] {
      assert s + t == t;
    } else {
      assert (s + t)[1..] == s[1..] + t;
      RemoveConcat(s[1..], t, x);
    }
  }

  /** A list with a head is free of duplicates exactly when its tail is and does not hold
      the head. */
  lemma NoDupCons(a: string, t: seq<string>)
    ensures NoDup([a] + t) <==> a !in t && NoDup(t)
  {
    var s := [a] + t;
    if a !in t && NoDup(t) {
      forall i, j | 0 <= i < j < |s| ensures s[i] != s[j] {
        if i > 0 {
          assert s[i] == t[i - 1] && s[j] == t[j - 1];
        } else {
          assert s[j] == t[j - 1];
        }
      }
    }
    if NoDup(s) {
      forall i, j | 0 <= i < j < |t| ensures t[i] != t[j] {
        assert t[i] == s[i + 1] && t[j] == s[j + 1];
      }
      forall k | 0 <= k < |t| ensures t[k] != a {
        assert t[k] == s[k + 1] && s[0] == a;
      }
    }
  }

  /** `s.includes(x) ? s.filter(y => y !== x) : [...s, x]`: flip the membership of `x`. */
  function Toggle(s: seq<string>, x: string): (r: seq<string>)
    ensures x in r <==> x !in s
    ensures forall y :: y != x ==> (y in r <==> y in s)
    ensures x !in s ==> r == s + [x]
    ensures NoDup(s) ==> NoDup(r)
    ensures NoDup(s) ==> |r| == if x in s then |s| - 1 else |s| + 1
  {
    if x in s then Remove(s, x) else s + [x]
  }

  /** Dropping an id that was just appended gives back the original list. */
  lemma {:induction false} RemoveAppended(s: seq<string>, x: string)
    requires x !in s
    ensures Remove(s + [x], x) == s
  {
    if s == [] {
      assert [] + [x] == [x];
    } else {
      assert (s + [x])[1..] == s[1..] + [x];
      RemoveAppended(s[1..], x);
    }
  }

  /** Toggling the same id twice restores the membership of every id, and restores the list
      itself when the id was absent to begin with. */
  lemma ToggleTwice(s: seq<string>, x: string)
    ensures forall y :: y in Toggle(Toggle(s, x), x) <==> y in s
    ensures x !in s ==> Toggle(Toggle(s, x), x) == s
  {
    if x !in s {
      RemoveAppended(s, x);
    }
  }

  /** A list without duplicates has as many elements as it has distinct ids. */
  lemma {:induction false} DistinctCount(s: seq<string>)
    requires NoDup(s)
    ensures |Elems(s)| == |s|
  {
    if s != [] {
      assert Elems(s) == {s[0]} + Elems(s[1..]);
      assert s == [s[0]] + s[1..];
      NoDupCons(s[0], s[1..]);
      DistinctCount(s[1..]);
    }
  }

  /** A list without duplicates drawn from `ids` is no longer than `ids` has elements. */
  lemma DistinctBound(s: seq<string>, ids: set<string>)
    requires NoDup(s)
    requires forall y :: y in s ==> y in ids
    ensures |s| <= |ids|
  {
    DistinctCount(s);
    assert ids == Elems(s) + (ids - Elems(s));
  }
}
