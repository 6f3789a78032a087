/**
 * The list arithmetic behind the whitelist handlers. Adding is plain
 * sequence concatenation (order kept, duplicates kept); removing keeps every
 * entry whose value does not occur in the removal list, as `Vec::retain`
 * with a `contains` test does.
 */
module Whitelist {

  /** `s` is obtained from `t` by deleting zero or more entries. */
  ghost predicate IsSubsequence<T>(s: seq<T>, t: seq<T>)
    decreases |t|
  {
    if t == [] then s == []
    else IsSubsequence(s, t[1..]) || (s != [] && s[0] == t[0] && IsSubsequence(s[1..], t[1..]))
  }

  /** The entries of `entries` whose value is not in `removed`, in their original order. */
  function Without(entries: seq<string>, removed: seq<string>): (r: seq<string>)
    ensures |r| <= |entries|
    ensures forall x :: x in r ==> x in entries && x !in removed
  {
    if entries == [] then []
    else if entries[0] in removed then Without(entries[1..], removed)
    else [entries[0]] + Without(entries[1..], removed)
  }

  /** Removal keeps the survivors in their original order. */
  lemma {:induction false} WithoutIsSubsequence(entries: seq<string>, removed: seq<string>)
    ensures IsSubsequence(Without(entries, removed), entries)
  {
    if entries != [] {
      WithoutIsSubsequence(entries[1..], removed);
      if entries[0] !in removed {
        var r := Without(entries, removed);
        assert r[1..] == Without(entries[1..], removed);
      }
    }
  }

  /**
   * Every value in the removal list disappears entirely, and every other
   * value keeps exactly the number of occurrences it had.
   */
  lemma {:induction false} WithoutMultiplicity(entries: seq<string>, removed: seq<string>, x: string)
    ensures multiset(Without(entries, removed))[x] == if x in removed then 0 else multiset(entries)[x]
  {
    if entries != [] {
      WithoutMultiplicity(entries[1..], removed, x);
      assert entries == [entries[0]] + entries[1..];
    }
  }

  /** Removing values of which none is present changes nothing. */
  lemma {:induction false} WithoutAbsent(entries: seq<string>, removed: seq<string>)
    requires forall x :: x in removed ==> x !in entries
    ensures Without(entries, removed) == entries
  {
    if entries != [] {
      assert entries[0] in entries;
      WithoutAbsent(entries[1..], removed);
    }
  }

  /** Removing every value that is present empties the list. */
  lemma {:induction false} WithoutCovered(entries: seq<string>, removed: seq<string>)
    requires forall x :: x in entries ==> x in removed
    ensures Without(entries, removed) == []
  {
    if entries != [] {
      assert entries[0] in entries;
      WithoutCovered(entries[1..], removed);
    }
  }

  /** Applying the same removal twice is the same as applying it once. */
  lemma {:induction false} WithoutIdempotent(entries: seq<string>, removed: seq<string>)
    ensures Without(Without(entries, removed), removed) == Without(entries, removed)
  {
    WithoutAbsent(Without(entries, removed), removed);
  }

  /** Removal distributes over concatenation. */
  lemma {:induction false} WithoutAppend(front: seq<string>, back: seq<string>, removed: seq<string>)
    ensures Without(front + back, removed) == Without(front, removed) + Without(back, removed)
  {
    if front != [] {
      assert (front + back)[1..] == front[1..] + back;
      WithoutAppend(front[1..], back, removed);
    } else {
      assert front + back == back;
    }
  }

  /**
   * Removing the very addresses just added, none of which was listed before,
   * restores the previous whitelist: removal undoes addition.
   */
  lemma {:induction false} WithoutUndoesAppend(entries: seq<string>, added: seq<string>)
    requires forall x :: x in added ==> x !in entries
    ensures Without(entries + added, added) == entries
  {
    WithoutAppend(entries, added, added);
    WithoutAbsent(entries, added);
    WithoutCovered(added, added);
    assert Without(entries, added) + [] == entries;
  }
}
