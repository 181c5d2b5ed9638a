/**
 * The selection: a JavaScript `Set` of product-id strings. A `Set` remembers the order in
 * which its members were added, and `[...selectedIds]` (the persisted snapshot) lists them in
 * that order, so the set is modelled as a sequence without duplicates.
 */
module Selection {
  import opened Seqs

  ghost predicate NoDuplicates(s: seq<string>) {
    forall i, j :: 0 <= i < j < |s| ==> s[i] != s[j]
  }

  /** `Set.prototype.delete`: removes `x`, keeping the other members in order. */
  function Removed(s: seq<string>, x: string): (r: seq<string>)
    ensures |r| <= |s|
    ensures forall y :: y in r <==> y in s && y != x
    ensures r == Filter(s, y => y != x)
    ensures x !in s ==> r == s
    ensures NoDuplicates(s) ==> NoDuplicates(r)
  {
    if s == [] then []
    else
      var rest := Removed(s[1..], x);
      if s[0] == x then rest
      else
        assert NoDuplicates(s) ==> s[0] !in s[1..] && NoDuplicates(s[1..]);
        [s[0]] + rest
  }

  /** `toggleSelection`: deletes `x` when present, adds it at the end otherwise. */
  function Toggled(s: seq<string>, x: string): (r: seq<string>)
    ensures x in r <==> x !in s
    ensures forall y :: y != x ==> (y in r <==> y in s)
    ensures NoDuplicates(s) ==> NoDuplicates(r)
  {
    if x in s then Removed(s, x) else s + [x]
  }

  /** `new Set(array)`: keeps the first occurrence of each element, in order. */
  function FromArray(a: seq<string>): (r: seq<string>)
    ensures NoDuplicates(r)
    ensures forall y :: y in r <==> y in a
    ensures NoDuplicates(a) ==> r == a
    decreases |a|
  {
    if a == [] then []
    else
      var init := a[..|a| - 1];
      var last := a[|a| - 1];
      assert a == init + [last];
      var r := FromArray(init);
      if last in r then r else r + [last]
  }

  /** Toggling the same id twice restores the membership of every id. */
  lemma ToggleTwiceMembership(s: seq<string>, x: string, y: string)
    ensures y in Toggled(Toggled(s, x), x) <==> y in s
  {
  }

  /** Removing the id that was just appended gives the sequence back. */
  lemma {:induction false} RemovedAppended(s: seq<string>, x: string)
    requires x !in s
    ensures Removed(s + [x], x) == s
  {
    if s != [] {
      assert (s + [x])[1..] == s[1..] + [x];
      RemovedAppended(s[1..], x);
    }
  }

  /** Toggling an absent id twice restores the set exactly, including its order. */
  lemma ToggleTwiceAbsent(s: seq<string>, x: string)
    requires x !in s
    ensures Toggled(Toggled(s, x), x) == s
  {
    RemovedAppended(s, x);
  }

  /** Toggling a present id twice moves it to the end: the order of the persisted snapshot changes. */
  lemma ToggleTwiceReorders(s: seq<string>, x: string)
    requires x in s
    ensures Toggled(Toggled(s, x), x) == Removed(s, x) + [x]
  {
  }
}
