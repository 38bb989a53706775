/** The list operations the custody lists and the repository rely on:
    `ArrayList.remove(Object)`, which drops the first occurrence only. */
module Lists {

  /** The list with its first occurrence of `x` removed; the list itself when `x` is absent. */
  function RemoveFirst<T(==)>(s: seq<T>, x: T): (r: seq<T>)
    ensures x !in s ==> r == s
    ensures x in s ==> |r| == |s| - 1
  {
    if s == [] then []
    else if s[0] == x then s[1..]
    else [s[0]] + RemoveFirst(s[1..], x)
  }

  /** Removing the first occurrence takes exactly one copy of `x` out of the list's contents, none when absent. */
  lemma {:induction false} RemoveFirstMultiset<T>(s: seq<T>, x: T)
    ensures multiset(RemoveFirst(s, x)) == multiset(s) - multiset{x}
  {
    if s != [] {
      assert s == [s[0]] + s[1..];
      if s[0] != x {
        RemoveFirstMultiset(s[1..], x);
      }
    }
  }

  /** Removal happens exactly at the first index holding `x`; everything before and after it keeps its order. */
  lemma {:induction false} RemoveFirstAt<T>(s: seq<T>, x: T, i: nat)
    requires i < |s| && s[i] == x && x !in s[..i]
    ensures RemoveFirst(s, x) == s[..i] + s[i + 1..]
  {
    if i > 0 {
      var t := s[1..];
      assert s[..i] == [s[0]] + t[..i - 1];
      RemoveFirstAt(t, x, i - 1);
      assert t[i..] == s[i + 1..];
    }
  }

  /** Appending `x` and then removing one `x`: the list is restored when `x` was absent,
      otherwise the earlier copy goes and the appended one stays at the end. */
  lemma {:induction false} AppendThenRemove<T>(s: seq<T>, x: T)
    ensures x !in s ==> RemoveFirst(s + [x], x) == s
    ensures x in s ==> RemoveFirst(s + [x], x) == RemoveFirst(s, x) + [x]
  {
    if s != [] {
      assert (s + [x])[1..] == s[1..] + [x];
      AppendThenRemove(s[1..], x);
      assert x in s && s[0] != x ==> x in s[1..];
    }
  }

  /** The copy appended and then removed again leaves `x` in the list exactly when it was there before. */
  lemma AppendThenRemoveKeeps<T>(s: seq<T>, x: T)
    ensures x in RemoveFirst(s + [x], x) <==> x in s
  {
    AppendThenRemove(s, x);
    if x in s {
      assert RemoveFirst(s + [x], x)[|RemoveFirst(s, x)|] == x;
    }
  }
}
