/** The built-in list removal the roster relies on: a membership test and `list.remove`. */
module Lists {

  /** Position of the first occurrence of `x` in `s`: the entry `list.remove` deletes. */
  function IndexOf<T(==)>(s: seq<T>, x: T): (i: nat)
    requires x in s
    ensures i < |s| && s[i] == x
    ensures x !in s[..i]
  {
    if s[0] == x then 0
    else
      assert s == [s[0]] + s[1..];
      var j := IndexOf(s[1..], x);
      assert s[..j + 1] == [s[0]] + s[1..][..j];
      j + 1
  }

  /** `s` without its first occurrence of `x`; `s` itself when `x` does not occur.
      This is `list.remove` guarded by a membership test. */
  function RemoveFirst<T(==)>(s: seq<T>, x: T): (r: seq<T>)
    ensures x !in s ==> r == s
    ensures x in s ==> |r| == |s| - 1
  {
    if s == [] then []
    else
      assert s == [s[0]] + s[1..];
      if s[0] == x then s[1..]
      else [s[0]] + RemoveFirst(s[1..], x)
  }

  /** Removing `x` deletes exactly the entry at its first position and keeps
      every other entry in its original relative order. */
  lemma {:induction false} RemoveFirstAt<T>(s: seq<T>, x: T)
    requires x in s
    ensures RemoveFirst(s, x) == s[..IndexOf(s, x)] + s[IndexOf(s, x) + 1..]
  {
    if s[0] != x {
      var t := s[1..];
      assert s == [s[0]] + t;
      RemoveFirstAt(t, x);
      var j := IndexOf(t, x);
      assert s[..j + 1] == [s[0]] + t[..j];
      assert s[j + 2..] == t[j + 1..];
      IndexOfAt(s, x, j + 1);
      assert RemoveFirst(s, x) == [s[0]] + (t[..j] + t[j + 1..]);
    }
  }

  /** Removing `x` takes one copy of `x` out of the entries and keeps all the others. */
  lemma {:induction false} RemoveFirstMultiset<T>(s: seq<T>, x: T)
    ensures multiset(RemoveFirst(s, x)) == multiset(s) - multiset{x}
  {
    if s != [] {
      assert s == [s[0]] + s[1..];
      if s[0] != x {
        RemoveFirstMultiset(s[1..], x);
      }
    }
  }

  /** The first occurrence is the one with no earlier occurrence before it. */
  lemma IndexOfAt<T>(s: seq<T>, x: T, i: nat)
    requires i < |s| && s[i] == x && x !in s[..i]
    ensures IndexOf(s, x) == i
  {
  }
}
