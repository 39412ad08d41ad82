/** Small shared vocabulary: optional values (Kotlin's nullable references),
    duplicate-freedom of a list, and removal of the first occurrence of an
    element (Kotlin's `MutableList.remove`). */
module Base {

  /** A nullable reference: `None` plays the role of Kotlin's `null`. */
  datatype Option<+T> = None | Some(value: T)

  /** No element occurs twice. */
  predicate NoDup<T(==)>(s: seq<T>) {
    forall i, j :: 0 <= i < j < |s| ==> s[i] != s[j]
  }

  /** The tail of a duplicate-free list is duplicate-free and lacks the head. */
  lemma NoDupTail<T>(s: seq<T>)
    requires |s| > 0
    ensures NoDup(s) ==> s[0] !in s[1..] && NoDup(s[1..])
  {
    if NoDup(s) {
      forall k | 0 <= k < |s[1..]| ensures s[1..][k] != s[0] {
        assert s[1..][k] == s[k + 1];
      }
      forall a, b | 0 <= a < b < |s[1..]| ensures s[1..][a] != s[1..][b] {
        assert s[1..][a] == s[a + 1] && s[1..][b] == s[b + 1];
      }
    }
  }

  /** Appending a new element keeps a list duplicate-free. */
  lemma NoDupAppend<T>(s: seq<T>, x: T)
    requires NoDup(s) && x !in s
    ensures NoDup(s + [x])
  {
    forall i, j | 0 <= i < j < |s + [x]| ensures (s + [x])[i] != (s + [x])[j] {
      assert (s + [x])[i] == s[i];
      if j < |s| {
        assert (s + [x])[j] == s[j];
      }
    }
  }

  /** Position of the first occurrence of `x` in `s`. */
  function IndexOf<T(==)>(s: seq<T>, x: T): (i: nat)
    requires x in s
    ensures i < |s| && s[i] == x && x !in s[..i]
  {
    if s[0] == x then 0
    else
      var k := IndexOf(s[1..], x);
      assert s[..k + 1] == [s[0]] + s[1..][..k];
      k + 1
  }

  /** `MutableList.remove(x)`: drops the first element equal to `x`, if any,
      and keeps the order of the rest. */
  function RemoveFirst<T(==)>(s: seq<T>, x: T): (r: seq<T>)
    ensures x !in s ==> r == s
    ensures x in s ==> |r| == |s| - 1 && multiset(r) == multiset(s) - multiset{x}
    ensures x in s ==> forall k :: 0 <= k < IndexOf(s, x) ==> r[k] == s[k]
    ensures x in s ==> forall k :: IndexOf(s, x) <= k < |r| ==> r[k] == s[k + 1]
  {
    if x in s then
      var i := IndexOf(s, x);
      assert s == s[..i] + [x] + s[i + 1..];
      s[..i] + s[i + 1..]
    else s
  }

  /** Position `k` of a list with position `i` cut out. */
  lemma CutIndex<T>(s: seq<T>, i: nat, k: nat)
    requires i < |s| && k < |s| - 1
    ensures (s[..i] + s[i + 1..])[k] == s[if k < i then k else k + 1]
  {
  }

  /** Removing an element from a duplicate-free list leaves exactly the
      other elements. */
  lemma RemoveFirstMembers<T>(s: seq<T>, x: T)
    requires NoDup(s)
    ensures forall y :: y in RemoveFirst(s, x) <==> y in s && y != x
  {
    RemoveFirstNoDup(s, x);
    if x in s {
      var i := IndexOf(s, x);
      var r := s[..i] + s[i + 1..];
      assert RemoveFirst(s, x) == r;
      forall y | y in s && y != x ensures y in r {
        var j :| 0 <= j < |s| && s[j] == y;
        var k := if j < i then j else j - 1;
        CutIndex(s, i, k);
        assert r[k] == y;
      }
    }
  }

  /** Removing an element from a duplicate-free list removes it entirely. */
  lemma RemoveFirstNoDup<T>(s: seq<T>, x: T)
    requires NoDup(s)
    ensures NoDup(RemoveFirst(s, x))
    ensures x !in RemoveFirst(s, x)
  {
    if x in s {
      var i := IndexOf(s, x);
      var r := s[..i] + s[i + 1..];
      assert RemoveFirst(s, x) == r;
      forall a, b | 0 <= a < b < |r| ensures r[a] != r[b] {
        CutIndex(s, i, a);
        CutIndex(s, i, b);
      }
      forall k | 0 <= k < |r| ensures r[k] != x {
        CutIndex(s, i, k);
      }
    }
  }
}

/** Kotlin's `String.contains`, `String.endsWith` and `String.removeSuffix`,
    on strings as sequences of characters. */
module Text {

  /** `s.contains(sub)`: `sub` occurs somewhere in `s`. */
  predicate Contains(s: string, sub: string) {
    exists i | 0 <= i <= |s| :: sub <= s[i..]
  }

  /** `s.endsWith(suffix)`. */
  predicate EndsWith(s: string, suffix: string) {
    |suffix| <= |s| && s[|s| - |suffix|..] == suffix
  }

  /** `s.removeSuffix(suffix)`: strips `suffix` once when `s` ends with it,
      and returns `s` itself otherwise. */
  function RemoveSuffix(s: string, suffix: string): (r: string)
    ensures EndsWith(s, suffix) ==> r + suffix == s
    ensures !EndsWith(s, suffix) ==> r == s
  {
    if EndsWith(s, suffix) then s[..|s| - |suffix|] else s
  }

  /** A string that ends with `suffix` contains it, so a string that does not
      contain `suffix` comes back from `RemoveSuffix` unchanged. */
  lemma EndsWithContains(s: string, suffix: string)
    requires EndsWith(s, suffix)
    ensures Contains(s, suffix)
  {
    assert suffix <= s[|s| - |suffix|..];
  }

  /** Appending a suffix and stripping it again gives back the original. */
  lemma StripAppended(t: string, suffix: string)
    ensures Contains(t + suffix, suffix)
    ensures RemoveSuffix(t + suffix, suffix) == t
  {
    assert (t + suffix)[|t|..] == suffix;
    assert (t + suffix)[..|t|] == t;
  }

  /** A string free of `sub` has no occurrence of `sub` early enough to lie
      inside it, whatever is appended after it. */
  lemma NoOccurrenceInPrefix(t: string, u: string, sub: string, i: int)
    requires !Contains(t, sub)
    requires 0 <= i && i + |sub| <= |t|
    ensures !(sub <= (t + u)[i..])
  {
    assert !(sub <= t[i..]);
    assert (t + u)[i..i + |sub|] == t[i..i + |sub|];
  }

  /** A title free of "_close" stays free of it once "_resize" is appended:
      the only places where "_close" could straddle the join are ruled out
      character by character. */
  lemma ResizeTitleHasNoClose(t: string)
    requires !Contains(t, "_close")
    ensures !Contains(t + "_resize", "_close")
  {
    var s := t + "_resize";
    var n := |t|;
    forall i | 0 <= i <= |s| ensures !("_close" <= s[i..]) {
      if i + 6 <= n {
        NoOccurrenceInPrefix(t, "_resize", "_close", i);
      } else if i + 6 <= |s| {
        var k := i + 5 - n;
        assert s[i + 5] == "_resize"[k];
        if k == 2 {
          assert s[i + 3] == '_';
        } else if k == 6 {
          assert s[i] == 'r';
        } else {
          assert s[i + 5] != 'e';
        }
      }
    }
  }

  /** A title free of "_resize" stays free of it once "_close" is appended. */
  lemma CloseTitleHasNoResize(t: string)
    requires !Contains(t, "_resize")
    ensures !Contains(t + "_close", "_resize")
  {
    var s := t + "_close";
    var n := |t|;
    forall i | 0 <= i <= |s| ensures !("_resize" <= s[i..]) {
      if i + 7 <= n {
        NoOccurrenceInPrefix(t, "_close", "_resize", i);
      } else if i + 7 <= |s| {
        var k := i + 6 - n;
        assert s[i + 6] == "_close"[k];
        if k == 5 {
          assert s[i + 1] == '_';
        } else {
          assert s[i + 6] != 'e';
        }
      }
    }
  }
}
