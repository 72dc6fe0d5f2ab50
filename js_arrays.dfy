/** The pieces of ECMAScript array behaviour the renderer hub's `off` relies on:
    `indexOf`, the unsigned shift `>>> 0`, and `splice` with its clamping of
    the start index. A JavaScript array is modelled by the sequence of its
    elements. */
module JsArrays {

  /** 2^32, the modulus of ECMAScript ToUint32. */
  const Uint32Modulus: nat := 0x1_0000_0000

  /** 2^32 - 1, the largest length an ECMAScript array can have. */
  const MaxArrayLength: nat := 0xFFFF_FFFF

  /** `x >>> 0` on an integer-valued number: ECMAScript ToUint32, reduction modulo 2^32.
      Dafny's `%` is Euclidean, which is the ToUint32 reduction for negative `x` too. */
  function ToUint32(x: int): (r: nat)
    ensures r < Uint32Modulus
    ensures 0 <= x < Uint32Modulus ==> r == x
    ensures -(Uint32Modulus as int) <= x < 0 ==> r == x + Uint32Modulus
  {
    x % Uint32Modulus
  }

  /** `s.indexOf(h)`: the position of the first element equal to `h`, or -1. */
  function IndexOf<T(==)>(s: seq<T>, h: T): (r: int)
    ensures -1 <= r < |s|
    ensures r == -1 <==> h !in s
    ensures 0 <= r ==> s[r] == h && forall j :: 0 <= j < r ==> s[j] != h
    decreases |s|
  {
    if s == [] then -1
    else if s[0] == h then 0
    else
      var k := IndexOf(s[1..], h);
      if k == -1 then -1 else k + 1
  }

  /** The array left by `s.splice(start, deleteCount)` (its return value, the removed
      elements, is not used by the hubs). A negative start counts from the end; a start
      past the end is clamped to the length, so nothing is removed there. */
  function Splice<T>(s: seq<T>, start: int, deleteCount: int): (r: seq<T>)
    ensures start >= |s| ==> r == s
    ensures deleteCount <= 0 ==> r == s
    ensures 0 <= start < |s| && deleteCount == 1 ==> r == s[..start] + s[start + 1..]
    ensures |r| <= |s|
  {
    var actualStart := if start < 0 then (if |s| + start < 0 then 0 else |s| + start)
                       else if start < |s| then start else |s|;
    var room := |s| - actualStart;
    var actualDelete := if deleteCount < 0 then 0 else if deleteCount < room then deleteCount else room;
    s[..actualStart] + s[actualStart + actualDelete..]
  }

  /** Reference definition of "remove the first element equal to `h`", written
      independently of indexes. */
  function RemoveFirst<T(==)>(s: seq<T>, h: T): seq<T>
    decreases |s|
  {
    if s == [] then []
    else if s[0] == h then s[1..]
    else [s[0]] + RemoveFirst(s[1..], h)
  }

  /** Removing the first `h` from a list without `h` leaves it as it is. */
  lemma {:induction false} RemoveFirstAbsent<T>(s: seq<T>, h: T)
    requires h !in s
    ensures RemoveFirst(s, h) == s
    decreases |s|
  {
    if s != [] {
      assert s[0] != h && h !in s[1..];
      RemoveFirstAbsent(s[1..], h);
      assert [s[0]] + s[1..] == s;
    }
  }

  /** When `i` is the first position holding `h`, removing the first `h` drops exactly
      position `i`, keeping the order of everything else. */
  lemma {:induction false} RemoveFirstAt<T>(s: seq<T>, h: T, i: nat)
    requires i < |s| && s[i] == h
    requires forall j :: 0 <= j < i ==> s[j] != h
    ensures RemoveFirst(s, h) == s[..i] + s[i + 1..]
    decreases i
  {
    if i > 0 {
      var tail := s[1..];
      assert tail[i - 1] == h;
      assert forall j :: 0 <= j < i - 1 ==> tail[j] == s[j + 1];
      RemoveFirstAt(tail, h, i - 1);
      assert [s[0]] + tail[..i - 1] == s[..i];
      assert tail[i..] == s[i + 1..];
    }
  }

  /** Removing the first occurrence takes exactly one copy of `h` away (if there is one)
      and leaves the multiplicity of every other element unchanged. */
  lemma {:induction false} RemoveFirstMultiset<T>(s: seq<T>, h: T)
    ensures multiset(RemoveFirst(s, h)) == if h in s then multiset(s) - multiset{h} else multiset(s)
    decreases |s|
  {
    if s != [] {
      assert s == [s[0]] + s[1..];
      if s[0] != h {
        RemoveFirstMultiset(s[1..], h);
        assert h in s <==> h in s[1..];
      }
    }
  }

  /** The removal expression of the renderer hub's `off`,
      `s.splice(s.indexOf(h) >>> 0, 1)`, removes exactly the first occurrence of `h`,
      and is a no-op when `h` is absent: `-1 >>> 0` is 2^32 - 1, which is never below
      the length of an ECMAScript array, so `splice` clamps it to the end. */
  lemma SpliceIndexOfRemovesFirst<T>(s: seq<T>, h: T)
    requires |s| <= MaxArrayLength
    ensures Splice(s, ToUint32(IndexOf(s, h)), 1) == RemoveFirst(s, h)
    ensures h !in s ==> Splice(s, ToUint32(IndexOf(s, h)), 1) == s
  {
    var i := IndexOf(s, h);
    var start := ToUint32(i);
    if h in s {
      assert 0 <= i < Uint32Modulus;
      assert start == i;
      RemoveFirstAt(s, h, i);
    } else {
      assert i == -1;
      assert start == MaxArrayLength;
      RemoveFirstAbsent(s, h);
    }
  }

  /** The no-op for an absent handler rests on the array length limit: in a sequence
      longer than 2^32 - 1 the same expression would remove the element at 2^32 - 1
      even though `h` is not there. */
  lemma SpliceIndexOfPastArrayLimit<T>(s: seq<T>, h: T)
    requires |s| > MaxArrayLength && h !in s
    ensures Splice(s, ToUint32(IndexOf(s, h)), 1) == s[..MaxArrayLength] + s[MaxArrayLength + 1..]
    ensures |Splice(s, ToUint32(IndexOf(s, h)), 1)| == |s| - 1
  {
  }

  /** Appending `h` and then removing the first `h` gives back the original list only
      when `h` was not already there; otherwise it is an EARLIER copy that goes, and
      the new one stays at the end. */
  lemma {:induction false} AppendThenRemoveFirst<T>(s: seq<T>, h: T)
    ensures RemoveFirst(s + [h], h) == if h in s then RemoveFirst(s, h) + [h] else s
    decreases |s|
  {
    var t := s + [h];
    if s == [] {
      assert t == [h];
    } else if s[0] == h {
      assert t[0] == h && t[1..] == s[1..] + [h];
    } else {
      assert t[0] == s[0] && t[1..] == s[1..] + [h];
      AppendThenRemoveFirst(s[1..], h);
      assert h in s <==> h in s[1..];
      if h in s[1..] {
        calc {
          RemoveFirst(t, h);
          [s[0]] + RemoveFirst(s[1..] + [h], h);
          [s[0]] + (RemoveFirst(s[1..], h) + [h]);
          ([s[0]] + RemoveFirst(s[1..], h)) + [h];
          RemoveFirst(s, h) + [h];
        }
      } else {
        assert RemoveFirst(t, h) == [s[0]] + s[1..];
        assert s == [s[0]] + s[1..];
      }
    }
  }
}
