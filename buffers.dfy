/** What the offline converters share: Python list indexing and slicing, and
    the `std::vector` buffers they refill before committing an entry of an
    output tree. */
module Buffers {
  import opened Base

  function Min(a: int, b: int): int {
    if a <= b then a else b
  }

  /** `lst[index]` on a list of length `n`: a negative index counts from the
      end, anything else out of range raises IndexError. */
  function PyIndex(n: nat, index: int): (r: Option<nat>)
    ensures r.Some? <==> -(n as int) <= index < n
    ensures r.Some? ==> r.value < n && (if index >= 0 then r.value == index else r.value == n + index)
  {
    if 0 <= index < n then Some(index)
    else if -(n as int) <= index < 0 then Some(n + index)
    else None
  }

  /** `s[a:b]` for non-negative bounds: out-of-range bounds are clamped. */
  function Slice<T>(s: seq<T>, a: nat, b: nat): (r: seq<T>)
    ensures |r| == if a <= b && a <= |s| then Min(b, |s|) - a else 0
    ensures forall k :: 0 <= k < |r| ==> r[k] == s[a + k]
  {
    if a <= b && a <= |s| then s[a..Min(b, |s|)] else []
  }

  /** `s[:-n]` for `n > 0`: everything but the last `n` elements. */
  function ButLast<T>(s: seq<T>, n: nat): (r: seq<T>)
    requires n > 0
    ensures |r| == if |s| > n then |s| - n else 0
    ensures r <= s
  {
    if |s| > n then s[..|s| - n] else []
  }

  /** An emptied vector after `for w in range(length): vec.push_back(data[w])`:
      the first `length` values of `data`, or all of them when `data[w]` ran
      past its end. */
  function Pushed<T>(data: seq<T>, length: int): (r: seq<T>)
    ensures |r| == if length <= 0 then 0 else Min(length, |data|)
    ensures r <= data
  {
    if length <= 0 then [] else data[..Min(length, |data|)]
  }

  /** The exception that loop raises: IndexError once `w` reaches `len(data)`. */
  function PushFault<T>(data: seq<T>, length: int): (f: Option<Fault>)
    ensures f.None? <==> length <= |data|
  {
    if length > |data| then Some(IndexError) else None
  }

  /** The push loop of `setChannel` and `setTrigger`, on a vector just
      cleared. */
  method Push<T>(data: seq<T>, length: int) returns (vec: seq<T>, fault: Option<Fault>)
    ensures vec == Pushed(data, length) && fault == PushFault(data, length)
  {
    vec := [];
    var w := 0;
    while w < length
      invariant 0 <= w <= |data| && (w <= length || w == 0)
      invariant vec == data[..w]
    {
      if w >= |data| {
        return vec, Some(IndexError);
      }
      vec := vec + [data[w]];
      w := w + 1;
    }
    return vec, None;
  }

  /** A vector refilled with at least `length` values holds exactly the first
      `length` of them, and the loop raises nothing. */
  lemma PushedWhole<T>(data: seq<T>, length: nat)
    requires length <= |data|
    ensures Pushed(data, length) == data[..length] && PushFault(data, length).None?
  {
  }

  /** `n` empty vectors. */
  function Empties<T>(n: nat): (r: seq<seq<T>>)
    ensures |r| == n && forall k :: 0 <= k < n ==> r[k] == []
  {
    seq(n, _ => [])
  }
}
