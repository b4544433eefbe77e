/** Rust's unsigned 32-bit integer, shared by both exercises. */
module Integers {

  const U32_MAX: int := 0xFFFF_FFFF

  newtype u32 = x: int | 0 <= x <= U32_MAX
}

/** Traffic-light durations: a total lookup from each light to a fixed number of seconds. */
module Traffic {
  import opened Integers

  const RED_TIME: u32 := 20
  const GREEN_TIME: u32 := 10
  const YELLOW_TIME: u32 := 5

  datatype TrafficLight = Red | Green | Yellow

  /** How long a light stays on. Every light has a positive duration, red is the
      longest, and no two lights share a duration. */
  function Time(light: TrafficLight): (t: u32)
    ensures t == RED_TIME || t == GREEN_TIME || t == YELLOW_TIME
    ensures 0 < t <= RED_TIME
    ensures t == RED_TIME <==> light == Red
    ensures t == YELLOW_TIME <==> light == Yellow
  {
    match light
    case Red => RED_TIME
    case Green => GREEN_TIME
    case Yellow => YELLOW_TIME
  }

  /** The three expected values the program checks for each light. */
  lemma TimeValues()
    ensures Time(Red) == 20 && Time(Green) == 10 && Time(Yellow) == 5
  {
  }
}

/** Summation of unsigned 32-bit values that gives up on an element equal to u32::MAX. */
module CheckedSum {
  import opened Integers

  datatype Option<T> = None | Some(value: T)

  /** The arithmetic (unbounded) total of the elements, added left to right. */
  function Total(s: seq<u32>): nat
  {
    if s == [] then 0 else Total(s[..|s| - 1]) + s[|s| - 1] as nat
  }

  /** The index of the first element equal to u32::MAX, or |s| when there is none. */
  function FirstMax(s: seq<u32>): (i: nat)
    ensures i <= |s|
    ensures forall j :: 0 <= j < i ==> s[j] != U32_MAX as u32
    ensures i < |s| ==> s[i] == U32_MAX as u32
  {
    if s == [] then 0
    else if s[0] == U32_MAX as u32 then 0
    else 1 + FirstMax(s[1..])
  }

  /** The running total never exceeds u32::MAX before the loop returns: the addition
      in the loop body is unchecked, so this is what a caller must guarantee. */
  predicate NoOverflow(s: seq<u32>)
  {
    Total(s[..FirstMax(s)]) <= U32_MAX
  }

  /** What summing should give: None exactly when some element is u32::MAX,
      otherwise the total of all the elements. */
  function Expected(s: seq<u32>): (r: Option<u32>)
    requires NoOverflow(s)
    ensures r.None? <==> exists i :: 0 <= i < |s| && s[i] == U32_MAX as u32
    ensures r.Some? ==> r.value as int == Total(s)
  {
    if FirstMax(s) < |s| then None
    else
      assert s[..FirstMax(s)] == s;
      Some(Total(s) as u32)
  }

  /** Appending one element adds it to the total. */
  lemma {:induction false} TotalSnoc(s: seq<u32>, i: nat)
    requires i < |s|
    ensures Total(s[..i + 1]) == Total(s[..i]) + s[i] as nat
  {
    assert s[..i + 1][..i] == s[..i];
  }

  /** A longer prefix never has a smaller total, the elements being unsigned. */
  lemma {:induction false} TotalPrefixMonotone(s: seq<u32>, i: nat, j: nat)
    requires i <= j <= |s|
    ensures Total(s[..i]) <= Total(s[..j])
    decreases j - i
  {
    if i < j {
      TotalPrefixMonotone(s, i, j - 1);
      TotalSnoc(s, j - 1);
    }
  }

  /** Sums the slice element by element, returning None as soon as an element is u32::MAX. */
  method Sum(list: seq<u32>) returns (r: Option<u32>)
    requires NoOverflow(list)
    ensures r == Expected(list)
  {
    var sum: u32 := 0;
    var i := 0;
    while i < |list|
      invariant 0 <= i <= |list|
      invariant i <= FirstMax(list)
      invariant sum as int == Total(list[..i])
    {
      if list[i] >= U32_MAX as u32 {
        return None;
      }
      TotalSnoc(list, i);
      TotalPrefixMonotone(list, i + 1, FirstMax(list));
      sum := sum + list[i];
      i := i + 1;
    }
    assert list[..i] == list;
    return Some(sum);
  }

  /** The empty slice sums to zero. */
  lemma SumEmpty()
    ensures NoOverflow([]) && Expected([]) == Some(0)
  {
  }

  /** The program's own check: `[1, u32::MAX]` sums to None. */
  lemma SumOneAndMax()
    ensures NoOverflow([1, U32_MAX as u32]) && Expected([1, U32_MAX as u32]) == None
  {
  }
}
