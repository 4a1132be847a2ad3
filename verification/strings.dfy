/** Text helpers for the header parse and the permission-name filters.
    Strings are sequences of Unicode scalar values, so `|s|` is the rune count
    that the request validator's `min=6` measures. */
module Strings {

  /** Maps an ASCII upper-case letter to its lower-case form; every other character is kept. */
  function LowerAscii(c: char): char
  {
    if 'A' <= c <= 'Z' then (c as int + 32) as char else c
  }

  /** Case-insensitive equality. Against a word made of the letters b, e, a, r this agrees
      with Unicode simple case folding: no non-ASCII rune folds onto those letters. */
  function EqualFold(a: string, b: string): (r: bool)
    ensures r <==> |a| == |b| && forall i :: 0 <= i < |a| ==>
      || a[i] == b[i]
      || ('A' <= a[i] <= 'Z' && b[i] as int == a[i] as int + 32)
      || ('A' <= b[i] <= 'Z' && a[i] as int == b[i] as int + 32)
  {
    |a| == |b| && forall i :: 0 <= i < |a| ==> LowerAscii(a[i]) == LowerAscii(b[i])
  }

  /** The index of the first occurrence of `c` in `s` at or after `from`, or `|s|` when there is none. */
  function IndexOf(s: string, c: char, from: nat): (i: nat)
    requires from <= |s|
    decreases |s| - from
    ensures from <= i <= |s|
    ensures i < |s| ==> s[i] == c
    ensures forall j :: from <= j < i ==> s[j] != c
  {
    if from == |s| then |s|
    else if s[from] == c then from
    else IndexOf(s, c, from + 1)
  }

  /** SQL `LIKE '%' + suffix`: the string ends with `suffix`. */
  function HasSuffix(s: string, suffix: string): (r: bool)
    ensures r <==> exists head :: head + suffix == s
  {
    assert forall head :: head + suffix == s ==> |suffix| <= |s| && s[|s| - |suffix|..] == suffix by {
      forall head | head + suffix == s ensures |suffix| <= |s| && s[|s| - |suffix|..] == suffix {
        assert s[|head|..] == suffix;
      }
    }
    if |suffix| <= |s| && s[|s| - |suffix|..] == suffix then
      assert s[..|s| - |suffix|] + suffix == s;
      true
    else false
  }
}
