/** String helpers with Python's meaning. */
module Strings {
  import opened Wrappers

  /** `sub` occurs in `s` as a contiguous block (Python's `sub in s`). */
  predicate Contains(s: string, sub: string)
  {
    exists i :: 0 <= i <= |s| - |sub| && OccursAt(s, sub, i)
  }

  /** `sub` occurs in `s` starting at offset `i`. */
  predicate OccursAt(s: string, sub: string, i: int)
  {
    0 <= i && i + |sub| <= |s| && s[i..i + |sub|] == sub
  }

  /** How an f-string renders a value that may be `None`: the text itself, or "None". */
  function PyStr(o: Option<string>): string
  {
    match o
    case Some(s) => s
    case None => "None"
  }

  /** A block found at a known offset witnesses `Contains`. */
  lemma ContainsAt(s: string, sub: string, i: nat)
    requires OccursAt(s, sub, i)
    ensures Contains(s, sub)
  {
  }

  /** `sub` occurs in `p + sub` right after `p`. */
  lemma OccursAfter(p: string, sub: string)
    ensures OccursAt(p + sub, sub, |p|)
  {
  }

  /** An occurrence survives appending text after it. */
  lemma OccursAppend(s: string, sub: string, i: nat, q: string)
    requires OccursAt(s, sub, i)
    ensures OccursAt(s + q, sub, i)
  {
  }

  /** An occurrence moves right by the length of text put before it. */
  lemma OccursPrepend(p: string, s: string, sub: string, i: nat)
    requires OccursAt(s, sub, i)
    ensures OccursAt(p + s, sub, |p| + i)
  {
  }
}
