/** Small value types and string helpers shared by the server, bot and client models. */
module Common {

  /** Python's `None` / a JavaScript `null`, or a value. */
  datatype Option<+T> = None | Some(value: T)

  /** A call that either returns a value or raises an exception carrying a message. */
  datatype Result<+T, +E> = Ok(value: T) | Err(error: E)

  /** Truthiness of an optional string in Python and JavaScript alike: present and non-empty. */
  predicate Truthy(s: Option<string>)
  {
    s.Some? && s.value != ""
  }

  /** Glues a sequence of strings together, left to right. */
  function Concat(parts: seq<string>): (r: string)
    ensures |parts| == 1 ==> r == parts[0]
  {
    if parts == [] then "" else Concat(parts[..|parts| - 1]) + parts[|parts| - 1]
  }

  lemma ConcatAppend(parts: seq<string>, last: string)
    ensures Concat(parts + [last]) == Concat(parts) + last
  {
    assert (parts + [last])[..|parts|] == parts;
  }

  /** `sub` occurs in `s` as a contiguous block (Python's `sub in s`). */
  predicate ContainsSub(s: string, sub: string)
  {
    exists i :: 0 <= i <= |s| - |sub| && OccursAt(s, sub, i)
  }

  /** Text found in `s` is still found once more text follows. */
  lemma ContainsSubGrows(s: string, t: string)
    ensures forall sub :: ContainsSub(s, sub) ==> ContainsSub(s + t, sub)
  {
    forall sub | ContainsSub(s, sub) ensures ContainsSub(s + t, sub) {
      var i :| 0 <= i <= |s| - |sub| && OccursAt(s, sub, i);
      assert (s + t)[i..i + |sub|] == s[i..i + |sub|];
      assert OccursAt(s + t, sub, i);
    }
  }

  /** Regrouping a concatenation of three sequences. */
  lemma AppendAssoc<T>(x: seq<T>, y: seq<T>, z: seq<T>)
    ensures (x + y) + z == x + (y + z)
  {
  }

  /** `sub` starts at position `i` of `s`. */
  predicate OccursAt(s: string, sub: string, i: int)
  {
    0 <= i <= |s| - |sub| && s[i..i + |sub|] == sub
  }
}
