/** The string primitive the frontend relies on: JavaScript's `String.prototype.includes`. */
module Text {

  /** `s` begins with `prefix`. */
  predicate StartsWith(s: string, prefix: string)
  {
    |prefix| <= |s| && s[..|prefix|] == prefix
  }

  /** `s.includes(part)`: `part` starts at some position of `s`, found by scanning left to right. */
  predicate Contains(s: string, part: string)
    decreases |s|
  {
    StartsWith(s, part) || (|s| > 0 && Contains(s[1..], part))
  }

  /** `part` occurs in `s` starting at index `i`. */
  ghost predicate OccursAt(s: string, part: string, i: int)
  {
    0 <= i && i + |part| <= |s| && s[i..i + |part|] == part
  }

  /** When the scan succeeds, `part` occurs somewhere in `s`. */
  lemma {:induction false} ContainsSound(s: string, part: string)
    requires Contains(s, part)
    ensures exists i :: OccursAt(s, part, i)
    decreases |s|
  {
    if StartsWith(s, part) {
      assert OccursAt(s, part, 0);
    } else {
      var t := s[1..];
      ContainsSound(t, part);
      var j :| OccursAt(t, part, j);
      assert s[j + 1..j + 1 + |part|] == t[j..j + |part|];
      assert OccursAt(s, part, j + 1);
    }
  }

  /** Wherever `part` occurs, the scan reaches it. */
  lemma {:induction false} ContainsComplete(s: string, part: string, i: int)
    requires OccursAt(s, part, i)
    ensures Contains(s, part)
    decreases i
  {
    if i == 0 {
      assert StartsWith(s, part);
    } else {
      var t := s[1..];
      assert t[i - 1..i - 1 + |part|] == s[i..i + |part|];
      ContainsComplete(t, part, i - 1);
    }
  }

  /** The scan finds `part` exactly when it occurs somewhere in `s`. */
  lemma ContainsIff(s: string, part: string)
    ensures Contains(s, part) <==> exists i :: OccursAt(s, part, i)
  {
    if Contains(s, part) {
      ContainsSound(s, part);
    }
    forall i | OccursAt(s, part, i) ensures Contains(s, part) {
      ContainsComplete(s, part, i);
    }
  }

  /** A message built around `part` contains it. */
  lemma ContainsInfix(before: string, part: string, after: string)
    ensures Contains(before + part + after, part)
  {
    var s := before + part + after;
    assert s[|before|..|before| + |part|] == part;
    assert OccursAt(s, part, |before|);
    ContainsIff(s, part);
  }
}
