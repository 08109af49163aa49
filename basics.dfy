/** Small vocabulary shared by the modules: an optional value and the
    JavaScript string tests `startsWith`, `endsWith` and `includes`. */
module Basics {

  datatype Option<T> = None | Some(value: T)

  /** `s.startsWith(prefix)` */
  predicate StartsWith(s: string, prefix: string) {
    prefix <= s
  }

  /** `s.endsWith(suffix)` */
  predicate EndsWith(s: string, suffix: string) {
    |suffix| <= |s| && s[|s| - |suffix|..] == suffix
  }

  /** `s.includes(part)`: `part` occurs somewhere in `s`. */
  predicate Contains(s: string, part: string)
    decreases |s|
  {
    StartsWith(s, part) || (|s| > 0 && Contains(s[1..], part))
  }

  /** `part` sits in `s` starting at index `i`. */
  predicate OccursAt(s: string, part: string, i: int) {
    0 <= i <= |s| - |part| && s[i..i + |part|] == part
  }

  /** Contains agrees with "some slice of `s` equals `part`". */
  lemma {:induction false} ContainsAt(s: string, part: string)
    ensures Contains(s, part) <==> exists i :: OccursAt(s, part, i)
    decreases |s|
  {
    if StartsWith(s, part) {
      assert OccursAt(s, part, 0);
    } else if |s| == 0 {
    } else {
      ContainsAt(s[1..], part);
      if exists i :: OccursAt(s, part, i) {
        var i :| OccursAt(s, part, i);
        assert i != 0;
        assert s[1..][i - 1..i - 1 + |part|] == s[i..i + |part|];
        assert OccursAt(s[1..], part, i - 1);
      }
      if Contains(s[1..], part) {
        var j :| OccursAt(s[1..], part, j);
        assert 0 <= j + 1 <= |s| - |part|;
        forall k | 0 <= k < |part| ensures s[j + 1..j + 1 + |part|][k] == part[k] {
          assert s[j + 1..j + 1 + |part|][k] == s[1..][j..j + |part|][k];
        }
        assert OccursAt(s, part, j + 1);
      }
    }
  }
}
