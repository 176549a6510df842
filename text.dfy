/**
 * The two string operations the inventory logic relies on, with JavaScript's
 * meaning: `s.includes(t)` (substring test) and the relational operators `<`
 * and `<=` on strings, which compare lexicographically. Dates are ISO strings
 * ("2026-10-15") ordered by this comparison, and `''` sorts before every date.
 */
module Text {

  /** JavaScript `s.includes(t)`: `t` occurs in `s` as a contiguous substring. */
  predicate Includes(s: string, t: string)
    decreases |s|
  {
    t <= s || (|s| > 0 && Includes(s[1..], t))
  }

  /** `t` occurs in `s` at offset `i`. */
  ghost predicate OccursAt(s: string, t: string, i: int)
  {
    0 <= i && i + |t| <= |s| && s[i..i + |t|] == t
  }

  /** `Includes` agrees with the textbook definition of a substring. */
  lemma {:induction false} IncludesIffOccurs(s: string, t: string)
    ensures Includes(s, t) <==> exists i :: OccursAt(s, t, i)
    decreases |s|
  {
    if t <= s {
      assert OccursAt(s, t, 0);
    } else if |s| == 0 {
    } else {
      IncludesIffOccurs(s[1..], t);
      if exists i :: OccursAt(s, t, i) {
        var i :| OccursAt(s, t, i);
        if i > 0 {
          assert s[1..][i - 1..i - 1 + |t|] == s[i..i + |t|];
          assert OccursAt(s[1..], t, i - 1);
        }
      }
      if exists i :: OccursAt(s[1..], t, i) {
        var i :| OccursAt(s[1..], t, i);
        assert s[1..][i..i + |t|] == s[i + 1..i + 1 + |t|];
        assert OccursAt(s, t, i + 1);
      }
    }
  }

  /** A string never includes a longer one. */
  lemma {:induction false} NoLongerSubstring(s: string, t: string)
    requires |s| < |t|
    ensures !Includes(s, t)
    decreases |s|
  {
    if |s| > 0 {
      NoLongerSubstring(s[1..], t);
    }
  }

  /** Every string includes itself and the empty string. */
  lemma IncludesSelfAndEmpty(s: string)
    ensures Includes(s, s) && Includes(s, "")
  {
  }

  /** JavaScript `a < b` on strings: lexicographic, a proper prefix is smaller. */
  predicate Less(a: string, b: string)
    decreases |a|
  {
    if |a| == 0 then |b| > 0
    else if |b| == 0 then false
    else if a[0] != b[0] then a[0] < b[0]
    else Less(a[1..], b[1..])
  }

  /** JavaScript `a <= b` on strings, which is defined as `!(b < a)`. */
  predicate AtMost(a: string, b: string)
  {
    !Less(b, a)
  }

  lemma {:induction false} LessIrreflexive(a: string)
    ensures !Less(a, a)
    decreases |a|
  {
    if |a| > 0 {
      LessIrreflexive(a[1..]);
    }
  }

  lemma {:induction false} LessTransitive(a: string, b: string, c: string)
    requires Less(a, b) && Less(b, c)
    ensures Less(a, c)
    decreases |a|
  {
    if |a| > 0 && a[0] == b[0] && b[0] == c[0] {
      LessTransitive(a[1..], b[1..], c[1..]);
    }
  }

  /** Exactly one of `a < b`, `a == b`, `b < a` holds. */
  lemma {:induction false} LessTrichotomy(a: string, b: string)
    ensures Less(a, b) || a == b || Less(b, a)
    ensures !(Less(a, b) && Less(b, a))
    decreases |a|
  {
    if |a| > 0 && |b| > 0 && a[0] == b[0] {
      LessTrichotomy(a[1..], b[1..]);
      if a[1..] == b[1..] {
        assert a == [a[0]] + a[1..] && b == [b[0]] + b[1..];
      }
    }
  }

  /** `<=` on strings is `<` or equality, as for a total order. */
  lemma AtMostIffLessOrEqual(a: string, b: string)
    ensures AtMost(a, b) <==> Less(a, b) || a == b
  {
    LessTrichotomy(a, b);
    if a == b {
      LessIrreflexive(a);
    }
  }

  /** The empty string sorts before every non-empty string (every date). */
  lemma EmptyIsLeast(s: string)
    ensures Less("", s) <==> s != ""
    ensures AtMost("", s)
  {
  }
}
