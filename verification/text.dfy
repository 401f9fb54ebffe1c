/** Character classes, Python's `split` on a separator, and SQL's LIKE
    pattern matching, over ASCII text. */
module Text {

  predicate IsDigit(c: char) { '0' <= c <= '9' }

  predicate IsAlnum(c: char) { IsDigit(c) || 'a' <= c <= 'z' || 'A' <= c <= 'Z' }

  /** Python's `str.isdigit` / `str.isalnum` scan: true of a NON-EMPTY string whose
      every character passes `p`. */
  function NonEmptyAll(s: string, p: char -> bool): (b: bool)
    ensures b <==> |s| > 0 && forall i :: 0 <= i < |s| ==> p(s[i])
  {
    |s| > 0 && p(s[0]) && (|s| == 1 || NonEmptyAll(s[1..], p))
  }

  function Lower(c: char): char
  {
    if 'A' <= c <= 'Z' then (c as int - 'A' as int + 'a' as int) as char else c
  }

  function LowerStr(s: string): (r: string)
    ensures |r| == |s|
    ensures forall i :: 0 <= i < |s| ==> r[i] == Lower(s[i])
  {
    seq(|s|, i requires 0 <= i < |s| => Lower(s[i]))
  }

  /** `s.split(sep)[-1]`: the part of `s` after its last `sep` (all of `s` if there is none). */
  function AfterLast(s: string, sep: char): (r: string)
    ensures |r| <= |s| && r == s[|s| - |r|..]
    ensures sep !in r
    ensures |r| < |s| ==> s[|s| - |r| - 1] == sep
  {
    if |s| == 0 then []
    else if s[|s| - 1] == sep then []
    else AfterLast(s[..|s| - 1], sep) + [s[|s| - 1]]
  }

  /** `q` occurs in `t` as a contiguous substring. */
  predicate Contains(t: string, q: string)
  {
    exists i :: 0 <= i <= |t| && q <= t[i..]
  }

  predicate NoWildcards(q: string) { '%' !in q && '_' !in q }

  /** SQL `t LIKE p`: `%` matches any run of characters, `_` any one character,
      every other pattern character itself. */
  function Like(t: string, p: string): bool
    decreases |t| + |p|
  {
    if |p| == 0 then |t| == 0
    else if p[0] == '%' then Like(t, p[1..]) || (|t| > 0 && Like(t[1..], p))
    else |t| > 0 && (p[0] == '_' || t[0] == p[0]) && Like(t[1..], p[1..])
  }

  lemma {:induction false} LikePercentMatchesAll(t: string)
    ensures Like(t, "%")
  {
    if |t| > 0 {
      LikePercentMatchesAll(t[1..]);
    }
  }

  /** A wildcard-free pattern followed by `%` matches exactly the strings it prefixes. */
  lemma {:induction false} LikePrefix(t: string, q: string)
    requires NoWildcards(q)
    ensures Like(t, q + "%") <==> q <= t
  {
    if |q| == 0 {
      assert q + "%" == "%";
      LikePercentMatchesAll(t);
    } else {
      assert (q + "%")[1..] == q[1..] + "%";
      if |t| > 0 {
        LikePrefix(t[1..], q[1..]);
        assert q <= t <==> q[0] == t[0] && q[1..] <= t[1..];
      }
    }
  }

  /** `%q%` with a wildcard-free `q` matches exactly the strings containing `q`. */
  lemma {:induction false} LikeContains(t: string, q: string)
    requires NoWildcards(q)
    ensures Like(t, "%" + q + "%") <==> Contains(t, q)
  {
    var p := "%" + q + "%";
    assert p[1..] == q + "%";
    LikePrefix(t, q);
    if |t| == 0 {
      if Contains(t, q) {
        var i :| 0 <= i <= |t| && q <= t[i..];
        assert t[i..] == t;
      }
    } else {
      LikeContains(t[1..], q);
      if Contains(t[1..], q) {
        var i :| 0 <= i <= |t[1..]| && q <= t[1..][i..];
        assert t[1..][i..] == t[i + 1..];
      }
      if Contains(t, q) && !(q <= t) {
        var i :| 0 <= i <= |t| && q <= t[i..];
        assert i > 0 by { assert t[0..] == t; }
        assert t[1..][i - 1..] == t[i..];
      }
      assert q <= t ==> q <= t[0..];
    }
  }
}
