/*
 * Text operations the migration runner relies on: MySQL's LIKE operator, with
 * which the consistency passes exclude tables by name, and PHP's
 * explode('_', ...) / implode('_', ...), with which the charset pass splits a
 * collation name into its charset prefix and the remaining parts.
 */
module SqlText {

  /** `s LIKE p`: '%' matches any run of characters (also an empty one),
      '_' matches exactly one character, every other character itself.
      Escapes and case-insensitive comparison are not modelled. */
  function Like(s: string, p: string): bool
    decreases |s| + |p|
  {
    if p == [] then s == []
    else if p[0] == '%' then Like(s, p[1..]) || (s != [] && Like(s[1..], p))
    else s != [] && (p[0] == '_' || p[0] == s[0]) && Like(s[1..], p[1..])
  }

  predicate NoPercent(p: string) {
    forall i :: 0 <= i < |p| ==> p[i] != '%'
  }

  /** `s` agrees with the wildcard-free parts of `p` on the first |p| characters. */
  predicate AgreesOn(s: string, p: string)
    requires |p| <= |s|
  {
    forall i :: 0 <= i < |p| ==> p[i] == '_' || p[i] == s[i]
  }

  /** A trailing '%' matches every rest. */
  lemma {:induction false} LikeTrailingPercent(s: string)
    ensures Like(s, "%")
  {
    if s != [] {
      LikeTrailingPercent(s[1..]);
    }
  }

  /** A pattern without '%' matches exactly the strings of its own length that
      agree with it outside its '_' positions. */
  lemma {:induction false} LikeFixedPattern(s: string, p: string)
    requires NoPercent(p)
    ensures Like(s, p) <==> |s| == |p| && AgreesOn(s, p)
  {
    if p != [] && s != [] {
      LikeFixedPattern(s[1..], p[1..]);
      if |s| == |p| && AgreesOn(s, p) {
        assert AgreesOn(s[1..], p[1..]) by {
          forall i | 0 <= i < |p[1..]| ensures p[1..][i] == '_' || p[1..][i] == s[1..][i] {
            assert p[1..][i] == p[i + 1] && s[1..][i] == s[i + 1];
          }
        }
      }
      if Like(s, p) {
        forall i | 0 <= i < |p| ensures p[i] == '_' || p[i] == s[i] {
          if i > 0 {
            assert p[1..][i - 1] == p[i] && s[1..][i - 1] == s[i];
          }
        }
      }
    }
  }

  /** A pattern `w%` with no other '%' matches exactly the strings that start
      with something `w` matches. */
  lemma {:induction false} LikePrefixPattern(s: string, w: string)
    requires NoPercent(w)
    ensures Like(s, w + "%") <==> |w| <= |s| && AgreesOn(s, w)
  {
    if w == [] {
      assert w + "%" == "%";
      LikeTrailingPercent(s);
    } else if s == [] {
    } else {
      assert (w + "%")[1..] == w[1..] + "%";
      assert (w + "%")[0] == w[0];
      LikePrefixPattern(s[1..], w[1..]);
      if |w| <= |s| && AgreesOn(s, w) {
        assert AgreesOn(s[1..], w[1..]) by {
          forall i | 0 <= i < |w[1..]| ensures w[1..][i] == '_' || w[1..][i] == s[1..][i] {
            assert w[1..][i] == w[i + 1] && s[1..][i] == s[i + 1];
          }
        }
      }
      if Like(s, w + "%") {
        forall i | 0 <= i < |w| ensures w[i] == '_' || w[i] == s[i] {
          if i > 0 {
            assert w[1..][i - 1] == w[i] && s[1..][i - 1] == s[i];
          }
        }
      }
    }
  }

  /** explode('_', s): the parts of `s` between underscores; an empty string
      gives one empty part, as in PHP. */
  function Split(s: string): (parts: seq<string>)
    ensures |parts| >= 1 && |parts[0]| <= |s|
    ensures forall i :: 0 <= i < |parts| ==> '_' !in parts[i]
  {
    if s == [] then [[]]
    else
      var rest := Split(s[1..]);
      if s[0] == '_' then [[]] + rest
      else [[s[0]] + rest[0]] + rest[1..]
  }

  /** implode('_', parts). */
  function Join(parts: seq<string>): string {
    if parts == [] then []
    else if |parts| == 1 then parts[0]
    else parts[0] + "_" + Join(parts[1..])
  }

  /** Joining the parts of a split gives back the original string. */
  lemma {:induction false} JoinSplit(s: string)
    ensures Join(Split(s)) == s
  {
    if s != [] {
      var rest := Split(s[1..]);
      JoinSplit(s[1..]);
      if s[0] == '_' {
        assert Split(s) == [[]] + rest;
        assert ([[]] + rest)[1..] == rest;
      } else {
        assert Split(s) == [[s[0]] + rest[0]] + rest[1..];
        if |rest| == 1 {
          assert Join(rest) == rest[0];
        } else {
          assert Join(rest) == rest[0] + "_" + Join(rest[1..]);
          assert ([[s[0]] + rest[0]] + rest[1..])[1..] == rest[1..];
        }
      }
    }
  }

  /** Splitting a join of underscore-free parts gives back the parts. */
  lemma {:induction false} SplitJoin(parts: seq<string>)
    requires |parts| >= 1
    requires forall i :: 0 <= i < |parts| ==> '_' !in parts[i]
    ensures Split(Join(parts)) == parts
  {
    if |parts| == 1 {
      SplitNoUnderscore(parts[0]);
    } else {
      SplitJoin(parts[1..]);
      SplitPrefix(parts[0], Join(parts[1..]));
      assert [parts[0]] + parts[1..] == parts;
    }
  }

  /** A string without underscores is a single part. */
  lemma {:induction false} SplitNoUnderscore(w: string)
    requires '_' !in w
    ensures Split(w) == [w]
  {
    if w != [] {
      SplitNoUnderscore(w[1..]);
      assert [w[0]] + w[1..] == w;
    }
  }

  /** Splitting `w + "_" + rest` for an underscore-free `w` yields `w` followed
      by the parts of `rest`. */
  lemma {:induction false} SplitPrefix(w: string, rest: string)
    requires '_' !in w
    ensures Split(w + "_" + rest) == [w] + Split(rest)
  {
    if w == [] {
      assert w + "_" + rest == "_" + rest;
      assert ("_" + rest)[1..] == rest;
    } else {
      SplitPrefix(w[1..], rest);
      var s := w + "_" + rest;
      assert s[0] == w[0];
      assert s[1..] == w[1..] + "_" + rest;
      assert [w[0]] + w[1..] == w;
    }
  }
}
