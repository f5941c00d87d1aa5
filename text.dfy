/** The Python string operations the pipeline uses: `str.join`, prefix slicing,
    ASCII `str.lower` and single-character `str.replace`. */
module Text {

  /** `sep.join(parts)`. */
  function Join(sep: string, parts: seq<string>): (joined: string)
    decreases |parts|
  {
    if |parts| == 0 then ""
    else if |parts| == 1 then parts[0]
    else parts[0] + sep + Join(sep, parts[1..])
  }

  /** `xs[:n]` for a non-negative `n`: the first `n` elements, or all of them if there are fewer. */
  function Take<T>(xs: seq<T>, n: nat): (r: seq<T>)
    ensures |r| == (if |xs| < n then |xs| else n)
    ensures r <= xs
  {
    if |xs| < n then xs else xs[..n]
  }

  /** `s` occurs somewhere inside `t` (Python's `s in t`). */
  ghost predicate IsInfix(s: string, t: string) {
    exists before: string, after: string :: before + s + after == t
  }

  lemma InfixOfPrefix(s: string, b: string)
    ensures IsInfix(s, s + b)
  {
    assert [] + s + b == s + b;
  }

  lemma InfixOfSuffix(s: string, a: string)
    ensures IsInfix(s, a + s)
  {
    assert a + s + [] == a + s;
  }

  lemma InfixTransitive(s: string, t: string, u: string)
    requires IsInfix(s, t) && IsInfix(t, u)
    ensures IsInfix(s, u)
  {
    var a, b :| a + s + b == t;
    var c, d :| c + t + d == u;
    assert (c + a) + s + (b + d) == u;
  }

  /** Joining gives the empty string exactly when every part is empty and,
      if there are two or more parts, the separator is empty too. */
  lemma {:induction false} JoinEmpty(sep: string, parts: seq<string>)
    ensures Join(sep, parts) == "" <==>
      (forall i :: 0 <= i < |parts| ==> parts[i] == "") && (|parts| <= 1 || sep == "")
    decreases |parts|
  {
    if |parts| > 1 {
      JoinEmpty(sep, parts[1..]);
      var rest := parts[1..];
      assert forall i :: 1 <= i < |parts| ==> parts[i] == rest[i - 1];
      if Join(sep, parts) == "" {
        assert |parts[0] + sep + Join(sep, rest)| == 0;
      }
    }
  }

  /** A non-empty join begins with its first part. */
  lemma {:induction false} JoinStartsWithFirst(sep: string, parts: seq<string>)
    requires |parts| > 0
    ensures parts[0] <= Join(sep, parts)
  {
    if |parts| > 1 {
      assert Join(sep, parts) == parts[0] + (sep + Join(sep, parts[1..]));
    }
  }

  lemma JoinPair(sep: string, a: string, b: string)
    ensures Join(sep, [a, b]) == a + sep + b
  {
    assert [a, b][1..] == [b];
  }

  /** ASCII lower-casing of one character. */
  function LowerChar(c: char): (lowered: char) {
    if 'A' <= c <= 'Z' then (c as int + 32) as char else c
  }

  /** `s.lower()` restricted to ASCII letters. */
  function Lower(s: string): (lowered: string)
    decreases |s|
  {
    if s == [] then [] else [LowerChar(s[0])] + Lower(s[1..])
  }

  /** `s.replace(a, b)` for one-character strings `a` and `b`. */
  function ReplaceChar(s: string, a: char, b: char): (replaced: string)
    decreases |s|
  {
    if s == [] then [] else [if s[0] == a then b else s[0]] + ReplaceChar(s[1..], a, b)
  }

  lemma {:induction false} LowerAt(s: string, i: nat)
    requires i < |s|
    ensures |Lower(s)| == |s| && Lower(s)[i] == LowerChar(s[i])
    decreases |s|
  {
    if i > 0 {
      LowerAt(s[1..], i - 1);
    } else if |s| > 1 {
      LowerAt(s[1..], 0);
    }
  }

  lemma {:induction false} ReplaceCharAt(s: string, a: char, b: char, i: nat)
    requires i < |s|
    ensures |ReplaceChar(s, a, b)| == |s|
    ensures ReplaceChar(s, a, b)[i] == (if s[i] == a then b else s[i])
    decreases |s|
  {
    if i > 0 {
      ReplaceCharAt(s[1..], a, b, i - 1);
    } else if |s| > 1 {
      ReplaceCharAt(s[1..], a, b, 0);
    }
  }
}
