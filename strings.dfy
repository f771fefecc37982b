/** Text helpers the pipeline relies on: Python's `str.join`, counting a character, and the
    whitespace shape of a message. */
module Strings {

  /** `sep.join(parts)`: the parts in order, with `sep` between each pair of neighbours. */
  function Join(parts: seq<string>, sep: string): string
  {
    if |parts| == 0 then ""
    else if |parts| == 1 then parts[0]
    else parts[0] + sep + Join(parts[1..], sep)
  }

  /** Number of occurrences of `c` in `s`. */
  function Count(s: string, c: char): nat
  {
    if s == [] then 0 else (if s[0] == c then 1 else 0) + Count(s[1..], c)
  }

  predicate NoDoubleSpace(s: string)
  {
    forall i :: 0 <= i < |s| - 1 ==> !(s[i] == ' ' && s[i + 1] == ' ')
  }

  /** Non-empty, with no leading space, no trailing space and no two spaces in a row. */
  predicate Trimmed(s: string)
  {
    |s| > 0 && s[0] != ' ' && s[|s| - 1] != ' ' && NoDoubleSpace(s)
  }

  lemma {:induction false} CountAppend(a: string, b: string, c: char)
    ensures Count(a + b, c) == Count(a, c) + Count(b, c)
  {
    if a == [] {
      assert a + b == b;
    } else {
      assert (a + b)[1..] == a[1..] + b;
      CountAppend(a[1..], b, c);
    }
  }

  lemma {:induction false} CountAbsent(s: string, c: char)
    ensures Count(s, c) == 0 <==> c !in s
  {
    if s != [] {
      assert s == [s[0]] + s[1..];
      CountAbsent(s[1..], c);
    }
  }

  /** Cutting at the first `c`: when neither `a` nor `b` contains `c`, a text that starts with
      `a` followed by `c` and one that starts with `b` followed by `c` are equal only if `a == b`
      and what follows the cut is equal too. */
  lemma CutAtFirst(a: string, b: string, c: char, x: string, y: string)
    requires c !in a && c !in b
    requires a + [c] + x == b + [c] + y
    ensures a == b && x == y
  {
    var s := a + [c] + x;
    assert forall i :: 0 <= i < |a| ==> s[i] == a[i];
    assert forall i :: 0 <= i < |b| ==> s[i] == b[i];
    assert s[|a|] == c && s[|b|] == c;
    assert |a| == |b|;
    assert a == s[..|a|] && b == s[..|b|];
    assert x == s[|a| + 1..] && y == s[|b| + 1..];
  }

  /** Joining two Trimmed texts with one space gives a Trimmed text. */
  lemma SpaceJoinTrimmed(a: string, b: string)
    requires Trimmed(a) && Trimmed(b)
    ensures Trimmed(a + " " + b)
  {
    var s := a + " " + b;
    forall i | 0 <= i < |s| - 1
      ensures !(s[i] == ' ' && s[i + 1] == ' ')
    {
      if i < |a| - 1 {
        assert s[i] == a[i] && s[i + 1] == a[i + 1];
      } else if i == |a| - 1 {
        assert s[i] == a[|a| - 1];
      } else if i == |a| {
        assert s[i + 1] == b[0];
      } else {
        assert s[i] == b[i - |a| - 1] && s[i + 1] == b[i - |a|];
      }
    }
  }

  /** `" ".join` of a non-empty list of Trimmed texts is Trimmed: the separator never produces
      a leading, trailing or doubled space. */
  lemma {:induction false} JoinTrimmed(parts: seq<string>)
    requires |parts| > 0
    requires forall i :: 0 <= i < |parts| ==> Trimmed(parts[i])
    ensures Trimmed(Join(parts, " "))
  {
    if |parts| > 1 {
      JoinTrimmed(parts[1..]);
      SpaceJoinTrimmed(parts[0], Join(parts[1..], " "));
    }
  }

  predicate IsWord(w: string)
  {
    |w| > 0 && ' ' !in w
  }

  /** Words that are non-empty and hold no space, joined by single spaces, give a Trimmed
      text. */
  lemma {:induction false} WordsTrimmed(ws: seq<string>)
    requires |ws| > 0
    requires forall i :: 0 <= i < |ws| ==> IsWord(ws[i])
    ensures Trimmed(Join(ws, " "))
  {
    forall i | 0 <= i < |ws| ensures Trimmed(ws[i]) {
      assert ws[i][0] in ws[i] && ws[i][|ws[i]| - 1] in ws[i];
    }
    JoinTrimmed(ws);
  }
}
