/** Trimming text, with the host language's notion of white space. */
module Texts {
  function StripLeft(isSpace: char -> bool, s: string): string {
    if s != "" && isSpace(s[0]) then StripLeft(isSpace, s[1..]) else s
  }

  function StripRight(isSpace: char -> bool, s: string): string {
    if s != "" && isSpace(s[|s| - 1]) then StripRight(isSpace, s[..|s| - 1]) else s
  }

  function Strip(isSpace: char -> bool, s: string): string {
    StripRight(isSpace, StripLeft(isSpace, s))
  }

  lemma {:induction false} StripLeftEnds(isSpace: char -> bool, s: string)
    ensures var r := StripLeft(isSpace, s); r == "" || !isSpace(r[0])
    decreases |s|
  {
    if s != "" && isSpace(s[0]) {
      StripLeftEnds(isSpace, s[1..]);
    }
  }

  lemma {:induction false} StripRightEnds(isSpace: char -> bool, s: string)
    ensures StripRight(isSpace, s) <= s
    ensures var r := StripRight(isSpace, s); r == "" || !isSpace(r[|r| - 1])
    ensures s != "" && !isSpace(s[0]) ==> StripRight(isSpace, s) != ""
    decreases |s|
  {
    if s != "" && isSpace(s[|s| - 1]) {
      StripRightEnds(isSpace, s[..|s| - 1]);
    }
  }

  lemma StripIdempotent(isSpace: char -> bool, s: string)
    ensures Strip(isSpace, Strip(isSpace, s)) == Strip(isSpace, s)
  {
    StripLeftEnds(isSpace, s);
    StripRightEnds(isSpace, StripLeft(isSpace, s));
  }

  predicate AllSpace(isSpace: char -> bool, s: string) {
    forall c <- s :: isSpace(c)
  }

  lemma {:induction false} StripLeftDrops(isSpace: char -> bool, s: string)
    ensures exists a :: s == a + StripLeft(isSpace, s) && AllSpace(isSpace, a)
    decreases |s|
  {
    if s != "" && isSpace(s[0]) {
      StripLeftDrops(isSpace, s[1..]);
      var a :| s[1..] == a + StripLeft(isSpace, s[1..]) && AllSpace(isSpace, a);
      assert s == ([s[0]] + a) + StripLeft(isSpace, s);
      assert AllSpace(isSpace, [s[0]] + a);
    } else {
      assert s == "" + StripLeft(isSpace, s) && AllSpace(isSpace, "");
    }
  }

  lemma {:induction false} StripRightDrops(isSpace: char -> bool, s: string)
    ensures exists b :: s == StripRight(isSpace, s) + b && AllSpace(isSpace, b)
    decreases |s|
  {
    if s != "" && isSpace(s[|s| - 1]) {
      var init := s[..|s| - 1];
      StripRightDrops(isSpace, init);
      var b :| init == StripRight(isSpace, init) + b && AllSpace(isSpace, b);
      assert s == StripRight(isSpace, s) + (b + [s[|s| - 1]]);
      assert AllSpace(isSpace, b + [s[|s| - 1]]);
    } else {
      assert s == StripRight(isSpace, s) + "" && AllSpace(isSpace, "");
    }
  }

  predicate Around(isSpace: char -> bool, s: string, a: string, t: string, b: string) {
    s == a + t + b && AllSpace(isSpace, a) && AllSpace(isSpace, b)
  }

  /** `t` is `s` without the white space at both ends. */
  ghost predicate Trimmed(isSpace: char -> bool, s: string, t: string) {
    && (exists a, b :: Around(isSpace, s, a, t, b))
    && (t == "" || (!isSpace(t[0]) && !isSpace(t[|t| - 1])))
  }

  lemma LastIsKept(left: string, t: string)
    requires t <= left && t != ""
    ensures left != "" && t[0] == left[0]
  {
  }

  /** Trimming drops white space at both ends, all of it, and nothing else. */
  lemma StripTrims(isSpace: char -> bool, s: string)
    ensures Trimmed(isSpace, s, Strip(isSpace, s))
  {
    var left := StripLeft(isSpace, s);
    StripLeftDrops(isSpace, s);
    StripRightDrops(isSpace, left);
    StripLeftEnds(isSpace, s);
    StripRightEnds(isSpace, left);
    var a :| s == a + left && AllSpace(isSpace, a);
    var b :| left == Strip(isSpace, s) + b && AllSpace(isSpace, b);
    assert Around(isSpace, s, a, Strip(isSpace, s), b);
    if Strip(isSpace, s) != "" {
      LastIsKept(left, Strip(isSpace, s));
    }
  }
}
