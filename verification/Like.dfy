/** The ILIKE match that custom-field filters use, and when it is a substring test. */
module Like {
  function LowerChar(c: char): char {
    if 'A' <= c <= 'Z' then c + 32 as char else c
  }

  const CAPITALS: string := "ABCDEFGHIJKLMNOPQRSTUVWXYZ"
  const SMALL: string := "abcdefghijklmnopqrstuvwxyz"

  /** Each capital letter becomes its small one, and every other character stays. */
  lemma LetterByLetter(c: char)
    ensures forall k :: 0 <= k < 26 ==> LowerChar(CAPITALS[k]) == SMALL[k]
    ensures c !in CAPITALS ==> LowerChar(c) == c
  {
    if 'A' <= c <= 'Z' {
      assert CAPITALS[c as int - 'A' as int] == c;
    }
  }

  function Lower(s: string): (r: string)
    ensures |r| == |s| && forall i :: 0 <= i < |s| ==> r[i] == LowerChar(s[i])
  {
    if s == "" then "" else [LowerChar(s[0])] + Lower(s[1..])
  }

  /** SQL LIKE: `%` is any text, `_` any character, a backslash makes the next one literal. */
  predicate Matches(pattern: string, s: string)
    decreases |pattern| + |s|
  {
    if pattern == "" then s == ""
    else if pattern[0] == '%' then Matches(pattern[1..], s) || (s != "" && Matches(pattern, s[1..]))
    else if s == "" then false
    else if pattern[0] == '_' then Matches(pattern[1..], s[1..])
    else if pattern[0] == '\\' then |pattern| >= 2 && pattern[1] == s[0] && Matches(pattern[2..], s[1..])
    else pattern[0] == s[0] && Matches(pattern[1..], s[1..])
  }

  predicate ILike(s: string, pattern: string) {
    Matches(Lower(pattern), Lower(s))
  }

  ghost predicate OccursAt(s: string, v: string, i: int) {
    0 <= i <= |s| && v <= s[i..]
  }

  ghost predicate Contains(s: string, v: string) {
    exists i :: OccursAt(s, v, i)
  }

  /** No character that LIKE treats specially. */
  predicate Plain(v: string) {
    forall i :: 0 <= i < |v| ==> v[i] != '%' && v[i] != '_' && v[i] != '\\'
  }

  lemma {:induction false} PercentMatchesAll(s: string)
    ensures Matches("%", s)
  {
    if s != "" {
      PercentMatchesAll(s[1..]);
    }
  }

  lemma {:induction false} PlainPrefix(v: string, s: string)
    requires Plain(v)
    ensures Matches(v + "%", s) <==> v <= s
  {
    if v == "" {
      assert v + "%" == "%";
      PercentMatchesAll(s);
    } else {
      assert (v + "%")[1..] == v[1..] + "%";
      assert forall i :: 0 <= i < |v[1..]| ==> v[1..][i] == v[i + 1];
      if s != "" {
        PlainPrefix(v[1..], s[1..]);
        assert v <= s <==> v[0] == s[0] && v[1..] <= s[1..];
      }
    }
  }

  lemma ContainsStep(s: string, v: string)
    ensures Contains(s, v) <==> v <= s || (s != "" && Contains(s[1..], v))
  {
    if v <= s {
      assert OccursAt(s, v, 0);
    }
    if s != "" && Contains(s[1..], v) {
      var i :| OccursAt(s[1..], v, i);
      assert s[1..][i..] == s[i + 1..];
      assert OccursAt(s, v, i + 1);
    }
    if Contains(s, v) {
      var i :| OccursAt(s, v, i);
      if i > 0 {
        assert s[1..][i - 1..] == s[i..];
        assert OccursAt(s[1..], v, i - 1);
      }
    }
  }

  lemma {:induction false} PlainSubstring(v: string, s: string)
    requires Plain(v)
    ensures Matches("%" + v + "%", s) <==> Contains(s, v)
  {
    var p := "%" + v + "%";
    assert p[1..] == v + "%";
    PlainPrefix(v, s);
    if s != "" {
      PlainSubstring(v, s[1..]);
    }
    ContainsStep(s, v);
  }

  /** The text with a backslash before every character that LIKE treats specially. */
  function Escape(v: string): string {
    if v == "" then ""
    else (if v[0] == '%' || v[0] == '_' || v[0] == '\\' then ['\\'] else []) + [v[0]] + Escape(v[1..])
  }

  lemma {:induction false} EscapedPrefix(v: string, s: string)
    ensures Matches(Escape(v) + "%", s) <==> v <= s
  {
    var p := Escape(v) + "%";
    if v == "" {
      assert p == "%";
      PercentMatchesAll(s);
    } else {
      var rest := Escape(v[1..]) + "%";
      if v[0] == '%' || v[0] == '_' || v[0] == '\\' {
        assert p == ['\\', v[0]] + rest && p[2..] == rest;
      } else {
        assert p == [v[0]] + rest && p[1..] == rest;
      }
      if s != "" {
        EscapedPrefix(v[1..], s[1..]);
        assert v <= s <==> v[0] == s[0] && v[1..] <= s[1..];
      }
    }
  }

  /** With its special characters escaped every value would be searched for literally. */
  lemma {:induction false} EscapedSubstring(v: string, s: string)
    ensures Matches("%" + Escape(v) + "%", s) <==> Contains(s, v)
  {
    var p := "%" + Escape(v) + "%";
    assert p[1..] == Escape(v) + "%";
    EscapedPrefix(v, s);
    if s != "" {
      EscapedSubstring(v, s[1..]);
    }
    ContainsStep(s, v);
  }

  /** An underscore stands for exactly one character, whichever it is. */
  lemma {:induction false} UnderscoresCount(n: nat, s: string)
    ensures Matches(seq(n, _ => '_'), s) <==> |s| == n
  {
    var p := seq(n, _ => '_');
    if n > 0 && s != "" {
      assert p[1..] == seq(n - 1, _ => '_');
      UnderscoresCount(n - 1, s[1..]);
    }
  }

  // ---------------------------------------------------------------- special characters

  /** A text that `pattern%` matches: `%` stands for nothing, `_` for an x, an escape for the
      character it protects; a final backslash protects the appended `%`. */
  function Sample(pattern: string): (s: string)
    ensures |s| <= |pattern|
  {
    if pattern == "" then ""
    else if pattern[0] == '%' then Sample(pattern[1..])
    else if pattern[0] == '_' then "x" + Sample(pattern[1..])
    else if pattern[0] == '\\' then
      if |pattern| == 1 then "%" else [pattern[1]] + Sample(pattern[2..])
    else [pattern[0]] + Sample(pattern[1..])
  }

  lemma {:induction false} SampleMatches(w: string)
    ensures Matches(w + "%", Sample(w))
  {
    var p := w + "%";
    if w == "" {
      assert p == "%";
    } else if w[0] == '\\' {
      if |w| == 1 {
        assert p == "\\%" && p[2..] == "";
      } else {
        assert p[2..] == w[2..] + "%";
        SampleMatches(w[2..]);
        assert Sample(w)[1..] == Sample(w[2..]);
      }
    } else {
      assert p[1..] == w[1..] + "%";
      SampleMatches(w[1..]);
      if w[0] != '%' {
        assert Sample(w)[1..] == Sample(w[1..]);
      }
    }
  }

  lemma {:induction false} SampleDiffers(w: string)
    ensures Sample(w) == w ==> Plain(w)
  {
    if w != "" && w[0] != '\\' && w[0] != '%' {
      SampleDiffers(w[1..]);
      assert w == [w[0]] + w[1..];
      assert Sample(w)[1..] == Sample(w[1..]);
    }
  }

  lemma LowerTwice(v: string)
    ensures Lower(Lower(v)) == Lower(v)
  {
  }

  lemma {:induction false} SampleKeepsLower(w: string)
    requires Lower(w) == w
    ensures Lower(Sample(w)) == Sample(w)
  {
    if w != "" {
      assert forall i :: 0 <= i < |w| ==> LowerChar(w[i]) == w[i];
      assert Lower(w[1..]) == w[1..];
      if w[0] == '\\' && |w| >= 2 {
        assert Lower(w[2..]) == w[2..];
        SampleKeepsLower(w[2..]);
      } else if w[0] != '\\' {
        SampleKeepsLower(w[1..]);
      }
    }
  }

  lemma {:induction false} SampleIsLower(v: string)
    ensures Lower(Sample(Lower(v))) == Sample(Lower(v))
  {
    LowerTwice(v);
    SampleKeepsLower(Lower(v));
  }

  lemma LowerKeepsPlain(v: string)
    ensures Plain(Lower(v)) <==> Plain(v)
  {
    assert forall i :: 0 <= i < |v| ==> Lower(v)[i] == LowerChar(v[i]);
  }

  /** Main result: the filter `ILIKE '%' || value || '%'` is a case-insensitive substring
      test for every text if and only if the value has no %, _ or backslash. */
  lemma SubstringIffPlain(v: string)
    ensures Plain(v) <==> forall s :: ILike(s, "%" + v + "%") <==> Contains(Lower(s), Lower(v))
  {
    LowerKeepsPlain(v);
    var w := Lower(v);
    assert Lower("%" + v + "%") == "%" + w + "%";
    if Plain(v) {
      forall s ensures ILike(s, "%" + v + "%") <==> Contains(Lower(s), w) {
        PlainSubstring(w, Lower(s));
      }
    } else {
      var s := Sample(w);
      SampleIsLower(v);
      SampleMatches(w);
      SampleDiffers(w);
      assert ("%" + w + "%")[1..] == w + "%";
      assert ILike(s, "%" + v + "%");
      assert forall i :: OccursAt(s, w, i) ==> i == 0;
    }
  }
}
