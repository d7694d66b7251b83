/** Answer checking on the Solve page: a submitted answer is correct when it
    equals the stored final answer after both are normalised (trimmed,
    lower-cased, stripped of every whitespace character, `×` read as `*`). */
module SolveAnswer {

  /** The characters matched by `\s` in a JavaScript regular expression; they
      are also exactly the characters `String.prototype.trim` removes
      (ECMAScript's WhiteSpace and LineTerminator productions). */
  predicate IsSpace(c: char) {
    || c == ' ' || c == '\t' || c == '\n' || c == '\r'
    || c == '\U{000B}' || c == '\U{000C}' || c == '\U{00A0}' || c == '\U{1680}'
    || ('\U{2000}' <= c <= '\U{200A}')
    || c == '\U{2028}' || c == '\U{2029}' || c == '\U{202F}' || c == '\U{205F}'
    || c == '\U{3000}' || c == '\U{FEFF}'
  }

  predicate IsUpper(c: char) {
    'A' <= c <= 'Z'
  }

  /** The multiplication sign that answers may use in place of `*`. */
  const Times: char := '\U{00D7}'

  /** The case map of `toLowerCase`, restricted to the letters A-Z. */
  function LowerChar(c: char): (l: char)
    ensures !IsUpper(l)
    ensures IsSpace(l) <==> IsSpace(c)
    ensures (l == Times) <==> (c == Times)
    ensures !IsUpper(c) ==> l == c
  {
    if IsUpper(c) then (c as int + 32) as char else c
  }

  function TrimStart(s: string): string {
    if |s| > 0 && IsSpace(s[0]) then TrimStart(s[1..]) else s
  }

  function TrimEnd(s: string): string {
    if |s| > 0 && IsSpace(s[|s| - 1]) then TrimEnd(s[..|s| - 1]) else s
  }

  /** `String.prototype.trim`. */
  function Trim(s: string): string {
    TrimEnd(TrimStart(s))
  }

  /** `String.prototype.toLowerCase`, character by character. */
  function LowerCase(s: string): string {
    if s == [] then [] else [LowerChar(s[0])] + LowerCase(s[1..])
  }

  /** `s.replace(/\s/g, '')`. */
  function StripSpaces(s: string): string {
    if s == [] then [] else (if IsSpace(s[0]) then [] else [s[0]]) + StripSpaces(s[1..])
  }

  /** `s.replace(/×/g, '*')`. */
  function ReplaceTimes(s: string): string {
    if s == [] then [] else [if s[0] == Times then '*' else s[0]] + ReplaceTimes(s[1..])
  }

  /** The `normalize` chain of the submit handler, in its own order. */
  function Normalize(s: string): string {
    ReplaceTimes(StripSpaces(LowerCase(Trim(s))))
  }

  /** The `isCorrect` test of the submit handler. */
  predicate AnswersMatch(submitted: string, canonical: string) {
    Normalize(submitted) == Normalize(canonical)
  }

  /** `!answer.trim()`: the submit handler ignores such an answer. */
  predicate IsBlank(s: string) {
    Trim(s) == ""
  }

  // ---------------------------------------------------------------------
  // A one-pass reference definition of the normal form

  /** What normalisation does to one character that it keeps. */
  function FoldChar(c: char): char {
    if c == Times then '*' else LowerChar(c)
  }

  /** Reference definition: drop whitespace, fold every other character. */
  function Canon(s: string): string {
    if s == [] then [] else (if IsSpace(s[0]) then [] else [FoldChar(s[0])]) + Canon(s[1..])
  }

  /** A character that normalisation leaves as it is. */
  predicate Settled(c: char) {
    !IsSpace(c) && c != Times && !IsUpper(c)
  }

  /** A string already in normal form. */
  predicate IsCanonical(s: string) {
    forall i :: 0 <= i < |s| ==> Settled(s[i])
  }

  predicate AllSpaces(s: string) {
    forall i :: 0 <= i < |s| ==> IsSpace(s[i])
  }

  lemma {:induction false} CanonAppend(a: string, b: string)
    ensures Canon(a + b) == Canon(a) + Canon(b)
  {
    if a == [] {
      assert a + b == b;
    } else {
      assert (a + b)[0] == a[0];
      assert (a + b)[1..] == a[1..] + b;
      CanonAppend(a[1..], b);
    }
  }

  lemma {:induction false} CanonOfSpaces(w: string)
    requires AllSpaces(w)
    ensures Canon(w) == []
  {
    if w != [] {
      CanonOfSpaces(w[1..]);
    }
  }

  lemma {:induction false} CanonTrimStart(s: string)
    ensures Canon(TrimStart(s)) == Canon(s)
  {
    if |s| > 0 && IsSpace(s[0]) {
      CanonTrimStart(s[1..]);
    }
  }

  lemma {:induction false} CanonTrimEnd(s: string)
    ensures Canon(TrimEnd(s)) == Canon(s)
  {
    if |s| > 0 && IsSpace(s[|s| - 1]) {
      var init, last := s[..|s| - 1], s[|s| - 1];
      assert s == init + [last];
      CanonAppend(init, [last]);
      CanonOfSpaces([last]);
      CanonTrimEnd(init);
    }
  }

  /** Lower-casing, stripping and replacing, applied in sequence, amount to
      the one-pass reference definition. */
  lemma {:induction false} PipelineIsCanon(s: string)
    ensures ReplaceTimes(StripSpaces(LowerCase(s))) == Canon(s)
  {
    if s != [] {
      var l := LowerCase(s);
      assert l[0] == LowerChar(s[0]) && l[1..] == LowerCase(s[1..]);
      PipelineIsCanon(s[1..]);
      if IsSpace(s[0]) {
        assert StripSpaces(l) == StripSpaces(l[1..]);
      } else {
        var t := [l[0]] + StripSpaces(l[1..]);
        assert StripSpaces(l) == t;
        assert t[0] == l[0] && t[1..] == StripSpaces(l[1..]);
        assert ReplaceTimes(t) == [if l[0] == Times then '*' else l[0]] + ReplaceTimes(t[1..]);
        assert (if l[0] == Times then '*' else l[0]) == FoldChar(s[0]);
      }
    }
  }

  /** Normalisation equals the reference definition: the leading `trim` is
      subsumed by stripping all whitespace. */
  lemma NormalizeIsCanon(s: string)
    ensures Normalize(s) == Canon(s)
  {
    CanonTrimStart(s);
    CanonTrimEnd(TrimStart(s));
    PipelineIsCanon(Trim(s));
  }

  lemma {:induction false} CanonIsCanonical(s: string)
    ensures IsCanonical(Canon(s))
  {
    if s != [] {
      CanonIsCanonical(s[1..]);
    }
  }

  lemma {:induction false} CanonFixesCanonical(s: string)
    requires IsCanonical(s)
    ensures Canon(s) == s
  {
    if s != [] {
      assert Settled(s[0]);
      CanonFixesCanonical(s[1..]);
    }
  }

  lemma {:induction false} CanonOfLowerCase(s: string)
    ensures Canon(LowerCase(s)) == Canon(s)
  {
    if s != [] {
      var l := LowerCase(s);
      assert l[0] == LowerChar(s[0]) && l[1..] == LowerCase(s[1..]);
      CanonOfLowerCase(s[1..]);
    }
  }

  // ---------------------------------------------------------------------
  // Properties of normalisation and of the answer test

  /** The normal form holds no whitespace, no `×` and no upper-case letter. */
  lemma NormalizeIsSettled(s: string)
    ensures IsCanonical(Normalize(s))
    ensures forall i :: 0 <= i < |Normalize(s)| ==> !IsSpace(Normalize(s)[i]) && Normalize(s)[i] != Times
  {
    NormalizeIsCanon(s);
    CanonIsCanonical(s);
  }

  /** A string already in normal form is its own normal form. */
  lemma NormalizeFixesCanonical(s: string)
    requires IsCanonical(s)
    ensures Normalize(s) == s
  {
    NormalizeIsCanon(s);
    CanonFixesCanonical(s);
  }

  lemma NormalizeIdempotent(s: string)
    ensures Normalize(Normalize(s)) == Normalize(s)
  {
    NormalizeIsSettled(s);
    NormalizeFixesCanonical(Normalize(s));
  }

  /** Comparing normalised answers is an equivalence relation. */
  lemma MatchIsEquivalence()
    ensures forall a :: AnswersMatch(a, a)
    ensures forall a, b :: AnswersMatch(a, b) <==> AnswersMatch(b, a)
    ensures forall a, b, c :: AnswersMatch(a, b) && AnswersMatch(b, c) ==> AnswersMatch(a, c)
  {
  }

  /** Whitespace inserted anywhere in an answer never changes the verdict. */
  lemma MatchIgnoresInsertedSpaces(a: string, w: string, b: string, canonical: string)
    requires AllSpaces(w)
    ensures Normalize(a + w + b) == Normalize(a + b)
    ensures AnswersMatch(a + w + b, canonical) <==> AnswersMatch(a + b, canonical)
  {
    NormalizeIsCanon(a + w + b);
    NormalizeIsCanon(a + b);
    CanonAppend(a + w, b);
    CanonAppend(a, w);
    CanonAppend(a, b);
    CanonOfSpaces(w);
  }

  /** Answers that differ only in the case of their letters match. */
  lemma MatchIgnoresCase(a: string, b: string)
    requires LowerCase(a) == LowerCase(b)
    ensures AnswersMatch(a, b)
  {
    NormalizeIsCanon(a);
    NormalizeIsCanon(b);
    CanonOfLowerCase(a);
    CanonOfLowerCase(b);
  }

  /** Comparison is purely syntactic: on strings already in normal form it is
      plain equality, with no numeric reading. */
  lemma MatchOnCanonicalIsEquality(a: string, b: string)
    requires IsCanonical(a) && IsCanonical(b)
    ensures AnswersMatch(a, b) <==> a == b
  {
    NormalizeFixesCanonical(a);
    NormalizeFixesCanonical(b);
  }

  /** Spaces inside an answer are ignored: "5 / 12" matches "5/12". */
  lemma MatchExampleInnerSpaces()
    ensures AnswersMatch("5 / 12", "5/12")
  {
    assert "5 / 12" == "5" + " " + "/ 12";
    assert "5" + "/ 12" == "5/" + " " + "12";
    assert "5/" + "12" == "5/12";
    MatchIgnoresInsertedSpaces("5", " ", "/ 12", "5/12");
    MatchIgnoresInsertedSpaces("5/", " ", "12", "5/12");
    assert IsCanonical("5/12");
    NormalizeFixesCanonical("5/12");
  }

  /** Spaces around an answer are ignored: "  5/12 " matches "5/12". */
  lemma MatchExampleOuterSpaces()
    ensures AnswersMatch("  5/12 ", "5/12")
  {
    NormalizeIsCanon("  5/12 ");
    var s := "  5/12 ";
    assert s == "  " + "5/12" + " ";
    CanonAppend("  " + "5/12", " ");
    CanonAppend("  ", "5/12");
    CanonOfSpaces("  ");
    CanonOfSpaces(" ");
    NormalizeIsCanon("5/12");
  }

  /** Case is ignored: "PI/2" matches "pi/2". */
  lemma MatchExampleCase()
    ensures AnswersMatch("PI/2", "pi/2")
  {
    assert LowerCase("PI/2") == "pi/2" by {
      assert "PI/2"[1..] == "I/2" && "I/2"[1..] == "/2" && "/2"[1..] == "2" && "2"[1..] == "";
    }
    assert "pi/2" == LowerCase("pi/2") by {
      assert "pi/2"[1..] == "i/2" && "i/2"[1..] == "/2" && "/2"[1..] == "2" && "2"[1..] == "";
    }
    MatchIgnoresCase("PI/2", "pi/2");
  }

  /** The multiplication sign reads as `*`. */
  lemma MatchExampleTimes()
    ensures AnswersMatch("8\U{00D7}8", "8*8")
  {
    NormalizeIsCanon("8\U{00D7}8");
    NormalizeIsCanon("8*8");
    assert "8\U{00D7}8"[1..] == "\U{00D7}8" && "\U{00D7}8"[1..] == "8" && "8"[1..] == "";
    assert "8*8"[1..] == "*8" && "*8"[1..] == "8";
  }

  /** No numeric reading: "049" does not match "49", nor "49" match "050". */
  lemma MatchExampleSyntactic()
    ensures !AnswersMatch("049", "49")
    ensures !AnswersMatch("49", "050")
  {
    assert IsCanonical("049") && IsCanonical("49") && IsCanonical("050");
    MatchOnCanonicalIsEquality("049", "49");
    MatchOnCanonicalIsEquality("49", "050");
  }

  // ---------------------------------------------------------------------
  // The blank-answer guard

  lemma {:induction false} TrimStartShape(s: string)
    ensures TrimStart(s) == [] <==> AllSpaces(s)
    ensures TrimStart(s) != [] ==> !IsSpace(TrimStart(s)[0])
  {
    if |s| > 0 && IsSpace(s[0]) {
      TrimStartShape(s[1..]);
      if AllSpaces(s[1..]) {
        assert forall i :: 1 <= i < |s| ==> s[i] == s[1..][i - 1];
      }
    }
  }

  lemma {:induction false} TrimEndEmpty(s: string)
    requires |s| > 0 && !IsSpace(s[0])
    ensures TrimEnd(s) != []
  {
    if |s| > 1 && IsSpace(s[|s| - 1]) {
      TrimEndEmpty(s[..|s| - 1]);
    }
  }

  /** An answer is blank exactly when every character of it is whitespace. */
  lemma BlankIffAllSpaces(s: string)
    ensures IsBlank(s) <==> AllSpaces(s)
  {
    TrimStartShape(s);
    if TrimStart(s) != [] {
      TrimEndEmpty(TrimStart(s));
    }
  }
}
