/** `cleanPDFMarkup` of filereader/pdf_reader.go: a chain of rewrites over
    the extracted text. Each regular-expression pass is written out as a scan
    over the text it is applied to, matching the way Go's `regexp` replaces
    all leftmost, non-overlapping matches. Character classes follow RE2:
    `\b` and `\w` are ASCII, `\s` is tab, newline, form feed, carriage return
    and space. `strings.TrimSpace` uses Unicode white space instead. */
module PdfMarkup {

  import opened Wrappers

  /** RE2 `\w`. */
  predicate IsWordChar(c: char)
  {
    ('0' <= c <= '9') || ('a' <= c <= 'z') || ('A' <= c <= 'Z') || c == '_'
  }

  predicate IsDigit(c: char)
  {
    '0' <= c <= '9'
  }

  /** RE2 `\s`; vertical tab is not part of it. */
  predicate IsReSpace(c: char)
  {
    c == '\t' || c == '\n' || c == '\U{000C}' || c == '\r' || c == ' '
  }

  /** `unicode.IsSpace`, which `strings.TrimSpace` trims. */
  predicate IsUnicodeSpace(c: char)
  {
    c == '\t' || c == '\n' || c == '\U{000B}' || c == '\U{000C}' || c == '\r' || c == ' '
    || c == '\U{0085}' || c == '\U{00A0}' || c == '\U{1680}'
    || ('\U{2000}' <= c <= '\U{200A}')
    || c == '\U{2028}' || c == '\U{2029}' || c == '\U{202F}' || c == '\U{205F}' || c == '\U{3000}'
  }

  lemma ReSpaceIsUnicodeSpace(c: char)
    ensures IsReSpace(c) ==> IsUnicodeSpace(c)
  {
  }

  /** Every character of `r` occurs in `s`: the pass only deletes. */
  ghost predicate CharsFrom(r: string, s: string)
  {
    forall c :: c in r ==> c in s
  }

  /** `r` is `s` with some characters deleted and the rest kept in order. */
  predicate IsSubseq(r: string, s: string)
    decreases |s|
  {
    if |r| == 0 then true
    else if |s| == 0 then false
    else (r[0] == s[0] && IsSubseq(r[1..], s[1..])) || IsSubseq(r, s[1..])
  }

  /** Deleting the characters before position `j` keeps a subsequence. */
  lemma {:induction false} SubseqSkip(r: string, s: string, i: nat, j: nat)
    requires i <= j <= |s| && IsSubseq(r, s[j..])
    ensures IsSubseq(r, s[i..])
    decreases j - i
  {
    if i < j {
      SubseqSkip(r, s, i + 1, j);
      assert s[i..][1..] == s[i + 1..];
    }
  }

  /** Every text is a subsequence of itself. */
  lemma {:induction false} SubseqRefl(s: string)
    ensures IsSubseq(s, s)
    decreases |s|
  {
    if |s| > 0 {
      SubseqRefl(s[1..]);
    }
  }

  /** Keeping the character at `i` in front of a subsequence of the rest. */
  lemma SubseqKeep(rest: string, s: string, i: nat)
    requires i < |s| && IsSubseq(rest, s[i + 1..])
    ensures IsSubseq([s[i]] + rest, s[i..])
  {
    assert ([s[i]] + rest)[1..] == rest;
    assert s[i..][1..] == s[i + 1..];
  }

  predicate NoBrackets(s: string)
  {
    '(' !in s && ')' !in s && '[' !in s && ']' !in s
  }

  /** No two RE2 white-space characters side by side. */
  predicate NoDoubleSpace(s: string)
  {
    forall k :: 0 <= k < |s| - 1 ==> !(IsReSpace(s[k]) && IsReSpace(s[k + 1]))
  }

  /** The only RE2 white space left is the plain space. */
  predicate OnlyPlainSpaces(s: string)
  {
    forall k :: 0 <= k < |s| && IsReSpace(s[k]) ==> s[k] == ' '
  }

  // ---------------------------------------------------------------------
  // Pass 1: `\b(BT|ET|Tj|TJ|Td|TD|Tm|T\*|Tc|Tw|Tz|TL|Tf|Tr|Ts)\b` -> ""
  // ---------------------------------------------------------------------

  /** One of the fifteen two-character operators. */
  predicate IsOperator(a: char, b: char)
  {
    (a == 'B' && b == 'T') || (a == 'E' && b == 'T')
    || (a == 'T' && b in "jJdDm*cwzLfrs")
  }

  /** `\b` between positions `i - 1` and `i` of `s`. */
  predicate BoundaryAt(s: string, i: nat)
    requires i <= |s|
  {
    (i > 0 && IsWordChar(s[i - 1])) != (i < |s| && IsWordChar(s[i]))
  }

  /** The operator pattern matches at `i`. Since `*` is not a word
      character, `T*` only matches when a word character follows it. */
  predicate OperatorAt(s: string, i: nat)
  {
    i + 2 <= |s| && IsOperator(s[i], s[i + 1]) && BoundaryAt(s, i) && BoundaryAt(s, i + 2)
  }

  /** The operator pass from position `i` on; the boundaries are read on the
      text before any deletion. */
  function StripOperators(s: string, i: nat): (r: string)
    requires i <= |s|
    ensures |r| <= |s| - i
    ensures CharsFrom(r, s)
    ensures IsSubseq(r, s[i..])
    decreases |s| - i
  {
    if i == |s| then ""
    else if OperatorAt(s, i) then
      var rest := StripOperators(s, i + 2);
      SubseqSkip(rest, s, i, i + 2);
      rest
    else
      var rest := StripOperators(s, i + 1);
      SubseqKeep(rest, s, i);
      [s[i]] + rest
  }

  // ---------------------------------------------------------------------
  // Passes 2-7: `strings.ReplaceAll(text, pat, "")`
  // ---------------------------------------------------------------------

  /** Deletes the non-overlapping occurrences of `pat`, scanning left to
      right. */
  function RemoveAll(s: string, pat: string): (r: string)
    requires |pat| > 0
    ensures |r| <= |s|
    ensures CharsFrom(r, s)
    ensures |pat| == 1 ==> pat[0] !in r
    ensures IsSubseq(r, s)
    decreases |s|
  {
    if |s| < |pat| then
      SubseqRefl(s);
      s
    else if s[..|pat|] == pat then
      var rest := RemoveAll(s[|pat|..], pat);
      SubseqSkip(rest, s, 0, |pat|);
      assert s[0..] == s;
      rest
    else
      var rest := RemoveAll(s[1..], pat);
      SubseqKeep(rest, s, 0);
      assert s[0..] == s;
      [s[0]] + rest
  }

  /** The parenthesis and bracket passes, in their order. */
  function RemoveBrackets(s: string): (r: string)
    ensures |r| <= |s|
    ensures NoBrackets(r)
  {
    var t := RemoveAll(RemoveAll(s, "( "), " )");
    var u := RemoveAll(RemoveAll(t, "("), ")");
    RemoveAll(RemoveAll(u, "["), "]")
  }

  // ---------------------------------------------------------------------
  // Passes 8-9: `/F\d+\s+\d+(\.\d+)?\s+Tf` and
  //             `\d+(\.\d+)?\s+\d+(\.\d+)?\s+Td` -> ""
  // ---------------------------------------------------------------------

  /** End of the run of digits starting at `i`. */
  function DigitsEnd(s: string, i: nat): (r: nat)
    requires i <= |s|
    ensures i <= r <= |s|
    ensures forall k :: i <= k < r ==> IsDigit(s[k])
    ensures r < |s| ==> !IsDigit(s[r])
    decreases |s| - i
  {
    if i < |s| && IsDigit(s[i]) then DigitsEnd(s, i + 1) else i
  }

  /** End of the run of RE2 white space starting at `i`. */
  function SpacesEnd(s: string, i: nat): (r: nat)
    requires i <= |s|
    ensures i <= r <= |s|
    ensures forall k :: i <= k < r ==> IsReSpace(s[k])
    ensures r < |s| ==> !IsReSpace(s[r])
    decreases |s| - i
  {
    if i < |s| && IsReSpace(s[i]) then SpacesEnd(s, i + 1) else i
  }

  /** `\d+(\.\d+)?` at `i`. The classes are disjoint, so greedy matching
      has nothing to backtrack into and the end is unique. */
  function NumberEnd(s: string, i: nat): (r: Option<nat>)
    requires i <= |s|
    ensures r.Some? ==> i < r.value <= |s|
  {
    var j := DigitsEnd(s, i);
    if j == i then None
    else if j < |s| && s[j] == '.' && DigitsEnd(s, j + 1) > j + 1 then Some(DigitsEnd(s, j + 1))
    else Some(j)
  }

  /** `\s+` then the two letters `T` and `x` at `i`. */
  function OperatorTailEnd(s: string, i: nat, x: char): (r: Option<nat>)
    requires i <= |s|
    ensures r.Some? ==> i < r.value <= |s|
  {
    var j := SpacesEnd(s, i);
    if j > i && j + 2 <= |s| && s[j] == 'T' && s[j + 1] == x then Some(j + 2) else None
  }

  datatype Pattern = FontDeclaration | Positioning

  /** Where a match of the pattern that starts at `i` ends, if there is one. */
  function MatchEnd(p: Pattern, s: string, i: nat): (r: Option<nat>)
    requires i <= |s|
    ensures r.Some? ==> i < r.value <= |s|
  {
    match p
    case FontDeclaration =>
      if i + 2 <= |s| && s[i] == '/' && s[i + 1] == 'F' then
        var a := DigitsEnd(s, i + 2);
        var b := SpacesEnd(s, a);
        if a > i + 2 && b > a then
          match NumberEnd(s, b)
          case None => None
          case Some(c) => OperatorTailEnd(s, c, 'f')
        else None
      else None
    case Positioning =>
      match NumberEnd(s, i)
      case None => None
      case Some(a) =>
        var b := SpacesEnd(s, a);
        if b > a then
          match NumberEnd(s, b)
          case None => None
          case Some(c) => OperatorTailEnd(s, c, 'd')
        else None
  }

  /** `ReplaceAllString(text, "")` for the pattern, from position `i`. */
  function StripPattern(p: Pattern, s: string, i: nat): (r: string)
    requires i <= |s|
    ensures |r| <= |s| - i
    ensures CharsFrom(r, s)
    ensures IsSubseq(r, s[i..])
    decreases |s| - i
  {
    if i == |s| then ""
    else match MatchEnd(p, s, i)
      case Some(j) =>
        var rest := StripPattern(p, s, j);
        SubseqSkip(rest, s, i, j);
        rest
      case None =>
        var rest := StripPattern(p, s, i + 1);
        SubseqKeep(rest, s, i);
        [s[i]] + rest
  }

  // ---------------------------------------------------------------------
  // Pass 10: `\s+` -> " ";  pass 11: `strings.TrimSpace`
  // ---------------------------------------------------------------------

  /** The characters of `s` that are not RE2 white space, in order. */
  function NonSpaces(s: string): string
  {
    if |s| == 0 then ""
    else (if IsReSpace(s[0]) then "" else [s[0]]) + NonSpaces(s[1..])
  }

  /** A leading run of white space contributes nothing to `NonSpaces`. */
  lemma {:induction false} NonSpacesSkip(s: string, j: nat)
    requires j <= |s|
    requires forall k :: 0 <= k < j ==> IsReSpace(s[k])
    ensures NonSpaces(s) == NonSpaces(s[j..])
    decreases j
  {
    if j > 0 {
      assert s[1..][j - 1..] == s[j..];
      NonSpacesSkip(s[1..], j - 1);
    }
  }

  /** Every run of RE2 white space becomes one plain space. */
  function CollapseSpaces(s: string): (r: string)
    ensures |r| <= |s|
    ensures forall c :: c in r ==> c in s || c == ' '
    ensures NoDoubleSpace(r) && OnlyPlainSpaces(r)
    ensures |s| > 0 ==> |r| > 0 && (IsReSpace(s[0]) <==> IsReSpace(r[0]))
    ensures NonSpaces(r) == NonSpaces(s)
    decreases |s|
  {
    if |s| == 0 then ""
    else if IsReSpace(s[0]) then
      var j := SpacesEnd(s, 0);
      var rest := CollapseSpaces(s[j..]);
      NonSpacesSkip(s, j);
      assert (" " + rest)[1..] == rest;
      " " + rest
    else
      var rest := CollapseSpaces(s[1..]);
      assert ([s[0]] + rest)[1..] == rest;
      [s[0]] + rest
  }

  /** A run of white space that ends inside `a` ends at the same place in `a + b`. */
  lemma {:induction false} SpacesEndPrefix(a: string, b: string, i: nat)
    requires i <= |a| && SpacesEnd(a, i) < |a|
    ensures SpacesEnd(a + b, i) == SpacesEnd(a, i)
    decreases |a| - i
  {
    if IsReSpace(a[i]) {
      SpacesEndPrefix(a, b, i + 1);
    }
  }

  /** A run of white space filling the rest of `a` ends with `a` when `b`
      does not continue it. */
  lemma {:induction false} SpacesEndRun(a: string, b: string, i: nat)
    requires i <= |a|
    requires forall k :: i <= k < |a| ==> IsReSpace(a[k])
    requires |b| == 0 || !IsReSpace(b[0])
    ensures SpacesEnd(a + b, i) == |a|
    decreases |a| - i
  {
    if i < |a| {
      SpacesEndRun(a, b, i + 1);
    }
  }

  /** Collapsing works piecewise across a boundary after a non-space character. */
  lemma {:induction false} CollapseAppend(a: string, b: string)
    requires |a| > 0 && !IsReSpace(a[|a| - 1])
    ensures CollapseSpaces(a + b) == CollapseSpaces(a) + CollapseSpaces(b)
    decreases |a|
  {
    if IsReSpace(a[0]) {
      var j := SpacesEnd(a, 0);
      SpacesEndPrefix(a, b, 0);
      assert (a + b)[j..] == a[j..] + b;
      CollapseAppend(a[j..], b);
    } else if |a| > 1 {
      assert (a + b)[1..] == a[1..] + b;
      CollapseAppend(a[1..], b);
    } else {
      assert (a + b)[1..] == b;
    }
  }

  /** A whole run of white space, however long and of whatever kind,
      becomes exactly one plain space. */
  lemma CollapseRun(a: string, b: string)
    requires |a| > 0 && forall k :: 0 <= k < |a| ==> IsReSpace(a[k])
    requires |b| == 0 || !IsReSpace(b[0])
    ensures CollapseSpaces(a + b) == " " + CollapseSpaces(b)
  {
    SpacesEndRun(a, b, 0);
    assert (a + b)[|a|..] == b;
  }

  /** Index of the first character from `i` on that is not white space. */
  function FirstNonSpace(s: string, i: nat): (r: nat)
    requires i <= |s|
    ensures i <= r <= |s|
    ensures forall k :: i <= k < r ==> IsUnicodeSpace(s[k])
    ensures r < |s| ==> !IsUnicodeSpace(s[r])
    decreases |s| - i
  {
    if i == |s| || !IsUnicodeSpace(s[i]) then i else FirstNonSpace(s, i + 1)
  }

  /** One past the last character before `j` that is not white space, but
      not below `lo`. */
  function LastNonSpaceEnd(s: string, lo: nat, j: nat): (r: nat)
    requires lo <= j <= |s|
    ensures lo <= r <= j
    ensures forall k :: r <= k < j ==> IsUnicodeSpace(s[k])
    ensures r > lo ==> !IsUnicodeSpace(s[r - 1])
    decreases j
  {
    if j == lo || !IsUnicodeSpace(s[j - 1]) then j else LastNonSpaceEnd(s, lo, j - 1)
  }

  /** `strings.TrimSpace`: the slice of `s` between its leading and trailing
      white space. */
  function TrimSpace(s: string): (r: string)
    ensures |r| <= |s|
    ensures r == s[FirstNonSpace(s, 0)..LastNonSpaceEnd(s, FirstNonSpace(s, 0), |s|)]
    ensures r == "" || (!IsUnicodeSpace(r[0]) && !IsUnicodeSpace(r[|r| - 1]))
    ensures r == "" <==> forall k :: 0 <= k < |s| ==> IsUnicodeSpace(s[k])
  {
    var a := FirstNonSpace(s, 0);
    s[a..LastNonSpaceEnd(s, a, |s|)]
  }

  /** Trimming what is already trimmed changes nothing. */
  lemma TrimSpaceIdempotent(s: string)
    requires s == "" || (!IsUnicodeSpace(s[0]) && !IsUnicodeSpace(s[|s| - 1]))
    ensures TrimSpace(s) == s
  {
  }

  /** A slice keeps the properties the whitespace pass established. */
  lemma SliceKeepsSpacing(s: string, a: nat, b: nat)
    requires a <= b <= |s|
    requires NoDoubleSpace(s) && OnlyPlainSpaces(s) && NoBrackets(s)
    ensures NoDoubleSpace(s[a..b]) && OnlyPlainSpaces(s[a..b]) && NoBrackets(s[a..b])
  {
    var t := s[a..b];
    forall k | 0 <= k < |t| - 1
      ensures !(IsReSpace(t[k]) && IsReSpace(t[k + 1]))
    {
      assert t[k] == s[a + k] && t[k + 1] == s[a + k + 1];
    }
    forall c | c in t
      ensures c in s
    {
      var k :| 0 <= k < |t| && t[k] == c;
      assert s[a + k] == c;
    }
  }

  // ---------------------------------------------------------------------
  // The whole chain
  // ---------------------------------------------------------------------

  /** The chain of passes, in the order the code applies them. */
  function CleanPdfMarkup(text: string): (r: string)
    ensures |r| <= |text|
    ensures NoBrackets(r)
    ensures r == "" || (!IsUnicodeSpace(r[0]) && !IsUnicodeSpace(r[|r| - 1]))
    ensures NoDoubleSpace(r) && OnlyPlainSpaces(r)
    ensures '\n' !in r
  {
    var a := StripOperators(text, 0);
    var b := RemoveBrackets(a);
    var c := StripPattern(Positioning, StripPattern(FontDeclaration, b, 0), 0);
    var d := CollapseSpaces(c);
    var r := TrimSpace(d);
    SliceKeepsSpacing(d, FirstNonSpace(d, 0), LastNonSpaceEnd(d, FirstNonSpace(d, 0), |d|));
    NoNewline(r);
    r
  }

  lemma NoNewline(s: string)
    requires OnlyPlainSpaces(s)
    ensures '\n' !in s
  {
    if '\n' in s {
      var k :| 0 <= k < |s| && s[k] == '\n';
      assert IsReSpace(s[k]);
    }
  }

  // ---------------------------------------------------------------------
  // Passes that find nothing to do, and what the order of passes does
  // ---------------------------------------------------------------------

  /** `ReplaceAll` leaves a text alone when some character of the pattern
      does not occur in it. */
  lemma {:induction false} RemoveAllWithoutOccurrence(s: string, pat: string, j: nat)
    requires j < |pat| && pat[j] !in s
    ensures RemoveAll(s, pat) == s
    decreases |s|
  {
    if |s| >= |pat| {
      assert s[j] in s;
      assert s[..|pat|][j] == s[j] != pat[j];
      assert forall c :: c in s[1..] ==> c in s;
      RemoveAllWithoutOccurrence(s[1..], pat, j);
      assert [s[0]] + s[1..] == s;
    } else if |pat| == 1 {
      assert |s| == 0;
    }
  }

  lemma RemoveBracketsIdentity(s: string)
    requires NoBrackets(s)
    ensures RemoveBrackets(s) == s
  {
    RemoveAllWithoutOccurrence(s, "( ", 0);
    RemoveAllWithoutOccurrence(s, " )", 1);
    RemoveAllWithoutOccurrence(s, "(", 0);
    RemoveAllWithoutOccurrence(s, ")", 0);
    RemoveAllWithoutOccurrence(s, "[", 0);
    RemoveAllWithoutOccurrence(s, "]", 0);
  }

  /** Both patterns end in `Tf` or `Td`, so a match needs a `T`. */
  lemma MatchNeedsT(p: Pattern, s: string, i: nat)
    requires i <= |s| && MatchEnd(p, s, i).Some?
    ensures 'T' in s
  {
    var e := MatchEnd(p, s, i).value;
    assert s[e - 2] == 'T';
  }

  lemma NoMatchWithoutT(p: Pattern, s: string, i: nat)
    requires i <= |s| && 'T' !in s
    ensures MatchEnd(p, s, i).None?
  {
    if MatchEnd(p, s, i).Some? {
      MatchNeedsT(p, s, i);
    }
  }

  /** Without a `T` left in the text, the font and position passes change
      nothing. */
  lemma {:induction false} StripPatternWithoutT(p: Pattern, s: string, i: nat)
    requires i <= |s| && 'T' !in s
    ensures StripPattern(p, s, i) == s[i..]
    decreases |s| - i
  {
    if i < |s| {
      NoMatchWithoutT(p, s, i);
      calc {
        StripPattern(p, s, i);
        [s[i]] + StripPattern(p, s, i + 1);
        { StripPatternWithoutT(p, s, i + 1); }
        [s[i]] + s[i + 1..];
        s[i..];
      }
    }
  }

  /** `T*` is only an operator when a word character follows it, while the
      other fourteen operators need a non-word character or the end. */
  lemma OperatorBoundaries()
    ensures StripOperators("T* x", 0) == "T* x"
    ensures StripOperators("T*x", 0) == "x"
  {
  }

  /** A `Tf` after a space and at the end of the text is an operator. */
  lemma FontOperatorStripped()
    ensures StripOperators("/F1 2 Tf", 0) == "/F1 2 "
  {
    var s := "/F1 2 Tf";
    assert OperatorAt(s, 6);
    assert StripOperators(s, 6) == "";
    assert StripOperators(s, 3) == " 2 ";
  }

  /** On its own, the font pattern matches the whole declaration. */
  lemma FontPatternMatchesDeclaration()
    ensures MatchEnd(FontDeclaration, "/F1 2 Tf", 0) == Some(8)
  {
    var s := "/F1 2 Tf";
    assert DigitsEnd(s, 2) == 3;
    assert SpacesEnd(s, 3) == 4;
    assert DigitsEnd(s, 4) == 5;
    assert NumberEnd(s, 4) == Some(5);
    assert SpacesEnd(s, 5) == 6;
    assert OperatorTailEnd(s, 5, 'f') == Some(8);
  }

  /** A text whose white space is already single plain spaces is left as
      it is by the whitespace pass. */
  lemma {:induction false} CollapseIdentity(s: string)
    requires NoDoubleSpace(s) && OnlyPlainSpaces(s)
    ensures CollapseSpaces(s) == s
    decreases |s|
  {
    if |s| > 0 {
      var t := s[1..];
      assert NoDoubleSpace(t) by {
        forall k | 0 <= k < |t| - 1 ensures !(IsReSpace(t[k]) && IsReSpace(t[k + 1])) {
          assert t[k] == s[k + 1] && t[k + 1] == s[k + 2];
        }
      }
      assert OnlyPlainSpaces(t) by {
        forall k | 0 <= k < |t| && IsReSpace(t[k]) ensures t[k] == ' ' {
          assert t[k] == s[k + 1];
        }
      }
      CollapseIdentity(t);
      if IsReSpace(s[0]) {
        assert SpacesEnd(s, 0) == 1 by {
          if |s| > 1 { assert !IsReSpace(s[1]); }
        }
      }
      assert s == [s[0]] + t;
    }
  }

  lemma LeftoverExample()
    ensures NoBrackets("/F1 2 ") && 'T' !in "/F1 2 "
    ensures NoDoubleSpace("/F1 2 ") && OnlyPlainSpaces("/F1 2 ")
  {
  }

  lemma TrimExample()
    ensures TrimSpace("/F1 2 ") == "/F1 2"
  {
    var s := "/F1 2 ";
    assert FirstNonSpace(s, 0) == 0;
    assert LastNonSpaceEnd(s, 0, 6) == 5;
  }

  /** The operator pass runs first and already deletes a font declaration's
      `Tf`, so the font pass no longer finds the declaration and its name
      and size stay in the text. */
  lemma FontDeclarationSurvivesCleaning()
    ensures CleanPdfMarkup("/F1 2 Tf") == "/F1 2"
  {
    var a := "/F1 2 ";
    FontOperatorStripped();
    LeftoverExample();
    CollapseIdentity(a);
    RemoveBracketsIdentity(a);
    StripPatternWithoutT(FontDeclaration, a, 0);
    StripPatternWithoutT(Positioning, a, 0);
    TrimExample();
  }
}
