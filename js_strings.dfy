/** The JavaScript string built-ins the handlers rely on, on `seq<char>`:
    `split` on a one-character separator, `indexOf`/`includes`, `replace` with a
    string pattern (first occurrence only), `trim`, and `toLowerCase` restricted
    to ASCII letters. */
module JsStrings {
  import opened Wrappers

  /** The characters ECMAScript's `\s` matches and `trim` strips: WhiteSpace
      (tab, vertical tab, form feed, space, no-break space, byte-order mark and
      the other space separators) and LineTerminator (LF, CR, U+2028, U+2029). */
  predicate IsJsSpace(c: char) {
    || c == '\t' || c == '\n' || c == '\U{000B}' || c == '\U{000C}' || c == '\r'
    || c == ' ' || c == '\U{00A0}' || c == '\U{1680}'
    || ('\U{2000}' <= c <= '\U{200A}')
    || c == '\U{2028}' || c == '\U{2029}' || c == '\U{202F}' || c == '\U{205F}'
    || c == '\U{3000}' || c == '\U{FEFF}'
  }

  // ---------------------------------------------------------------------------
  // split

  /** Joins pieces with a separator; the inverse of `Split`. */
  function Join(parts: seq<string>, sep: char): string
    requires |parts| >= 1
  {
    if |parts| == 1 then parts[0] else parts[0] + [sep] + Join(parts[1..], sep)
  }

  /** `s.split(sep)`: the separator-free pieces of `s`, in order. The empty
      string splits into one empty piece. */
  function Split(s: string, sep: char): (r: seq<string>)
    ensures |r| >= 1
    ensures forall i :: 0 <= i < |r| ==> sep !in r[i]
    decreases |s|
  {
    if s == [] then [[]]
    else
      var rest := Split(s[1..], sep);
      if s[0] == sep then [[]] + rest
      else
        var r := [[s[0]] + rest[0]] + rest[1..];
        assert r[1..] == rest[1..];
        r
  }

  /** Joining the pieces of `s.split(sep)` with the separator gives back `s`;
      with no piece holding the separator, the pieces are the maximal ones. */
  lemma {:induction false} SplitJoin(s: string, sep: char)
    ensures Join(Split(s, sep), sep) == s
    decreases |s|
  {
    if s != [] {
      var rest := Split(s[1..], sep);
      SplitJoin(s[1..], sep);
      assert s == [s[0]] + s[1..];
      if s[0] != sep {
        var r := [[s[0]] + rest[0]] + rest[1..];
        assert r[1..] == rest[1..];
        assert |rest| > 1 ==> Join(rest, sep) == rest[0] + [sep] + Join(rest[1..], sep);
      }
    }
  }

  /** A string splits into two or more pieces exactly when it holds the separator. */
  lemma SplitHasTwoPiecesIffSeparator(s: string, sep: char)
    ensures |Split(s, sep)| >= 2 <==> sep in s
  {
    var r := Split(s, sep);
    SplitJoin(s, sep);
    if |r| >= 2 {
      assert Join(r, sep) == r[0] + [sep] + Join(r[1..], sep);
      assert s[|r[0]|] == sep;
    }
  }

  /** The last element of a non-empty sequence (`Array.prototype.pop` result). */
  function Last<T>(xs: seq<T>): T
    requires |xs| >= 1
  {
    xs[|xs| - 1]
  }

  /** The last piece of `s.split(sep)` is the longest separator-free suffix of
      `s`: it is a suffix, it holds no separator, and the character right before
      it, if any, is the separator. */
  lemma LastPieceIsFinalSuffix(s: string, sep: char)
    ensures var last := Last(Split(s, sep));
      && |last| <= |s|
      && last == s[|s| - |last|..]
      && sep !in last
      && (|last| < |s| ==> s[|s| - |last| - 1] == sep)
  {
    var r := Split(s, sep);
    assert sep !in r[|r| - 1];
    LastPieceIsSuffix(s, sep);
  }

  /** The positional half of `LastPieceIsFinalSuffix`, by induction on `s`. */
  lemma {:induction false} LastPieceIsSuffix(s: string, sep: char)
    ensures var last := Last(Split(s, sep));
      && |last| <= |s|
      && last == s[|s| - |last|..]
      && (|last| < |s| ==> s[|s| - |last| - 1] == sep)
    decreases |s|
  {
    if s != [] {
      var tail := s[1..];
      LastPieceStep(s, sep);
      if s[0] != sep && |Split(tail, sep)| == 1 {
        assert Last(Split(s, sep)) == s;
        assert s[|s| - |s|..] == s;
      } else {
        LastPieceIsSuffix(tail, sep);
        var last := Last(Split(tail, sep));
        assert Last(Split(s, sep)) == last;
        if s[0] != sep {
          SplitHasTwoPiecesIffSeparator(tail, sep);
          var r := Split(tail, sep);
          assert sep !in r[|r| - 1];
          assert |last| < |tail|;
        }
        assert tail[|tail| - |last|..] == s[|s| - |last|..];
        assert |last| < |tail| ==> tail[|tail| - |last| - 1] == s[|s| - |last| - 1];
      }
    }
  }

  /** The last piece of a non-empty string's split is the last piece of its
      tail's split, unless the tail has no separator and the string does not
      start with one: then it is the whole string. */
  lemma LastPieceStep(s: string, sep: char)
    requires s != []
    ensures var rest := Split(s[1..], sep);
      Last(Split(s, sep)) == if s[0] != sep && |rest| == 1 then s else Last(rest)
  {
    var rest := Split(s[1..], sep);
    var whole := Split(s, sep);
    if s[0] == sep {
      assert whole == [[]] + rest;
      assert Last(whole) == Last(rest);
    } else {
      var r := [[s[0]] + rest[0]] + rest[1..];
      assert whole == r;
      if |rest| == 1 {
        SplitJoin(s[1..], sep);
        assert rest[0] == s[1..];
        assert s == [s[0]] + s[1..];
        assert Last(whole) == s;
      } else {
        assert r[|r| - 1] == rest[|rest| - 1];
        assert Last(whole) == Last(rest);
      }
    }
  }

  /** The last piece of `s.split(sep)` is empty exactly when `s` is empty or ends
      with the separator. */
  lemma LastPieceEmpty(s: string, sep: char)
    ensures Last(Split(s, sep)) == [] <==> (s == [] || s[|s| - 1] == sep)
  {
    LastPieceIsFinalSuffix(s, sep);
  }

  // ---------------------------------------------------------------------------
  // indexOf, includes

  /** `p` occurs in `s` starting at index `i`. */
  predicate OccursAt(s: string, p: string, i: int) {
    0 <= i && i + |p| <= |s| && s[i..i + |p|] == p
  }

  /** `p` occurs somewhere in `s`. */
  ghost predicate Occurs(s: string, p: string) {
    exists i :: OccursAt(s, p, i)
  }

  /** `s.indexOf(p)`: the first index at which `p` occurs, if any. */
  function IndexOf(s: string, p: string): (r: Option<nat>)
    ensures r.Some? ==> OccursAt(s, p, r.value)
    ensures r.Some? ==> forall j :: 0 <= j < r.value ==> !OccursAt(s, p, j)
    ensures r.None? <==> !Occurs(s, p)
    decreases |s|
  {
    if |s| < |p| then None
    else if s[..|p|] == p then Some(0)
    else
      var r := IndexOf(s[1..], p);
      ShiftOccurs(s, p);
      assert !OccursAt(s, p, 0);
      assert forall j :: OccursAt(s, p, j) ==> j >= 1 && OccursAt(s[1..], p, j - 1);
      match r
      case None => None
      case Some(i) => Some(i + 1)
  }

  /** An occurrence in `s[1..]` at `j` is an occurrence in `s` at `j + 1`. */
  lemma ShiftOccurs(s: string, p: string)
    requires |s| >= 1
    ensures forall j :: 0 <= j ==> (OccursAt(s[1..], p, j) <==> OccursAt(s, p, j + 1))
  {
    forall j | 0 <= j
      ensures OccursAt(s[1..], p, j) <==> OccursAt(s, p, j + 1)
    {
      if j + 1 + |p| <= |s| {
        assert s[1..][j..j + |p|] == s[j + 1..j + 1 + |p|];
      }
    }
  }

  /** A string occurs in a concatenation at the point where it was put. */
  lemma OccursInMiddle(a: string, p: string, b: string)
    ensures OccursAt(a + p + b, p, |a|)
  {
    assert (a + p + b)[|a|..|a| + |p|] == p;
  }

  /** A regular expression made of the literal `p`, tested against `s` with
      `RegExp.prototype.test`. */
  predicate Contains(s: string, p: string) {
    IndexOf(s, p).Some?
  }

  /** A regular expression `p0|p1|...` of literal alternatives tested against `s`. */
  function ContainsAny(s: string, ps: seq<string>): (r: bool)
    ensures r <==> exists k :: 0 <= k < |ps| && Occurs(s, ps[k])
    decreases |ps|
  {
    if ps == [] then false
    else if Contains(s, ps[0]) then true
    else
      var r := ContainsAny(s, ps[1..]);
      assert forall k :: 1 <= k < |ps| ==> ps[k] == ps[1..][k - 1];
      r
  }

  // ---------------------------------------------------------------------------
  // replace (string pattern), trim, toLowerCase

  /** `p` occurs at `i` and nowhere before. */
  predicate FirstOccurrence(s: string, p: string, i: int) {
    OccursAt(s, p, i) && forall j :: 0 <= j < i ==> !OccursAt(s, p, j)
  }

  /** `s.replace(p, rep)` with a string pattern and a replacement holding no `$`:
      only the first occurrence of `p` is replaced, and a string without `p` is
      returned unchanged. */
  function ReplaceFirst(s: string, p: string, rep: string): (r: string)
    ensures !Occurs(s, p) ==> r == s
    ensures forall i :: FirstOccurrence(s, p, i) ==> r == s[..i] + rep + s[i + |p|..]
    ensures Occurs(s, p) ==> |r| == |s| - |p| + |rep|
  {
    match IndexOf(s, p)
    case None => s
    case Some(i) => s[..i] + rep + s[i + |p|..]
  }

  /** A string that starts with the pattern has that first occurrence replaced. */
  lemma ReplaceLeadingPattern(p: string, rest: string, rep: string)
    ensures ReplaceFirst(p + rest, p, rep) == rep + rest
  {
    var s := p + rest;
    assert FirstOccurrence(s, p, 0) by {
      assert s[..|p|] == p;
    }
    assert ReplaceFirst(s, p, rep) == s[..0] + rep + s[|p|..];
    assert s[..0] + rep == rep;
    assert s[|p|..] == rest;
  }

  /** `s.trimStart()`: drops the leading JavaScript whitespace. */
  function TrimStart(s: string): (r: string)
    ensures |r| <= |s| && r == s[|s| - |r|..]
    ensures forall k :: 0 <= k < |s| - |r| ==> IsJsSpace(s[k])
    ensures r == [] || !IsJsSpace(r[0])
    decreases |s|
  {
    if s != [] && IsJsSpace(s[0]) then TrimStart(s[1..]) else s
  }

  /** `s.trimEnd()`: drops the trailing JavaScript whitespace. */
  function TrimEnd(s: string): (r: string)
    ensures |r| <= |s| && r == s[..|r|]
    ensures forall k :: |r| <= k < |s| ==> IsJsSpace(s[k])
    ensures r == [] || !IsJsSpace(r[|r| - 1])
    decreases |s|
  {
    if s != [] && IsJsSpace(s[|s| - 1]) then TrimEnd(s[..|s| - 1]) else s
  }

  /** `r` is the part of `s` starting at `a`, and everything of `s` outside it
      is whitespace. */
  predicate StrippedAt(s: string, r: string, a: int) {
    && 0 <= a && a + |r| <= |s| && r == s[a..a + |r|]
    && (forall k :: 0 <= k < a ==> IsJsSpace(s[k]))
    && (forall k :: a + |r| <= k < |s| ==> IsJsSpace(s[k]))
  }

  /** `s.trim()`: the input with only whitespace taken off its two ends, so that
      the result neither starts nor ends with whitespace; a string that already
      does neither is returned unchanged. */
  function Trim(s: string): (r: string)
    ensures |r| <= |s|
    ensures exists a :: StrippedAt(s, r, a)
    ensures r == [] || (!IsJsSpace(r[0]) && !IsJsSpace(r[|r| - 1]))
    ensures (s == [] || (!IsJsSpace(s[0]) && !IsJsSpace(s[|s| - 1]))) ==> r == s
  {
    var t := TrimStart(s);
    var r := TrimEnd(t);
    assert r != [] ==> r[0] == t[0];
    TrimStrips(s);
    r
  }

  /** The trimmed string is the input from the first non-whitespace character
      on, with only whitespace after it. */
  lemma TrimStrips(s: string)
    ensures StrippedAt(s, TrimEnd(TrimStart(s)), |s| - |TrimStart(s)|)
  {
    StripCompose(s, TrimStart(s), TrimEnd(TrimStart(s)));
  }

  /** Dropping leading whitespace, then trailing whitespace, leaves an infix
      with only whitespace around it. */
  lemma StripCompose(s: string, t: string, r: string)
    requires |t| <= |s| && t == s[|s| - |t|..]
    requires forall k :: 0 <= k < |s| - |t| ==> IsJsSpace(s[k])
    requires |r| <= |t| && r == t[..|r|]
    requires forall k :: |r| <= k < |t| ==> IsJsSpace(t[k])
    ensures StrippedAt(s, r, |s| - |t|)
  {
    var a := |s| - |t|;
    assert r == s[a..a + |r|];
    forall k | a + |r| <= k < |s|
      ensures IsJsSpace(s[k])
    {
      assert s[k] == t[k - a];
    }
  }


  /** A leading whitespace character is dropped by `trimStart`. */
  lemma TrimStartSkipsSpace(c: char, t: string)
    requires IsJsSpace(c)
    ensures TrimStart([c] + t) == TrimStart(t)
  {
    assert ([c] + t)[1..] == t;
  }

  /** A string that neither starts nor ends with whitespace is its own trim. */
  lemma TrimUnpadded(t: string)
    requires t != [] ==> !IsJsSpace(t[0]) && !IsJsSpace(t[|t| - 1])
    ensures TrimStart(t) == t && TrimEnd(t) == t
  {
  }

  /** `toLowerCase` on one character, for the ASCII letters only. */
  function LowerChar(c: char): char {
    if IsAsciiUpper(c) then (c as int + 32) as char else c
  }

  /** `s.toLowerCase()`, for the ASCII letters only: the length is kept, no
      upper-case ASCII letter is left, and every other character is unchanged. */
  function AsciiLower(s: string): (r: string)
    ensures |r| == |s|
    ensures forall i :: 0 <= i < |r| ==> !IsAsciiUpper(r[i])
    ensures forall i :: 0 <= i < |s| && !IsAsciiUpper(s[i]) ==> r[i] == s[i]
  {
    seq(|s|, i requires 0 <= i < |s| => LowerChar(s[i]))
  }

  predicate IsAsciiUpper(c: char) {
    'A' <= c <= 'Z'
  }

  /** The upper-case partner of an ASCII lower-case letter; other characters map
      to themselves. */
  function UpperChar(c: char): char {
    if 'a' <= c <= 'z' then (c as int - 32) as char else c
  }

  /** Lower-casing twice is lower-casing once. */
  lemma AsciiLowerIdempotent(s: string)
    ensures AsciiLower(AsciiLower(s)) == AsciiLower(s)
  {
  }

  /** `p` occurs in `s` at `i` when ASCII letter case is ignored: each character
      is the pattern's own or its upper-case partner. */
  predicate CaselessAt(s: string, p: string, i: int) {
    0 <= i && i + |p| <= |s|
    && forall k :: 0 <= k < |p| ==> s[i + k] == p[k] || s[i + k] == UpperChar(p[k])
  }

  /** `p` occurs somewhere in `s` when ASCII letter case is ignored. */
  ghost predicate OccursCaseless(s: string, p: string) {
    exists i :: CaselessAt(s, p, i)
  }

  /** For a pattern with no upper-case letter, testing it against the
      lower-cased string is testing it against the original string with case
      ignored: what a literal `/p/i` or `includes(p)` on `toLowerCase()` computes. */
  lemma {:induction false} LowerOccursIffCaseless(s: string, p: string)
    requires forall k :: 0 <= k < |p| ==> !IsAsciiUpper(p[k])
    ensures Occurs(AsciiLower(s), p) <==> OccursCaseless(s, p)
  {
    var lower := AsciiLower(s);
    forall i | 0 <= i && i + |p| <= |s|
      ensures OccursAt(lower, p, i) <==> CaselessAt(s, p, i)
    {
      LowerAtIffCaseless(s, p, i);
    }
    if Occurs(lower, p) {
      var i :| OccursAt(lower, p, i);
      assert CaselessAt(s, p, i);
    }
    if OccursCaseless(s, p) {
      var i :| CaselessAt(s, p, i);
      assert OccursAt(lower, p, i);
    }
  }

  /** The one-position step of `LowerOccursIffCaseless`. */
  lemma LowerAtIffCaseless(s: string, p: string, i: int)
    requires forall k :: 0 <= k < |p| ==> !IsAsciiUpper(p[k])
    requires 0 <= i && i + |p| <= |s|
    ensures OccursAt(AsciiLower(s), p, i) <==> CaselessAt(s, p, i)
  {
    var lower := AsciiLower(s);
    var w := lower[i..i + |p|];
    forall k | 0 <= k < |p|
      ensures w[k] == p[k] <==> (s[i + k] == p[k] || s[i + k] == UpperChar(p[k]))
    {
      assert w[k] == LowerChar(s[i + k]);
    }
    if CaselessAt(s, p, i) {
      assert w == p;
    }
  }
}
