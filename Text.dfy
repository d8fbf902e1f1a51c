/** String helpers with JavaScript's semantics: `String.prototype.trim`,
    `startsWith`, `indexOf` and `split` with a non-empty string separator,
    and `Array.prototype.join`. */
module Text {

  import opened Wrappers

  /** The characters JavaScript's `trim` removes and the regular-expression
      class `\s` matches: WhiteSpace and LineTerminator of ECMAScript. */
  predicate IsWhitespace(c: char) {
    c == '\t' || c == '\n' || c == '\U{000B}' || c == '\U{000C}' || c == '\r' ||
    c == ' ' || c == '\U{00A0}' || c == '\U{1680}' ||
    ('\U{2000}' <= c <= '\U{200A}') ||
    c == '\U{2028}' || c == '\U{2029}' || c == '\U{202F}' || c == '\U{205F}' ||
    c == '\U{3000}' || c == '\U{FEFF}'
  }

  predicate AllWhitespace(s: string) {
    forall i :: 0 <= i < |s| ==> IsWhitespace(s[i])
  }

  predicate StartsWith(s: string, prefix: string) {
    |prefix| <= |s| && s[..|prefix|] == prefix
  }

  /** `pat` occurs in `s` at index `i`. */
  predicate OccursAt(s: string, pat: string, i: int) {
    0 <= i && i + |pat| <= |s| && s[i..i + |pat|] == pat
  }

  predicate Contains(s: string, pat: string) {
    exists i :: 0 <= i <= |s| && OccursAt(s, pat, i)
  }

  function TrimStart(s: string): (r: string)
    ensures |r| <= |s| && r == s[|s| - |r|..]
    ensures AllWhitespace(s[..|s| - |r|])
    ensures r == [] || !IsWhitespace(r[0])
  {
    if |s| > 0 && IsWhitespace(s[0]) then
      var r := TrimStart(s[1..]);
      assert s[1..][..|s| - 1 - |r|] == s[1..|s| - |r|];
      r
    else s
  }

  function TrimEnd(s: string): (r: string)
    ensures |r| <= |s| && r == s[..|r|]
    ensures AllWhitespace(s[|r|..])
    ensures r == [] || !IsWhitespace(r[|r| - 1])
  {
    if |s| > 0 && IsWhitespace(s[|s| - 1]) then
      var r := TrimEnd(s[..|s| - 1]);
      assert s[|r|..] == s[..|s| - 1][|r|..] + [s[|s| - 1]];
      r
    else s
  }

  /** JavaScript's `s.trim()`. */
  function Trim(s: string): string {
    TrimEnd(TrimStart(s))
  }

  /** `TrimStart` drops a whitespace run and stops at the first other
      character. */
  lemma {:induction false} TrimStartSkipsWhitespace(ws: string, t: string)
    requires AllWhitespace(ws) && (t == [] || !IsWhitespace(t[0]))
    ensures TrimStart(ws + t) == t
    decreases |ws|
  {
    if |ws| > 0 {
      assert (ws + t)[1..] == ws[1..] + t;
      TrimStartSkipsWhitespace(ws[1..], t);
    } else {
      assert ws + t == t;
    }
  }

  /** `Trim` keeps only characters of the string. */
  lemma TrimKeepsCharacters(s: string)
    ensures forall c :: c in Trim(s) ==> c in s
  {
    var t := TrimStart(s);
    SuffixKeepsCharacters(s, t);
    PrefixKeepsCharacters(t, TrimEnd(t));
  }

  lemma SuffixKeepsCharacters(s: string, t: string)
    requires |t| <= |s| && t == s[|s| - |t|..]
    ensures forall c :: c in t ==> c in s
  {
    forall c | c in t ensures c in s {
      var i :| 0 <= i < |t| && t[i] == c;
      assert s[|s| - |t| + i] == c;
    }
  }

  lemma PrefixKeepsCharacters(t: string, u: string)
    requires |u| <= |t| && u == t[..|u|]
    ensures forall c :: c in u ==> c in t
  {
    forall c | c in u ensures c in t {
      var i :| 0 <= i < |u| && u[i] == c;
      assert t[i] == c;
    }
  }

  /** What `Trim` keeps neither starts nor ends with whitespace. */
  lemma TrimEnds(s: string)
    ensures Trim(s) == [] || (!IsWhitespace(Trim(s)[0]) && !IsWhitespace(Trim(s)[|Trim(s)| - 1]))
  {
    var t := TrimStart(s);
    var u := TrimEnd(t);
    assert u != [] ==> u[0] == t[0];
  }

  /** A string trims to nothing exactly when it is whitespace only; this is
      the test `filter(p => p.trim())` applies. */
  lemma TrimEmptyIff(s: string)
    ensures Trim(s) == [] <==> AllWhitespace(s)
  {
    var t := TrimStart(s);
    if Trim(s) == [] {
      assert t == [] by { assert AllWhitespace(t[0..]); }
      forall i | 0 <= i < |s| ensures IsWhitespace(s[i]) {
        assert s[i] == s[..|s| - |t|][i];
      }
    }
  }

  /** The first index at which `pat` occurs in `s` at or after `from`
      (`s.indexOf(pat, from)`, with None for -1). */
  function IndexOfFrom(s: string, pat: string, from: nat): (r: Option<nat>)
    requires |pat| > 0
    ensures r.Some? ==> from <= r.value && OccursAt(s, pat, r.value)
    ensures r.Some? ==> forall j :: from <= j < r.value ==> !OccursAt(s, pat, j)
    ensures r.None? ==> forall j :: from <= j ==> !OccursAt(s, pat, j)
    decreases |s| - from
  {
    if from + |pat| > |s| then None
    else if s[from..from + |pat|] == pat then Some(from)
    else IndexOfFrom(s, pat, from + 1)
  }

  function IndexOf(s: string, pat: string): (r: Option<nat>)
    requires |pat| > 0
    ensures r.Some? ==> OccursAt(s, pat, r.value) && forall j :: 0 <= j < r.value ==> !OccursAt(s, pat, j)
    ensures r.None? <==> !Contains(s, pat)
  {
    IndexOfFrom(s, pat, 0)
  }

  /** JavaScript's `s.split(sep)` for a non-empty separator: the string is
      cut at the occurrences of `sep` found left to right without overlap. */
  function Split(s: string, sep: string): (parts: seq<string>)
    requires |sep| > 0
    ensures |parts| >= 1
    decreases |s|
  {
    if |s| < |sep| then [s]
    else if s[..|sep|] == sep then [""] + Split(s[|sep|..], sep)
    else
      var rest := Split(s[1..], sep);
      [[s[0]] + rest[0]] + rest[1..]
  }

  /** JavaScript's `parts.join(sep)`. */
  function Join(parts: seq<string>, sep: string): string {
    if |parts| == 0 then ""
    else if |parts| == 1 then parts[0]
    else parts[0] + sep + Join(parts[1..], sep)
  }

  lemma {:induction false} JoinConsHead(c: char, p: string, rest: seq<string>, sep: string)
    ensures Join([[c] + p] + rest, sep) == [c] + Join([p] + rest, sep)
  {
    var xs, ys := [[c] + p] + rest, [p] + rest;
    assert xs[1..] == rest && ys[1..] == rest;
  }

  /** Joining the pieces of a split with the same separator gives back the
      original string. */
  lemma {:induction false} JoinSplit(s: string, sep: string)
    requires |sep| > 0
    ensures Join(Split(s, sep), sep) == s
    decreases |s|
  {
    if |s| < |sep| {
    } else if s[..|sep|] == sep {
      JoinSplit(s[|sep|..], sep);
      JoinEmptyHead(Split(s[|sep|..], sep), sep);
      assert s == sep + s[|sep|..];
    } else {
      var rest := Split(s[1..], sep);
      JoinSplit(s[1..], sep);
      JoinExtendedHead(s[0], rest, sep);
      assert s == [s[0]] + s[1..];
    }
  }

  lemma JoinEmptyHead(rest: seq<string>, sep: string)
    requires |rest| >= 1
    ensures Join([""] + rest, sep) == sep + Join(rest, sep)
  {
    assert ([""] + rest)[1..] == rest;
  }

  lemma JoinExtendedHead(c: char, rest: seq<string>, sep: string)
    requires |rest| >= 1
    ensures Join([[c] + rest[0]] + rest[1..], sep) == [c] + Join(rest, sep)
  {
    JoinConsHead(c, rest[0], rest[1..], sep);
    assert [rest[0]] + rest[1..] == rest;
  }

  /** The first piece of a split is a prefix of the string. */
  lemma {:induction false} SplitHeadIsPrefix(s: string, sep: string)
    requires |sep| > 0
    ensures StartsWith(s, Split(s, sep)[0])
    decreases |s|
  {
    if |s| < |sep| {
    } else if s[..|sep|] == sep {
    } else {
      SplitHeadIsPrefix(s[1..], sep);
    }
  }

  /** No piece of a split contains the separator: the cuts are made at
      every occurrence. */
  lemma {:induction false} SplitPiecesAvoidSeparator(s: string, sep: string)
    requires |sep| > 0
    ensures forall k :: 0 <= k < |Split(s, sep)| ==> !Contains(Split(s, sep)[k], sep)
    decreases |s|
  {
    if |s| < |sep| {
      ShortTextAvoids(s, sep);
    } else if s[..|sep|] == sep {
      SplitPiecesAvoidSeparator(s[|sep|..], sep);
      ShortTextAvoids("", sep);
    } else {
      SplitPiecesAvoidSeparator(s[1..], sep);
      SplitHeadIsPrefix(s[1..], sep);
      var rest := Split(s[1..], sep);
      ExtendedHeadAvoids(s, sep, rest[0]);
      assert Split(s, sep) == [[s[0]] + rest[0]] + rest[1..];
    }
  }

  /** A text shorter than the separator does not contain it. */
  lemma ShortTextAvoids(s: string, sep: string)
    requires |s| < |sep|
    ensures !Contains(s, sep)
  {
    forall i | 0 <= i <= |s| ensures !OccursAt(s, sep, i) {
    }
  }

  /** The first piece of a split that does not start at a separator is the
      first character followed by the first piece of the rest; it contains
      no separator when that piece does not. */
  lemma ExtendedHeadAvoids(s: string, sep: string, piece: string)
    requires |sep| > 0 && |sep| <= |s| && s[..|sep|] != sep
    requires StartsWith(s[1..], piece) && !Contains(piece, sep)
    ensures !Contains([s[0]] + piece, sep)
  {
    var h := [s[0]] + piece;
    assert h == s[..|h|];
    forall i | 0 <= i <= |h| ensures !OccursAt(h, sep, i) {
      if i == 0 {
        if |sep| <= |h| {
          assert h[..|sep|] == s[..|sep|];
        }
      } else if i + |sep| <= |h| {
        assert h[i..i + |sep|] == piece[i - 1..i - 1 + |sep|];
        assert !OccursAt(piece, sep, i - 1);
      }
    }
  }

  /** Every character of a piece of a split is a character of the string. */
  lemma {:induction false} SplitPiecesFromString(s: string, sep: string)
    requires |sep| > 0
    ensures forall k, c :: 0 <= k < |Split(s, sep)| && c in Split(s, sep)[k] ==> c in s
    decreases |s|
  {
    if |s| < |sep| {
    } else if s[..|sep|] == sep {
      SplitPiecesFromString(s[|sep|..], sep);
      var rest := Split(s[|sep|..], sep);
      forall k, c | 0 <= k < |Split(s, sep)| && c in Split(s, sep)[k] ensures c in s {
        assert Split(s, sep)[k] == rest[k - 1];
        assert c in s[|sep|..];
      }
    } else {
      SplitPiecesFromString(s[1..], sep);
      var rest := Split(s[1..], sep);
      forall k, c | 0 <= k < |Split(s, sep)| && c in Split(s, sep)[k] ensures c in s {
        if k == 0 {
          assert Split(s, sep)[0] == [s[0]] + rest[0];
          assert c == s[0] || c in rest[0];
        } else {
          assert Split(s, sep)[k] == rest[k];
        }
        assert c == s[0] || c in s[1..];
      }
    }
  }

  /** A string lacking the first character of a pattern does not contain
      the pattern. */
  lemma MissingFirstCharacter(s: string, pat: string)
    requires |pat| > 0 && pat[0] !in s
    ensures !Contains(s, pat)
  {
    forall i | 0 <= i <= |s| ensures !OccursAt(s, pat, i) {
      if i + |pat| <= |s| {
        assert s[i..i + |pat|][0] == s[i];
      }
    }
  }

  /** The first cut is made at the first occurrence of the separator, and
      the rest is split on from just after it. With `SplitWithoutSeparator`
      this determines every piece of a split. */
  lemma SplitAtFirst(s: string, sep: string, i: nat)
    requires |sep| > 0 && IndexOf(s, sep) == Some(i)
    ensures Split(s, sep) == [s[..i]] + Split(s[i + |sep|..], sep)
  {
    SplitAtFirstOccurrence(s, sep, i);
  }

  lemma {:induction false} SplitAtFirstOccurrence(s: string, sep: string, i: nat)
    requires |sep| > 0 && OccursAt(s, sep, i)
    requires forall j :: 0 <= j < i ==> !OccursAt(s, sep, j)
    ensures Split(s, sep) == [s[..i]] + Split(s[i + |sep|..], sep)
    decreases i
  {
    if i == 0 {
      assert s[..|sep|] == sep;
    } else {
      var t := s[1..];
      OccursInTail(s, sep, i - 1);
      forall j | 0 <= j < i - 1 ensures !OccursAt(t, sep, j) {
        OccursInTail(s, sep, j);
      }
      SplitAtFirstOccurrence(t, sep, i - 1);
      assert t[i - 1 + |sep|..] == s[i + |sep|..];
      assert !OccursAt(s, sep, 0);
      SplitOfPlainStart(s, sep);
      ExtendFirstPiece(s, i, Split(t, sep), Split(s[i + |sep|..], sep));
    }
  }

  /** A split whose string does not start with the separator extends the
      first piece of the split of the tail by the first character. */
  lemma SplitOfPlainStart(s: string, sep: string)
    requires |sep| > 0 && |sep| <= |s| && s[..|sep|] != sep
    ensures Split(s, sep) == [[s[0]] + Split(s[1..], sep)[0]] + Split(s[1..], sep)[1..]
  {
  }

  lemma ExtendFirstPiece(s: string, i: nat, rest: seq<string>, more: seq<string>)
    requires 0 < i <= |s| && rest == [s[1..][..i - 1]] + more
    ensures [[s[0]] + rest[0]] + rest[1..] == [s[..i]] + more
  {
    assert [s[0]] + s[1..][..i - 1] == s[..i];
    assert rest[1..] == more;
  }

  /** An occurrence in the tail of a string is one in the string, one
      index further on. */
  lemma OccursInTail(s: string, pat: string, k: nat)
    requires |s| > 0
    ensures OccursAt(s[1..], pat, k) <==> OccursAt(s, pat, k + 1)
  {
    if k + |pat| <= |s| - 1 {
      assert s[1..][k..k + |pat|] == s[k + 1..k + 1 + |pat|];
    }
  }

  /** The cuts are leftmost: of the two ways to cut "\n\n\n" into pieces
      without "\n\n" joined by it, `split` takes the one cut at index 0. */
  lemma SplitIsLeftmost()
    ensures Split("\n\n\n", "\n\n") == ["", "\n"]
  {
    assert OccursAt("\n\n\n", "\n\n", 0);
    SplitAtFirst("\n\n\n", "\n\n", 0);
  }

  /** A string without the separator is its own single piece. */
  lemma {:induction false} SplitWithoutSeparator(s: string, sep: string)
    requires |sep| > 0 && !Contains(s, sep)
    ensures Split(s, sep) == [s]
    decreases |s|
  {
    if |s| < |sep| {
    } else {
      assert !OccursAt(s, sep, 0);
      assert !Contains(s[1..], sep) by {
        forall i | OccursAt(s[1..], sep, i) ensures false {
          assert s[1..][i..i + |sep|] == s[i + 1..i + 1 + |sep|];
          assert OccursAt(s, sep, i + 1);
        }
      }
      SplitWithoutSeparator(s[1..], sep);
      assert s == [s[0]] + s[1..];
    }
  }

  /** Concatenation of a sequence of strings (`join('')` without separator). */
  function Concat(parts: seq<string>): string {
    if |parts| == 0 then "" else parts[0] + Concat(parts[1..])
  }

  lemma {:induction false} ConcatAppend(a: seq<string>, b: seq<string>)
    ensures Concat(a + b) == Concat(a) + Concat(b)
  {
    if |a| > 0 {
      assert (a + b)[1..] == a[1..] + b;
      ConcatAppend(a[1..], b);
    } else {
      assert a + b == b;
    }
  }

  /** Cutting a concatenation of four strings at the part boundaries gives
      the parts back. */
  lemma SlicesOfFour(a: string, b: string, c: string, d: string)
    ensures var s := a + b + c + d;
      && |s| == |a| + |b| + |c| + |d|
      && s[..|a|] == a
      && s[|a|..|a| + |b|] == b
      && s[|a| + |b|..|s| - |d|] == c
      && s[|s| - |d|..] == d
      && s[|a| + |b|..] == c + d
  {
    var s := a + b + c + d;
    assert s == a + (b + (c + d));
  }

  /** A prefix no longer than `a` is a prefix of `a + b` exactly when it is
      one of `a`. */
  lemma StartsWithAppend(a: string, b: string, prefix: string)
    requires |prefix| <= |a|
    ensures StartsWith(a + b, prefix) <==> StartsWith(a, prefix)
  {
    assert (a + b)[..|prefix|] == a[..|prefix|];
  }

  /** A string without the separator's first character is one piece. */
  lemma SplitOfUnbrokenText(s: string, sep: string)
    requires |sep| > 0 && sep[0] !in s
    ensures Split(s, sep) == [s]
  {
    MissingFirstCharacter(s, sep);
    SplitWithoutSeparator(s, sep);
  }

  /** A string that starts and ends with a non-whitespace character trims
      to itself. */
  lemma TrimOfFramed(s: string)
    requires |s| > 0 && !IsWhitespace(s[0]) && !IsWhitespace(s[|s| - 1])
    ensures Trim(s) == s && !AllWhitespace(s)
  {
    assert TrimStart(s) == s;
  }

  /** What `Trim` keeps of a string without `c` does not start with `c`. */
  lemma TrimmedFirstCharacter(s: string, c: char)
    requires c !in s
    ensures Trim(s) == [] || Trim(s)[0] != c
  {
    TrimKeepsCharacters(s);
    if Trim(s) != [] {
      assert Trim(s)[0] in Trim(s);
    }
  }
}
