/**
 * The parts of Python's `str` and `os.path` that the pipeline relies on,
 * written as functions on `seq<char>`: `isspace`, `strip`, `split()`,
 * `split(sep)`, `sep.join`, `in`, `startswith`, `lower`, `rfind`,
 * `posixpath.join` and `posixpath.splitext` -- together with the facts
 * about them that the components' proofs use.
 */
module PyStrings {

  /** `c.isspace()`: the characters `str.split()` and `str.strip()` treat as white space. */
  predicate IsSpace(c: char) {
    var n := c as int;
    n == 0x20 || 0x09 <= n <= 0x0D || 0x1C <= n <= 0x1F || n == 0x85 || n == 0xA0
    || n == 0x1680 || 0x2000 <= n <= 0x200A || n == 0x2028 || n == 0x2029
    || n == 0x202F || n == 0x205F || n == 0x3000
  }

  /** A non-empty run of non-space characters: what `str.split()` produces. */
  predicate IsWord(w: string) {
    |w| > 0 && forall i :: 0 <= i < |w| ==> !IsSpace(w[i])
  }

  /** Every white-space character is a single blank strictly inside the text and not followed by another. */
  predicate Tidy(s: string) {
    forall i :: 0 <= i < |s| && IsSpace(s[i]) ==> s[i] == ' ' && 0 < i < |s| - 1 && !IsSpace(s[i + 1])
  }

  predicate StartsWith(s: string, p: string) {
    |p| <= |s| && s[..|p|] == p
  }

  predicate EndsWith(s: string, p: string) {
    |p| <= |s| && s[|s| - |p|..] == p
  }

  // ---------------------------------------------------------------- strip

  /** `s.lstrip()` */
  function TrimLeft(s: string): (r: string)
    ensures |r| <= |s| && r == s[|s| - |r|..]
    ensures r == [] || !IsSpace(r[0])
    ensures forall i :: 0 <= i < |s| - |r| ==> IsSpace(s[i])
  {
    if s != [] && IsSpace(s[0]) then
      var r := TrimLeft(s[1..]);
      assert s[1..][|s[1..]| - |r|..] == s[|s| - |r|..];
      r
    else s
  }

  /** `s.rstrip()` */
  function TrimRight(s: string): (r: string)
    ensures |r| <= |s| && r == s[..|r|]
    ensures r == [] || !IsSpace(r[|r| - 1])
    ensures forall i :: |r| <= i < |s| ==> IsSpace(s[i])
  {
    if s != [] && IsSpace(s[|s| - 1]) then TrimRight(s[..|s| - 1]) else s
  }

  /** Where `s.strip()` starts inside `s`. */
  function StripOffset(s: string): nat {
    |s| - |TrimLeft(s)|
  }

  /** `s.strip()`: `s` without white space at either end. */
  function Strip(s: string): (r: string)
    ensures StripOffset(s) + |r| <= |s|
    ensures r == [] || (!IsSpace(r[0]) && !IsSpace(r[|r| - 1]))
    ensures forall i :: 0 <= i < StripOffset(s) ==> IsSpace(s[i])
    ensures forall i :: StripOffset(s) + |r| <= i < |s| ==> IsSpace(s[i])
  {
    TrimRight(TrimLeft(s))
  }

  /** Nothing but white space: `not s.strip()`. */
  predicate IsBlank(s: string) {
    forall i :: 0 <= i < |s| ==> IsSpace(s[i])
  }

  lemma {:induction false} StripEmptyIffBlank(s: string)
    ensures Strip(s) == [] <==> IsBlank(s)
  {
    if Strip(s) == [] {
      forall i | 0 <= i < |s|
        ensures IsSpace(s[i])
      {
        assert i < StripOffset(s) || StripOffset(s) + |Strip(s)| <= i;
      }
    } else {
      assert !IsSpace(s[StripOffset(s)]);
    }
  }

  /** `s.strip()` is the slice of `s` that starts at `StripOffset(s)`. */
  lemma {:induction false} StripIsSlice(s: string)
    ensures Strip(s) == s[StripOffset(s)..StripOffset(s) + |Strip(s)|]
  {
    var t := TrimLeft(s);
    var r := TrimRight(t);
    assert s[StripOffset(s)..][..|r|] == r;
  }

  /** Text that starts and ends with a non-space character is its own `strip()`. */
  lemma {:induction false} StripKeeps(s: string)
    requires s == [] || (!IsSpace(s[0]) && !IsSpace(s[|s| - 1]))
    ensures Strip(s) == s
  {
  }

  lemma {:induction false} StripIdempotent(s: string)
    ensures Strip(Strip(s)) == Strip(s)
  {
    StripKeeps(Strip(s));
  }

  // ---------------------------------------------------------------- lower

  /** `c.lower()` for every character whose lower case is ASCII; other characters are left alone. */
  function LowerChar(c: char): char {
    if 'A' <= c <= 'Z' then (c as int + 32) as char
    else if c == '\U{212A}' then 'k'
    else c
  }

  /** `s.lower()` as far as matching against lower-case ASCII keywords is concerned. */
  function Lower(s: string): (r: string)
    ensures |r| == |s| && forall i :: 0 <= i < |s| ==> r[i] == LowerChar(s[i])
  {
    seq(|s|, i requires 0 <= i < |s| => LowerChar(s[i]))
  }

  // ---------------------------------------------------------------- the `in` operator

  /** `p in s` */
  predicate Contains(s: string, p: string)
    decreases |s|
  {
    |p| <= |s| && (s[..|p|] == p || Contains(s[1..], p))
  }

  predicate OccursAt(s: string, p: string, i: int) {
    0 <= i && i + |p| <= |s| && s[i..i + |p|] == p
  }

  lemma {:induction false} OccurrenceIsContained(s: string, p: string, i: int)
    requires OccursAt(s, p, i)
    ensures Contains(s, p)
    decreases i
  {
    if i > 0 {
      assert s[1..][i - 1..i - 1 + |p|] == s[i..i + |p|];
      OccurrenceIsContained(s[1..], p, i - 1);
    }
  }

  /** Whatever is written between two strings occurs in the result. */
  lemma {:induction false} InfixContained(a: string, x: string, b: string)
    ensures Contains(a + x + b, x)
  {
    var s := a + x + b;
    assert s[|a|..|a| + |x|] == x;
    OccurrenceIsContained(s, x, |a|);
  }

  /** The text before the first occurrence of `p` in `s`: `s.split(p)[0]` (all of `s` when `p` is absent). */
  function Before(s: string, p: string): (r: string)
    ensures |r| <= |s| && r == s[..|r|]
    decreases |s|
  {
    if |s| < |p| then s
    else if s[..|p|] == p then []
    else [s[0]] + Before(s[1..], p)
  }

  /** When `p` occurs in `s`, `Before` stops at an occurrence, and no occurrence starts earlier. */
  lemma {:induction false} BeforeStopsAtFirst(s: string, p: string)
    requires Contains(s, p)
    ensures OccursAt(s, p, |Before(s, p)|)
    ensures forall j :: 0 <= j < |Before(s, p)| ==> !OccursAt(s, p, j)
    decreases |s|
  {
    if s[..|p|] != p {
      BeforeStopsAtFirst(s[1..], p);
      var b := Before(s[1..], p);
      assert s[1..][|b|..|b| + |p|] == s[1 + |b|..1 + |b| + |p|];
      assert Before(s, p) == [s[0]] + b;
      forall j | 0 <= j < |Before(s, p)|
        ensures !OccursAt(s, p, j)
      {
        if j > 0 {
          assert !OccursAt(s[1..], p, j - 1);
          if j + |p| <= |s| {
            assert s[1..][j - 1..j - 1 + |p|] == s[j..j + |p|];
          }
        } else {
          assert s[0..0 + |p|] == s[..|p|];
        }
      }
    }
  }

  /** When `p` is absent, `Before` keeps all of `s`. */
  lemma {:induction false} BeforeWhenAbsent(s: string, p: string)
    requires !Contains(s, p)
    ensures Before(s, p) == s
    decreases |s|
  {
    if |s| >= |p| {
      BeforeWhenAbsent(s[1..], p);
    }
  }

  /** A non-empty pattern does not occur in the text before its first occurrence. */
  lemma {:induction false} BeforeIsFree(s: string, p: string)
    requires |p| > 0
    ensures !Contains(Before(s, p), p)
    decreases |s|
  {
    if |s| >= |p| && s[..|p|] != p {
      BeforeIsFree(s[1..], p);
      var r := Before(s, p);
      assert r[1..] == Before(s[1..], p);
      if |p| <= |r| {
        assert r[..|p|] == s[..|p|];
      }
    }
  }

  /** A pattern absent from `s` is absent from every slice of `s`. */
  lemma {:induction false} AbsentFromSlice(s: string, p: string, a: int, b: int)
    requires 0 <= a <= b <= |s|
    requires !Contains(s, p)
    ensures !Contains(s[a..b], p)
  {
    if Contains(s[a..b], p) {
      var t := s[a..b];
      BeforeStopsAtFirst(t, p);
      var i := |Before(t, p)|;
      assert OccursAt(t, p, i);
      forall k | 0 <= k < |p|
        ensures s[a + i..a + i + |p|][k] == p[k]
      {
        assert p[k] == t[i + k] == s[a + i + k];
      }
      assert s[a + i..a + i + |p|] == p;
      OccurrenceIsContained(s, p, a + i);
    }
  }

  // ---------------------------------------------------------------- split(sep) and join

  /** `sep.join(xs)` */
  function Join(sep: string, xs: seq<string>): string
  {
    if xs == [] then [] else if |xs| == 1 then xs[0] else xs[0] + sep + Join(sep, xs[1..])
  }

  /** `s.split(sep)` for a one-character separator: at least one piece, none containing `sep`. */
  function SplitOn(s: string, sep: char): (r: seq<string>)
    ensures |r| >= 1
    ensures forall i :: 0 <= i < |r| ==> sep !in r[i]
  {
    if s == [] then [[]]
    else
      var rest := SplitOn(s[1..], sep);
      if s[0] == sep then [[]] + rest else [[s[0]] + rest[0]] + rest[1..]
  }

  /** `split` and `join` with the same separator are inverse. */
  lemma {:induction false} JoinSplitOn(s: string, sep: char)
    ensures Join([sep], SplitOn(s, sep)) == s
  {
    if s != [] {
      var rest := SplitOn(s[1..], sep);
      JoinSplitOn(s[1..], sep);
      if s[0] == sep {
        assert ([[]] + rest)[1..] == rest;
      } else if |rest| > 1 {
        var r := [[s[0]] + rest[0]] + rest[1..];
        assert r[1..] == rest[1..];
      }
    }
  }

  /** Text without the separator splits into itself alone. */
  lemma {:induction false} SplitOnAbsent(s: string, sep: char)
    requires sep !in s
    ensures SplitOn(s, sep) == [s]
  {
    if s != [] {
      assert s[0] in s && sep !in s[1..];
      SplitOnAbsent(s[1..], sep);
      assert [s[0]] + s[1..] == s;
    }
  }

  // ---------------------------------------------------------------- split()

  /** Length of the run of non-space characters that opens `t`. */
  function WordLength(t: string): (k: nat)
    ensures k <= |t|
    ensures forall i :: 0 <= i < k ==> !IsSpace(t[i])
    ensures k == |t| || IsSpace(t[k])
  {
    if t == [] || IsSpace(t[0]) then 0 else 1 + WordLength(t[1..])
  }

  /** `s.split()`: the maximal runs of non-space characters, in order. */
  function Words(s: string): (ws: seq<string>)
    ensures forall i :: 0 <= i < |ws| ==> IsWord(ws[i])
    decreases |s|
  {
    var t := TrimLeft(s);
    if t == [] then []
    else
      var k := WordLength(t);
      assert k > 0 && IsWord(t[..k]);
      var rest := Words(t[k..]);
      WordsCons(t[..k], rest);
      [t[..k]] + rest
  }

  lemma {:induction false} WordsCons(w: string, ws: seq<string>)
    requires IsWord(w) && forall i :: 0 <= i < |ws| ==> IsWord(ws[i])
    ensures forall i :: 0 <= i < |[w] + ws| ==> IsWord(([w] + ws)[i])
  {
    forall i | 0 <= i < |[w] + ws|
      ensures IsWord(([w] + ws)[i])
    {
      if i > 0 {
        assert ([w] + ws)[i] == ws[i - 1];
      }
    }
  }

  /** `' '.join(s.split())`: runs of white space become one blank, and the ends are trimmed. */
  function Collapse(s: string): string {
    Join(" ", Words(s))
  }

  lemma {:induction false} WordLengthOfWordThenSpace(w: string, rest: string)
    requires forall i :: 0 <= i < |w| ==> !IsSpace(w[i])
    requires rest == [] || IsSpace(rest[0])
    ensures WordLength(w + rest) == |w|
  {
    if w != [] {
      assert (w + rest)[1..] == w[1..] + rest;
      WordLengthOfWordThenSpace(w[1..], rest);
    }
  }

  lemma {:induction false} WordLengthAtMost(u: string, v: string)
    requires v == [] || IsSpace(v[0])
    ensures WordLength(u + v) <= |u|
  {
    if u != [] && !IsSpace(u[0]) {
      assert (u + v)[1..] == u[1..] + v;
      WordLengthAtMost(u[1..], v);
    }
  }

  lemma {:induction false} WordsAfterSpace(s: string)
    requires s != [] && IsSpace(s[0])
    ensures Words(s) == Words(s[1..])
  {
  }

  /** A list of words joined by blanks starts with its first word. */
  lemma {:induction false} JoinStartsWithFirst(sep: string, ws: seq<string>)
    requires |ws| > 0
    ensures |Join(sep, ws)| >= |ws[0]| && Join(sep, ws)[..|ws[0]|] == ws[0]
  {
  }

  /** A list of words joined by blanks ends with its last word. */
  lemma {:induction false} JoinEndsWithLast(sep: string, ws: seq<string>)
    requires |ws| > 0
    ensures |Join(sep, ws)| >= |ws[|ws| - 1]|
    ensures Join(sep, ws)[|Join(sep, ws)| - |ws[|ws| - 1]|..] == ws[|ws| - 1]
  {
    if |ws| > 1 {
      JoinEndsWithLast(sep, ws[1..]);
      assert ws[1..][|ws[1..]| - 1] == ws[|ws| - 1];
      var j := Join(sep, ws[1..]);
      var w := ws[|ws| - 1];
      assert Join(sep, ws) == (ws[0] + sep) + j;
      assert Join(sep, ws)[|Join(sep, ws)| - |w|..] == j[|j| - |w|..];
    }
  }

  /** A word followed by nothing or by white space is the first word of the text. */
  lemma {:induction false} WordsOfWordThen(w: string, rest: string)
    requires IsWord(w)
    requires rest == [] || IsSpace(rest[0])
    ensures Words(w + rest) == [w] + Words(rest)
  {
    var s := w + rest;
    WordLengthOfWordThenSpace(w, rest);
    assert TrimLeft(s) == s;
    assert s[..|w|] == w;
    assert s[|w|..] == rest;
  }

  /** Joining words with single blanks and splitting again gives the words back. */
  lemma {:induction false} WordsOfJoin(ws: seq<string>)
    requires forall i :: 0 <= i < |ws| ==> IsWord(ws[i])
    ensures Words(Join(" ", ws)) == ws
  {
    if |ws| == 0 {
      assert Join(" ", ws) == [];
    } else if |ws| == 1 {
      WordsOfOneWord(ws);
    } else {
      assert IsWord(ws[0]);
      WordsOfJoinStep(ws);
      WordsOfJoin(ws[1..]);
      HeadTail(ws);
    }
  }

  lemma {:induction false} HeadTail<T>(xs: seq<T>)
    requires xs != []
    ensures [xs[0]] + xs[1..] == xs
  {
  }

  lemma {:induction false} WordsOfOneWord(ws: seq<string>)
    requires |ws| == 1 && IsWord(ws[0])
    ensures Words(Join(" ", ws)) == ws
  {
    assert Join(" ", ws) == ws[0];
    WordsOfWord(ws[0]);
    assert ws == [ws[0]];
  }

  /** A single word splits into itself. */
  lemma {:induction false} WordsOfWord(w: string)
    requires IsWord(w)
    ensures Words(w) == [w]
  {
    WordLengthOfWord(w);
    assert TrimLeft(w) == w;
    assert w[..|w|] == w;
    assert Words(w[|w|..]) == [];
  }

  lemma {:induction false} WordLengthOfWord(w: string)
    requires forall i :: 0 <= i < |w| ==> !IsSpace(w[i])
    ensures WordLength(w) == |w|
  {
    if w != [] {
      assert forall i :: 0 <= i < |w[1..]| ==> w[1..][i] == w[i + 1];
      WordLengthOfWord(w[1..]);
    }
  }

  lemma {:induction false} WordsOfJoinStep(ws: seq<string>)
    requires |ws| > 1 && IsWord(ws[0])
    ensures Words(Join(" ", ws)) == [ws[0]] + Words(Join(" ", ws[1..]))
  {
    WordThenBlank(ws[0], Join(" ", ws[1..]));
  }

  /** A word followed by a blank is the first word of the text, and the rest are the words after the blank. */
  lemma {:induction false} WordThenBlank(w: string, rest: string)
    requires IsWord(w)
    ensures Words(w + " " + rest) == [w] + Words(rest)
  {
    assert w + " " + rest == w + (" " + rest);
    WordsOfWordThen(w, " " + rest);
    WordsAfterSpace(" " + rest);
    assert (" " + rest)[1..] == rest;
  }

  /** Words joined by single blanks are tidy. */
  lemma {:induction false} JoinIsTidy(ws: seq<string>)
    requires forall i :: 0 <= i < |ws| ==> IsWord(ws[i])
    ensures Tidy(Join(" ", ws))
  {
    if |ws| > 1 {
      var w := ws[0];
      var rest := Join(" ", ws[1..]);
      var s := Join(" ", ws);
      JoinIsTidy(ws[1..]);
      JoinStartsWithFirst(" ", ws[1..]);
      JoinEndsWithLast(" ", ws);
      assert ws[1..][0] == ws[1];
      assert IsWord(ws[|ws| - 1]) && IsWord(ws[1]);
      assert s == w + " " + rest;
      assert !IsSpace(s[|s| - 1]);
      forall i | 0 <= i < |s| && IsSpace(s[i])
        ensures s[i] == ' ' && 0 < i < |s| - 1 && !IsSpace(s[i + 1])
      {
        if i > |w| {
          assert s[i] == rest[i - |w| - 1];
          assert s[i + 1] == rest[i - |w|];
        } else if i == |w| {
          assert s[i + 1] == rest[0] == ws[1][0];
        }
      }
    }
  }

  /** `' '.join(s.split())` leaves nothing to collapse. */
  lemma {:induction false} CollapseIsTidy(s: string)
    ensures Tidy(Collapse(s))
  {
    JoinIsTidy(Words(s));
  }

  /** Collapsing white space twice is collapsing it once. */
  lemma {:induction false} CollapseIdempotent(s: string)
    ensures Collapse(Collapse(s)) == Collapse(s)
  {
    WordsOfJoin(Words(s));
  }

  /** Appending a non-space character to joined words is the same as appending it to the last word. */
  lemma {:induction false} JoinAppend(ws: seq<string>, c: char)
    requires |ws| > 0
    ensures Join(" ", ws) + [c] == Join(" ", ws[..|ws| - 1] + [ws[|ws| - 1] + [c]])
  {
    if |ws| > 1 {
      JoinAppend(ws[1..], c);
      var ws' := ws[..|ws| - 1] + [ws[|ws| - 1] + [c]];
      assert ws'[1..] == ws[1..][..|ws[1..]| - 1] + [ws[1..][|ws[1..]| - 1] + [c]];
    }
  }

  /** Text that opens with a non-space character has at least one word, and the first is a prefix of the text. */
  lemma {:induction false} FirstWord(s: string)
    requires s != [] && !IsSpace(s[0])
    ensures |Words(s)| > 0 && Words(s)[0] == s[..WordLength(s)]
  {
  }

  // ---------------------------------------------------------------- rfind and os.path

  /** `s.rfind(c)`: the last index holding `c`, or -1. */
  function RFind(s: string, c: char): (r: int)
    ensures -1 <= r < |s|
    ensures r >= 0 ==> s[r] == c
    ensures forall i :: r < i < |s| ==> s[i] != c
  {
    if s == [] then -1
    else if s[|s| - 1] == c then |s| - 1
    else RFind(s[..|s| - 1], c)
  }

  /** `posixpath.join(a, b)` */
  function PathJoin(a: string, b: string): string {
    if StartsWith(b, "/") then b
    else if a == [] || a[|a| - 1] == '/' then a + b
    else a + "/" + b
  }

  /** `posixpath.splitext(p)`: split off the extension of the last path component, leading dots excepted. */
  function SplitExt(p: string): (r: (string, string))
    ensures r.0 + r.1 == p
    ensures r.1 == [] || (r.1[0] == '.' && forall i :: 1 <= i < |r.1| ==> r.1[i] != '.' && r.1[i] != '/')
  {
    var sep := RFind(p, '/');
    var dot := RFind(p, '.');
    if dot > sep && exists j :: sep + 1 <= j < dot && p[j] != '.' then
      assert p[..dot] + p[dot..] == p;
      (p[..dot], p[dot..])
    else
      assert p + [] == p;
      (p, [])
  }

  // ---------------------------------------------------------------- str(int)

  function DigitChar(d: nat): char
    requires d < 10
  {
    "0123456789"[d]
  }

  /** `str(n)` for a non-negative integer. */
  function Decimal(n: nat): (r: string)
    ensures |r| > 0
    decreases n
  {
    if n < 10 then [DigitChar(n)] else Decimal(n / 10) + [DigitChar(n % 10)]
  }

  /** `s[:stop]`: a negative stop counts back from the end, and either is clamped to the sequence. */
  function SliceTo<T>(s: seq<T>, stop: int): (r: seq<T>)
    ensures |r| <= |s| && r == s[..|r|]
    ensures stop >= 0 ==> |r| == if stop <= |s| then stop else |s|
    ensures stop < 0 ==> |r| == if |s| + stop >= 0 then |s| + stop else 0
  {
    if stop >= 0 then (if stop <= |s| then s[..stop] else s)
    else if |s| + stop >= 0 then s[..|s| + stop] else []
  }
}
