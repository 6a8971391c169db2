/** Python string and list primitives used by the converter, stated over `seq<char>`.
    Only ASCII whitespace is modelled (see `IsSpace`). */
module Text {
  import opened Wrappers

  // ---------------------------------------------------------------------------
  // Occurrences and search
  // ---------------------------------------------------------------------------

  /** `p` occurs in `s` starting at index `i`. */
  predicate PrefixAt(s: string, i: nat, p: string) {
    i + |p| <= |s| && s[i..i + |p|] == p
  }

  /** Python's `p in s`. */
  predicate Contains(s: string, p: string) {
    exists j: nat | j <= |s| :: PrefixAt(s, j, p)
  }

  /** Python's `s.startswith(p)`. */
  predicate StartsWith(s: string, p: string) {
    PrefixAt(s, 0, p)
  }

  /** Python's `s.find(p, from)`: the first occurrence at or after `from`. */
  function FindFrom(s: string, p: string, from: nat): (r: Option<nat>)
    decreases |s| - from
    ensures r.Some? ==> from <= r.value && PrefixAt(s, r.value, p)
    ensures r.Some? ==> forall j: nat :: from <= j < r.value ==> !PrefixAt(s, j, p)
    ensures r.None? ==> forall j: nat :: from <= j ==> !PrefixAt(s, j, p)
  {
    if from + |p| > |s| then None
    else if s[from..from + |p|] == p then Some(from)
    else FindFrom(s, p, from + 1)
  }

  /** `p` occurs in `s` exactly when a search from the start finds it. */
  lemma FindIffContains(s: string, p: string)
    ensures FindFrom(s, p, 0).Some? <==> Contains(s, p)
  {
    if FindFrom(s, p, 0).Some? {
      assert PrefixAt(s, FindFrom(s, p, 0).value, p);
    }
  }

  /** If some character of `p` never appears in `s`, then `p` does not occur in `s`. */
  lemma AbsentByChar(s: string, p: string, c: char)
    requires c in p && c !in s
    ensures !Contains(s, p)
  {
    var k :| 0 <= k < |p| && p[k] == c;
    forall j: nat | j <= |s|
      ensures !PrefixAt(s, j, p)
    {
      if j + |p| <= |s| {
        assert s[j..j + |p|][k] == s[j + k];
      }
    }
  }

  /** An occurrence inside a piece is an occurrence in the whole. */
  lemma PrefixAtConcat(a: string, b: string, c: string, j: nat, p: string)
    requires PrefixAt(b, j, p)
    ensures PrefixAt(a + b + c, |a| + j, p)
  {
    assert (a + b + c)[|a| + j..|a| + j + |p|] == b[j..j + |p|];
  }

  /** No `a` in `s` is directly followed by `b`, and `s` does not end with `a`; unlike the
      first half alone, this survives concatenation. */
  predicate Unpaired(s: string, a: char, b: char) {
    (forall j :: 0 <= j < |s| - 1 && s[j] == a ==> s[j + 1] != b) && (|s| > 0 ==> s[|s| - 1] != a)
  }

  lemma UnpairedWithout(s: string, a: char, b: char)
    requires a !in s
    ensures Unpaired(s, a, b)
  {
  }

  lemma {:induction false} UnpairedConcatAll(parts: seq<string>, a: char, b: char)
    requires forall k :: 0 <= k < |parts| ==> Unpaired(parts[k], a, b)
    ensures Unpaired(Concat(parts), a, b)
    decreases |parts|
  {
    if |parts| > 0 {
      UnpairedConcatAll(parts[1..], a, b);
      UnpairedConcat(parts[0], Concat(parts[1..]), a, b);
    }
  }

  lemma UnpairedConcat(x: string, y: string, a: char, b: char)
    requires Unpaired(x, a, b) && Unpaired(y, a, b)
    ensures Unpaired(x + y, a, b)
  {
    var s := x + y;
    forall j | 0 <= j < |s| - 1 && s[j] == a
      ensures s[j + 1] != b
    {
      assert j < |x| ==> s[j] == x[j];
      if j + 1 < |x| {
        assert s[j + 1] == x[j + 1];
      } else if j >= |x| {
        assert s[j] == y[j - |x|] && s[j + 1] == y[j + 1 - |x|];
      }
    }
    if |y| == 0 {
      assert s == x;
    } else {
      assert s[|s| - 1] == y[|y| - 1];
    }
  }

  /** A pattern holding the pair `a b` does not occur where that pair never does. */
  lemma AbsentByPair(s: string, p: string, a: char, b: char, i: nat)
    requires Unpaired(s, a, b) && i + 1 < |p| && p[i] == a && p[i + 1] == b
    ensures !Contains(s, p)
  {
    forall j: nat | j <= |s|
      ensures !PrefixAt(s, j, p)
    {
      if j + |p| <= |s| {
        assert s[j..j + |p|][i] == s[j + i];
        assert s[j..j + |p|][i + 1] == s[j + i + 1];
      }
    }
  }

  /** Index of the last occurrence of `c`, or -1 (Python's `s.rfind(c)`). */
  function RFindChar(s: string, c: char): (r: int)
    ensures -1 <= r < |s|
    ensures r >= 0 ==> s[r] == c && forall k :: r < k < |s| ==> s[k] != c
    ensures r == -1 ==> c !in s
  {
    if |s| == 0 then -1
    else if s[|s| - 1] == c then |s| - 1
    else RFindChar(s[..|s| - 1], c)
  }

  /** Python's `s[:k]` for an integer `k` that may be negative. */
  function PyPrefix<T>(s: seq<T>, k: int): (r: seq<T>)
    ensures 0 <= k <= |s| ==> r == s[..k]
    ensures -|s| <= k < 0 ==> r == s[..|s| + k]
    ensures k > |s| ==> r == s
    ensures k < -|s| ==> r == []
  {
    if k >= 0 then (if k <= |s| then s[..k] else s)
    else if -k <= |s| then s[..|s| + k] else []
  }

  /** Python's `xs[i]`: negative indexes count from the end; anything else raises IndexError. */
  function PyAt<T>(xs: seq<T>, i: int): (r: Option<T>)
    ensures r.Some? <==> -|xs| <= i < |xs|
    ensures 0 <= i < |xs| ==> r == Some(xs[i])
    ensures -|xs| <= i < 0 ==> r == Some(xs[|xs| + i])
  {
    if 0 <= i < |xs| then Some(xs[i])
    else if -|xs| <= i < 0 then Some(xs[|xs| + i])
    else None
  }

  const IndexError: string := "IndexError: list index out of range"

  /** Python's `xs[i]` with a non-negative index, raising IndexError when out of range. */
  function Field<T>(xs: seq<T>, i: nat): (r: Result<T>)
    ensures r.Ok? <==> i < |xs|
    ensures r.Ok? ==> r.value == xs[i]
  {
    if i < |xs| then Ok(xs[i]) else Err(IndexError)
  }

  // ---------------------------------------------------------------------------
  // Replacement
  // ---------------------------------------------------------------------------

  /** Python's `s.replace(pat, rep)`: every non-overlapping occurrence, left to right. */
  function Replace(s: string, pat: string, rep: string): (r: string)
    requires pat != []
    decreases |s|
    ensures forall c :: c in r ==> c in s || c in rep
    ensures |pat| == 1 && pat[0] !in rep ==> pat[0] !in r
    ensures pat[0] !in s ==> r == s
  {
    if |s| < |pat| then s
    else if s[..|pat|] == pat then rep + Replace(s[|pat|..], pat, rep)
    else [s[0]] + Replace(s[1..], pat, rep)
  }

  /** Characters of `s` other than those of `pat` survive a replacement. */
  lemma ReplaceKeeps(s: string, pat: string, rep: string, c: char)
    requires pat != [] && c in s && c !in pat
    ensures c in Replace(s, pat, rep)
    decreases |s|
  {
    if |s| < |pat| {
    } else if s[..|pat|] == pat {
      assert s == s[..|pat|] + s[|pat|..];
      ReplaceKeeps(s[|pat|..], pat, rep, c);
    } else if s[0] != c {
      assert s == [s[0]] + s[1..];
      ReplaceKeeps(s[1..], pat, rep, c);
    }
  }

  /** A pattern holding a character that `s` lacks never occurs, so nothing is replaced. */
  lemma {:induction false} ReplaceAbsent(s: string, pat: string, rep: string, c: char)
    requires pat != [] && c in pat && c !in s
    ensures Replace(s, pat, rep) == s
    decreases |s|
  {
    AbsentByChar(s, pat, c);
    assert !PrefixAt(s, 0, pat);
    if |s| >= |pat| {
      ReplaceAbsent(s[1..], pat, rep, c);
      assert s == [s[0]] + s[1..];
    }
  }

  /** Replacing one character by another rewrites exactly the positions that held it. */
  lemma {:induction false} ReplaceCharAt(s: string, c: char, d: char)
    ensures |Replace(s, [c], [d])| == |s|
    ensures forall k :: 0 <= k < |s| ==> Replace(s, [c], [d])[k] == if s[k] == c then d else s[k]
    decreases |s|
  {
    if |s| > 0 {
      assert s[..1] == [c] <==> s[0] == c;
      ReplaceCharAt(s[1..], c, d);
    }
  }

  /** Python's `s.replace(c, "")` for a single character: the result is `s` without `c`. */
  function RemoveChar(s: string, c: char): (r: string)
    ensures c !in r
    ensures forall d :: d != c ==> (d in r <==> d in s)
    ensures |r| <= |s|
  {
    if |s| == 0 then ""
    else if s[0] == c then RemoveChar(s[1..], c)
    else [s[0]] + RemoveChar(s[1..], c)
  }

  /** Removing a character is the one-character instance of Replace. */
  lemma RemoveCharIsReplace(s: string, c: char)
    ensures RemoveChar(s, c) == Replace(s, [c], "")
  {
    if |s| > 0 {
      assert s[..1] == [c] <==> s[0] == c;
      RemoveCharIsReplace(s[1..], c);
    }
  }

  // ---------------------------------------------------------------------------
  // Splitting and joining
  // ---------------------------------------------------------------------------

  /** Python's `s.split(sep)`: keeps empty pieces, always at least one piece. */
  function Split(s: string, sep: string): (r: seq<string>)
    requires sep != []
    decreases |s|
    ensures |r| >= 1
  {
    match FindFrom(s, sep, 0)
    case None => [s]
    case Some(i) => [s[..i]] + Split(s[i + |sep|..], sep)
  }

  /** The last piece of `s.split(sep)` (Python's `s.split(sep)[-1]`). */
  function LastPiece(s: string, sep: string): string
    requires sep != []
  {
    var parts := Split(s, sep);
    parts[|parts| - 1]
  }

  /** Python's `sep.join(parts)`. */
  function Join(sep: string, parts: seq<string>): string {
    if |parts| == 0 then ""
    else if |parts| == 1 then parts[0]
    else parts[0] + sep + Join(sep, parts[1..])
  }

  /** Concatenation of a sequence of strings (`"".join(parts)`). */
  function Concat(parts: seq<string>): string {
    if |parts| == 0 then "" else parts[0] + Concat(parts[1..])
  }

  /** Concatenating two runs of pieces is concatenating each run. */
  lemma {:induction false} ConcatAppend(xs: seq<string>, ys: seq<string>)
    ensures Concat(xs + ys) == Concat(xs) + Concat(ys)
  {
    if |xs| == 0 {
      assert xs + ys == ys;
    } else {
      assert (xs + ys)[1..] == xs[1..] + ys;
      ConcatAppend(xs[1..], ys);
    }
  }

  /** Joining the pieces of a split with the same separator gives back the input. */
  lemma {:induction false} JoinSplit(s: string, sep: string)
    requires sep != []
    ensures Join(sep, Split(s, sep)) == s
    decreases |s|
  {
    match FindFrom(s, sep, 0)
    case None =>
    case Some(i) =>
      var rest := s[i + |sep|..];
      var tail := Split(rest, sep);
      JoinSplit(rest, sep);
      assert Split(s, sep) == [s[..i]] + tail;
      assert ([s[..i]] + tail)[1..] == tail;
      assert Join(sep, [s[..i]] + tail) == s[..i] + sep + Join(sep, tail);
      assert s[i..i + |sep|] == sep;
      assert s == s[..i] + s[i..i + |sep|] + rest;
  }

  /** Number of occurrences of a character. */
  function Count(s: string, c: char): (n: nat)
    ensures n <= |s|
    ensures n == 0 <==> c !in s
  {
    if |s| == 0 then 0 else (if s[0] == c then 1 else 0) + Count(s[1..], c)
  }

  lemma CountConcat(a: string, b: string, c: char)
    ensures Count(a + b, c) == Count(a, c) + Count(b, c)
  {
    if |a| > 0 {
      assert (a + b)[1..] == a[1..] + b;
      CountConcat(a[1..], b, c);
    } else {
      assert a + b == b;
    }
  }

  /** The search for a one-character pattern finds its first occurrence, or there is none. */
  lemma FirstChar(s: string, c: char)
    ensures FindFrom(s, [c], 0).None? ==> c !in s
    ensures FindFrom(s, [c], 0).Some? ==> var i := FindFrom(s, [c], 0).value;
      i < |s| && s[i] == c && c !in s[..i]
  {
    match FindFrom(s, [c], 0)
    case None =>
      forall k | 0 <= k < |s| ensures s[k] != c {
        assert !PrefixAt(s, k, [c]);
        assert s[k..k + 1] == [s[k]];
      }
    case Some(i) =>
      assert PrefixAt(s, i, [c]);
      assert s[i..i + 1] == [s[i]];
      forall k | 0 <= k < i ensures s[..i][k] != c {
        assert !PrefixAt(s, k, [c]);
        assert s[k..k + 1] == [s[k]];
      }
  }

  /** Splitting on one character yields one more piece than there are separators,
      and no piece contains the separator. */
  lemma {:induction false} SplitCharCount(s: string, c: char)
    ensures |Split(s, [c])| == Count(s, c) + 1
    ensures forall k :: 0 <= k < |Split(s, [c])| ==> c !in Split(s, [c])[k]
    decreases |s|
  {
    FirstChar(s, c);
    if FindFrom(s, [c], 0).Some? {
      var i := FindFrom(s, [c], 0).value;
      var rest := s[i + 1..];
      SplitCharCount(rest, c);
      CountAtFirst(s, i, c);
      var pieces := Split(s, [c]);
      assert pieces == [s[..i]] + Split(rest, [c]);
      forall k | 0 <= k < |pieces| ensures c !in pieces[k] {
        if k > 0 {
          assert pieces[k] == Split(rest, [c])[k - 1];
        }
      }
    }
  }

  /** Up to the first `c` there is none: the count is one more than after it. */
  lemma CountAtFirst(s: string, i: nat, c: char)
    requires i < |s| && s[i] == c && c !in s[..i]
    ensures Count(s, c) == Count(s[i + 1..], c) + 1
  {
    assert s == s[..i] + s[i..];
    CountConcat(s[..i], s[i..], c);
    assert s[i..][1..] == s[i + 1..];
  }

  /** Python's `[t for t in xs if t]`. */
  function NonEmpty(xs: seq<string>): (r: seq<string>)
    ensures |r| <= |xs|
    ensures forall k :: 0 <= k < |r| ==> r[k] != ""
  {
    if |xs| == 0 then []
    else if xs[0] == "" then NonEmpty(xs[1..])
    else [xs[0]] + NonEmpty(xs[1..])
  }

  /** The pieces kept are exactly the non-empty ones. */
  lemma {:induction false} NonEmptyMembers(xs: seq<string>)
    ensures forall t :: t in NonEmpty(xs) <==> t in xs && t != ""
  {
    if |xs| > 0 {
      NonEmptyMembers(xs[1..]);
      assert xs == [xs[0]] + xs[1..];
    }
  }

  lemma NonEmptyConcat(a: seq<string>, b: seq<string>)
    ensures NonEmpty(a + b) == NonEmpty(a) + NonEmpty(b)
  {
    if |a| > 0 {
      assert (a + b)[1..] == a[1..] + b;
      NonEmptyConcat(a[1..], b);
    } else {
      assert a + b == b;
    }
  }

  /** Python `re.split` on a one-character class `[cs]`: keeps empty pieces. */
  function SplitAny(s: string, cs: set<char>): (r: seq<string>)
    ensures |r| >= 1
    ensures forall k :: 0 <= k < |r| ==> forall c :: c in r[k] ==> c in s && c !in cs
  {
    if |s| == 0 then [""]
    else
      var tail := SplitAny(s[1..], cs);
      if s[0] in cs then [""] + tail
      else [[s[0]] + tail[0]] + tail[1..]
  }

  /** Python `re.split` on a run class `[cs]+`: separator runs count once, so only the
      first and last pieces can be empty. */
  function SplitRuns(s: string, cs: set<char>): (r: seq<string>)
    ensures |r| >= 1
    ensures forall k :: 0 < k < |r| - 1 ==> r[k] != ""
  {
    var p := SplitAny(s, cs);
    if |p| == 1 then p else [p[0]] + NonEmpty(p[1..|p| - 1]) + [p[|p| - 1]]
  }

  /** Dropping the empty pieces of a run split drops the same pieces as for a single-character split. */
  lemma RunsTokens(s: string, cs: set<char>)
    ensures NonEmpty(SplitRuns(s, cs)) == NonEmpty(SplitAny(s, cs))
  {
    var p := SplitAny(s, cs);
    if |p| > 1 {
      NonEmptyEnds(p);
    }
  }

  lemma NonEmptyEnds(p: seq<string>)
    requires |p| > 1
    ensures NonEmpty([p[0]] + NonEmpty(p[1..|p| - 1]) + [p[|p| - 1]]) == NonEmpty(p)
  {
    SplitEnds(p);
    NonEmptyInner([p[0]], p[1..|p| - 1], [p[|p| - 1]]);
  }

  lemma SplitEnds<T>(p: seq<T>)
    requires |p| > 1
    ensures p == [p[0]] + p[1..|p| - 1] + [p[|p| - 1]]
  {
    assert p == p[..1] + p[1..|p| - 1] + p[|p| - 1..];
  }

  /** Dropping empty pieces in the middle first changes nothing once all are dropped. */
  lemma NonEmptyInner(a: seq<string>, m: seq<string>, z: seq<string>)
    ensures NonEmpty(a + NonEmpty(m) + z) == NonEmpty(a + m + z)
  {
    NonEmptyConcat(a + NonEmpty(m), z);
    NonEmptyConcat(a, NonEmpty(m));
    NonEmptyIdem(m);
    NonEmptyConcat(a + m, z);
    NonEmptyConcat(a, m);
  }

  lemma NonEmptyIdem(xs: seq<string>)
    ensures NonEmpty(NonEmpty(xs)) == NonEmpty(xs)
  {
    if |xs| > 0 {
      NonEmptyIdem(xs[1..]);
    }
  }

  // ---------------------------------------------------------------------------
  // Whitespace
  // ---------------------------------------------------------------------------

  /** ASCII characters for which Python's `str.isspace()` holds. */
  predicate IsSpace(c: char) {
    c == ' ' || 9 <= c as int <= 13 || 28 <= c as int <= 31
  }

  /** The character set of the regex class `\s`, restricted to ASCII. */
  function Spaces(): set<char> {
    set c: char | 0 <= c as int < 128 && IsSpace(c)
  }

  function LStrip(s: string): (r: string)
    ensures |r| <= |s| && r == s[|s| - |r|..]
    ensures |r| > 0 ==> !IsSpace(r[0])
    ensures forall k :: 0 <= k < |s| - |r| ==> IsSpace(s[k])
  {
    if |s| > 0 && IsSpace(s[0]) then LStrip(s[1..]) else s
  }

  function RStrip(s: string): (r: string)
    ensures |r| <= |s| && r == s[..|r|]
    ensures |r| > 0 ==> !IsSpace(r[|r| - 1])
    ensures forall k :: |r| <= k < |s| ==> IsSpace(s[k])
  {
    if |s| > 0 && IsSpace(s[|s| - 1]) then RStrip(s[..|s| - 1]) else s
  }

  /** Python's `s.strip()`: no surrounding whitespace is left, and only whitespace is removed. */
  function Strip(s: string): (r: string)
    ensures |r| > 0 ==> !IsSpace(r[0]) && !IsSpace(r[|r| - 1])
    ensures exists a, b :: 0 <= a <= b <= |s| && r == s[a..b]
  {
    var l := LStrip(s);
    var r := RStrip(l);
    assert r == s[|s| - |l|..|s| - |l| + |r|];
    r
  }

  // ---------------------------------------------------------------------------
  // Regular-expression spans as explicit searches
  // ---------------------------------------------------------------------------

  /** One position of a regex literal: `.` under DOTALL, or a fixed character. */
  datatype PChar = Any | Ch(c: char)

  function Lit(p: string): (r: seq<PChar>)
    ensures |r| == |p|
    ensures forall k :: 0 <= k < |p| ==> r[k] == Ch(p[k])
  {
    seq(|p|, k requires 0 <= k < |p| => Ch(p[k]))
  }

  predicate MatchAt(s: string, i: nat, pat: seq<PChar>) {
    i + |pat| <= |s| && forall k :: 0 <= k < |pat| ==> (pat[k].Ch? ==> s[i + k] == pat[k].c)
  }

  lemma MatchLit(s: string, i: nat, p: string)
    ensures MatchAt(s, i, Lit(p)) <==> PrefixAt(s, i, p)
  {
    if i + |p| <= |s| {
      if MatchAt(s, i, Lit(p)) {
        assert forall k :: 0 <= k < |p| ==> s[i..i + |p|][k] == p[k];
      }
    }
  }

  /** First position at or after `from` where the pattern matches. */
  function FindPat(s: string, pat: seq<PChar>, from: nat): (r: Option<nat>)
    decreases |s| - from
    ensures r.Some? ==> from <= r.value && MatchAt(s, r.value, pat)
    ensures r.Some? ==> forall j: nat :: from <= j < r.value ==> !MatchAt(s, j, pat)
    ensures r.None? ==> forall j: nat :: from <= j ==> !MatchAt(s, j, pat)
  {
    if from + |pat| > |s| then None
    else if MatchAt(s, from, pat) then Some(from)
    else FindPat(s, pat, from + 1)
  }

  /** The span `[i, j)` matched by the regex `open .*? close` with DOTALL, searched from `from`:
      the leftmost opener, closed by the nearest closer after it. A later opener could only
      see fewer closers, so when the leftmost opener has none there is no match at all. */
  function LazySpan(s: string, open: seq<PChar>, close: string, from: nat): (r: Option<(nat, nat)>)
    ensures r.Some? ==> var (i, j) := r.value;
      from <= i && i + |open| + |close| <= j <= |s| && MatchAt(s, i, open) && PrefixAt(s, j - |close|, close)
    ensures r.Some? ==> var (i, j) := r.value;
      (forall k: nat :: from <= k < i ==> !MatchAt(s, k, open)) &&
      (forall k: nat :: i + |open| <= k < j - |close| ==> !PrefixAt(s, k, close))
    ensures r.None? ==> forall i: nat, k: nat ::
      from <= i && MatchAt(s, i, open) && i + |open| <= k ==> !PrefixAt(s, k, close)
  {
    match FindPat(s, open, from)
    case None => None
    case Some(i) =>
      match FindFrom(s, close, i + |open|)
      case None => None
      case Some(k) => Some((i, k + |close|))
  }

  /** Python's `re.sub(pattern, repl, s, count=1)` for `open .*? close`: the first match is
      replaced, everything before and after it is kept; without a match `s` is returned. */
  function SubFirst(s: string, open: seq<PChar>, close: string, repl: string): (r: string)
    ensures LazySpan(s, open, close, 0).None? ==> r == s
    ensures LazySpan(s, open, close, 0).Some? ==>
      var (i, j) := LazySpan(s, open, close, 0).value; r == s[..i] + repl + s[j..]
  {
    match LazySpan(s, open, close, 0)
    case None => s
    case Some((i, j)) => s[..i] + repl + s[j..]
  }

  /** Python's `re.findall(open .*? close, s)` returning whole matches from position `from`. */
  function FindAllSpans(s: string, open: seq<PChar>, close: string, from: nat): (r: seq<string>)
    decreases |s| - from
  {
    if from > |s| then []
    else
      match LazySpan(s, open, close, from)
      case None => []
      case Some((i, j)) => [s[i..j]] + (if j > from then FindAllSpans(s, open, close, j) else [])
  }

  /** Writing `w` over `s` from offset 0 without truncating: a shorter write leaves the old tail. */
  function Overwrite(s: string, w: string): (r: string)
    ensures |r| == if |w| >= |s| then |w| else |s|
    ensures r[..|w|] == w
    ensures |w| < |s| ==> r[|w|..] == s[|w|..]
  {
    if |w| >= |s| then w else w + s[|w|..]
  }
}
