/**
 * The string operations of Rust's standard library that the chat bot relies on:
 * prefix tests, `find`, `split`, `join`, `trim`, `split_whitespace`, ASCII
 * lower-casing and byte-offset slicing `&s[n..]`. Strings are sequences of
 * Unicode scalar values; a byte offset is measured in UTF-8 bytes.
 */
module Strings {
  import opened Wrappers

  predicate StartsWith(s: string, prefix: string) {
    |prefix| <= |s| && s[..|prefix|] == prefix
  }

  /** `sub` occurs in `s` starting at index `i`. */
  predicate OccursAt(s: string, sub: string, i: nat) {
    i + |sub| <= |s| && s[i..i + |sub|] == sub
  }

  /** Index of the first occurrence of `sub` at or after `from`. */
  function FindFrom(s: string, sub: string, from: nat): (r: Option<nat>)
    ensures r.Some? ==> from <= r.value && OccursAt(s, sub, r.value)
    ensures r.Some? ==> forall j :: from <= j < r.value ==> !OccursAt(s, sub, j)
    ensures r.None? ==> forall j :: from <= j ==> !OccursAt(s, sub, j)
    decreases |s| - from
  {
    if from + |sub| > |s| then None
    else if OccursAt(s, sub, from) then Some(from)
    else FindFrom(s, sub, from + 1)
  }

  /** Rust `str::find`: the first occurrence of `sub` in `s`. */
  function Find(s: string, sub: string): (r: Option<nat>)
    ensures r.Some? ==> OccursAt(s, sub, r.value)
    ensures r.Some? ==> forall j: nat :: j < r.value ==> !OccursAt(s, sub, j)
    ensures r.None? ==> forall j: nat :: !OccursAt(s, sub, j)
  {
    FindFrom(s, sub, 0)
  }

  /** An occurrence with none before it is the one `Find` reports. */
  lemma FindFirst(s: string, sub: string, k: nat)
    requires OccursAt(s, sub, k)
    requires forall j: nat :: j < k ==> !OccursAt(s, sub, j)
    ensures Find(s, sub) == Some(k)
  {
  }

  /** Rust `str::contains`. */
  predicate Contains(s: string, sub: string)
    ensures Contains(s, sub) <==> exists j :: OccursAt(s, sub, j)
  {
    Find(s, sub).Some?
  }

  function Join(parts: seq<string>, sep: string): string
    decreases |parts|
  {
    if |parts| == 0 then ""
    else if |parts| == 1 then parts[0]
    else parts[0] + sep + Join(parts[1..], sep)
  }

  lemma PrefixOccurrence(s: string, sub: string, k: nat, j: nat)
    requires k <= |s| && j + |sub| <= k
    ensures OccursAt(s[..k], sub, j) <==> OccursAt(s, sub, j)
  {
    assert s[..k][j..j + |sub|] == s[j..j + |sub|];
  }

  /**
   * Rust `str::split` with a non-empty pattern: the pieces between
   * successive non-overlapping occurrences of `sep`, scanned left to right.
   * Joining the pieces with `sep` gives back `s`, and no piece holds `sep`.
   */
  function Split(s: string, sep: string): (parts: seq<string>)
    requires |sep| > 0
    ensures |parts| >= 1
    ensures Join(parts, sep) == s
    ensures forall i :: 0 <= i < |parts| ==> !Contains(parts[i], sep)
    decreases |s|
  {
    match Find(s, sep)
    case None => [s]
    case Some(k) =>
      var rest := Split(s[k + |sep|..], sep);
      assert !Contains(s[..k], sep) by {
        forall j: nat | j + |sep| <= k ensures !OccursAt(s[..k], sep, j) {
          PrefixOccurrence(s, sep, k, j);
        }
      }
      assert s == s[..k] + sep + s[k + |sep|..] by {
        assert s[k..k + |sep|] == sep;
        assert s == s[..k] + s[k..k + |sep|] + s[k + |sep|..];
      }
      [s[..k]] + rest
  }

  /** Number of occurrences of `c` in `s`. */
  function Count(s: string, c: char): nat {
    multiset(s)[c]
  }

  lemma SingleCharOccurs(s: string, c: char, j: nat)
    ensures OccursAt(s, [c], j) <==> j < |s| && s[j] == c
  {
    if j < |s| {
      assert s[j..j + 1] == [s[j]];
    }
  }

  /** Splitting on a single character yields one more piece than there are occurrences of it. */
  lemma {:induction false} SplitCount(s: string, c: char)
    ensures |Split(s, [c])| == Count(s, c) + 1
    decreases |s|
  {
    match Find(s, [c])
    case None =>
      forall j | 0 <= j < |s| ensures s[j] != c {
        SingleCharOccurs(s, c, j);
      }
      assert c !in multiset(s);
    case Some(k) =>
      SingleCharOccurs(s, c, k);
      forall j | 0 <= j < k ensures s[j] != c {
        SingleCharOccurs(s, c, j);
      }
      assert c !in multiset(s[..k]);
      assert s == s[..k] + [c] + s[k + 1..];
      assert multiset(s) == multiset(s[..k]) + multiset([c]) + multiset(s[k + 1..]);
      SplitCount(s[k + 1..], c);
  }

  /** When `a` holds no `c`, splitting `a + [c] + b` on `c` yields `a` and then the pieces of `b`. */
  lemma SplitAfterFirst(a: string, c: char, b: string)
    requires c !in a
    ensures Split(a + [c] + b, [c]) == [a] + Split(b, [c])
  {
    var s := a + [c] + b;
    SingleCharOccurs(s, c, |a|);
    forall j: nat | j < |a| ensures !OccursAt(s, [c], j) {
      SingleCharOccurs(s, c, j);
      assert s[j] == a[j];
    }
    FindFirst(s, [c], |a|);
    assert s[..|a|] == a;
    assert s[|a| + 1..] == b;
  }

  /** A string free of `c` is a single piece. */
  lemma SplitWithout(a: string, c: char)
    requires c !in a
    ensures Split(a, [c]) == [a]
  {
    forall j: nat ensures !OccursAt(a, [c], j) {
      SingleCharOccurs(a, c, j);
    }
  }

  /** A string with no CR ends its first CRLF-separated piece exactly at the CRLF that follows it. */
  lemma SplitAfterFirstCrlf(a: string, b: string)
    requires '\r' !in a
    ensures Split(a + "\r\n" + b, "\r\n") == [a] + Split(b, "\r\n")
  {
    var s := a + "\r\n" + b;
    assert OccursAt(s, "\r\n", |a|) by {
      assert s[|a|..|a| + 2] == "\r\n";
    }
    forall j: nat | j < |a| ensures !OccursAt(s, "\r\n", j) {
      assert s[j] == a[j];
      assert j + 2 <= |s| ==> s[j..j + 2][0] == s[j];
    }
    FindFirst(s, "\r\n", |a|);
    assert s[..|a|] == a;
    assert s[|a| + 2..] == b;
  }

  /** A string with no CR is one CRLF-separated piece. */
  lemma SplitWithoutCrlf(a: string)
    requires '\r' !in a
    ensures Split(a, "\r\n") == [a]
  {
    forall j: nat ensures !OccursAt(a, "\r\n", j) {
      assert j + 2 <= |a| ==> a[j..j + 2][0] == a[j];
    }
  }

  /** A string in which the one-character pattern `[c]` does not occur holds no `c`. */
  lemma NoOccurrenceNoChar(s: string, c: char)
    requires !Contains(s, [c])
    ensures c !in s
  {
    forall j | 0 <= j < |s| ensures s[j] != c {
      SingleCharOccurs(s, c, j);
    }
  }

  /**
   * The first piece of a split on `c` is the prefix of `s` up to the first `c`:
   * it holds no `c`, and it is all of `s` or is followed by a `c`.
   */
  lemma SplitFirstPiece(s: string, c: char)
    ensures var p := Split(s, [c])[0];
            && |p| <= |s| && s[..|p|] == p && c !in p
            && (|p| < |s| ==> s[|p|] == c)
  {
    NoOccurrenceNoChar(Split(s, [c])[0], c);
    match Find(s, [c])
    case None =>
    case Some(k) =>
      SingleCharOccurs(s, c, k);
  }

  // ----- whitespace, after Rust's `char::is_whitespace` (the Unicode White_Space property)

  /** The White_Space characters outside the block U+2000..U+200A. */
  const WhitespaceChars: set<char> :=
    {'\t', '\n', '\U{B}', '\U{C}', '\r', ' ', '\U{85}', '\U{A0}', '\U{1680}',
     '\U{2028}', '\U{2029}', '\U{202F}', '\U{205F}', '\U{3000}'}

  predicate IsWhitespace(c: char) {
    c in WhitespaceChars || '\U{2000}' <= c <= '\U{200A}'
  }

  predicate NoWhitespace(s: string) {
    forall i :: 0 <= i < |s| ==> !IsWhitespace(s[i])
  }

  /** Length of the whitespace run at the start of `s`. */
  function LeadingWhitespace(s: string): (k: nat)
    ensures k <= |s|
    ensures forall i :: 0 <= i < k ==> IsWhitespace(s[i])
    ensures k < |s| ==> !IsWhitespace(s[k])
    decreases |s|
  {
    if |s| > 0 && IsWhitespace(s[0]) then 1 + LeadingWhitespace(s[1..]) else 0
  }

  /** Length of the whitespace run at the end of `s`. */
  function TrailingWhitespace(s: string): (k: nat)
    ensures k <= |s|
    ensures forall i :: |s| - k <= i < |s| ==> IsWhitespace(s[i])
    ensures k < |s| ==> !IsWhitespace(s[|s| - 1 - k])
    decreases |s|
  {
    if |s| > 0 && IsWhitespace(s[|s| - 1]) then 1 + TrailingWhitespace(s[..|s| - 1]) else 0
  }

  /**
   * Rust `str::trim`: `s` without its leading and trailing whitespace. The
   * result is a slice of `s`, everything cut away is whitespace, and the result
   * neither starts nor ends with whitespace.
   */
  function Trim(s: string): (r: string)
    ensures |r| > 0 ==> !IsWhitespace(r[0]) && !IsWhitespace(r[|r| - 1])
    ensures exists i, j :: 0 <= i <= j <= |s| && r == s[i..j]
                            && (forall p :: 0 <= p < i ==> IsWhitespace(s[p]))
                            && (forall p :: j <= p < |s| ==> IsWhitespace(s[p]))
  {
    var i := LeadingWhitespace(s);
    var t := s[i..];
    var j := i + |t| - TrailingWhitespace(t);
    assert t[..|t| - TrailingWhitespace(t)] == s[i..j];
    s[i..j]
  }

  /** Length of the run of non-whitespace characters at the start of `s`. */
  function TokenLength(s: string): (n: nat)
    ensures n <= |s|
    ensures NoWhitespace(s[..n])
    ensures n < |s| ==> IsWhitespace(s[n])
    decreases |s|
  {
    if |s| > 0 && !IsWhitespace(s[0]) then
      var n := 1 + TokenLength(s[1..]);
      assert s[..n] == [s[0]] + s[1..][..n - 1];
      n
    else 0
  }

  /** Rust `str::split_whitespace`: the maximal runs of non-whitespace characters, in order. */
  function SplitWhitespace(s: string): (tokens: seq<string>)
    ensures forall i :: 0 <= i < |tokens| ==> |tokens[i]| > 0 && NoWhitespace(tokens[i])
    decreases |s|
  {
    var k := LeadingWhitespace(s);
    if k == |s| then []
    else
      var n := TokenLength(s[k..]);
      assert s[k..][..n] == s[k..k + n];
      [s[k..k + n]] + SplitWhitespace(s[k + n..])
  }

  /** Trimming a string that neither starts nor ends with whitespace, followed by whitespace only, gives that string back. */
  lemma TrimTrailingWhitespace(t: string, suffix: string)
    requires |t| > 0 ==> !IsWhitespace(t[0]) && !IsWhitespace(t[|t| - 1])
    requires forall i :: 0 <= i < |suffix| ==> IsWhitespace(suffix[i])
    ensures Trim(t + suffix) == t
  {
    var s := t + suffix;
    forall i | |t| <= i < |s| ensures IsWhitespace(s[i]) {
      assert s[i] == suffix[i - |t|];
    }
    if |t| == 0 {
      assert s == suffix;
      assert LeadingWhitespace(s) == |s|;
    } else {
      assert s[0] == t[0] && s[|t| - 1] == t[|t| - 1];
      assert LeadingWhitespace(s) == 0;
      assert s[0..] == s;
      assert TrailingWhitespace(s) == |suffix|;
      assert s[0..|t|] == t;
    }
  }

  lemma {:induction false} NoTokensIff(s: string)
    ensures SplitWhitespace(s) == [] <==> forall i :: 0 <= i < |s| ==> IsWhitespace(s[i])
  {
  }

  /** A non-whitespace character, later a whitespace character, later again a non-whitespace one. */
  ghost predicate HasTwoWords(s: string) {
    exists i, j, k :: 0 <= i < j < k < |s| && !IsWhitespace(s[i]) && IsWhitespace(s[j]) && !IsWhitespace(s[k])
  }

  /** The first token of `s` starts after its leading whitespace and runs to the next whitespace. */
  lemma {:induction false} FirstToken(s: string) returns (k: nat, n: nat)
    requires LeadingWhitespace(s) < |s|
    ensures k == LeadingWhitespace(s) && 0 < n && k + n <= |s|
    ensures SplitWhitespace(s) == [s[k..k + n]] + SplitWhitespace(s[k + n..])
    ensures forall p :: 0 <= p < k ==> IsWhitespace(s[p])
    ensures forall p :: k <= p < k + n ==> !IsWhitespace(s[p])
    ensures k + n < |s| ==> IsWhitespace(s[k + n])
  {
    k := LeadingWhitespace(s);
    n := TokenLength(s[k..]);
    TokenInside(s, k, n);
    assert SplitWhitespace(s) == (if k == |s| then [] else [s[k..k + n]] + SplitWhitespace(s[k + n..]));
  }

  /** The first token of `s[k..]`, read back as positions of `s`. */
  lemma TokenInside(s: string, k: nat, n: nat)
    requires k < |s| && n == TokenLength(s[k..]) && !IsWhitespace(s[k])
    ensures 0 < n && k + n <= |s|
    ensures forall p :: k <= p < k + n ==> !IsWhitespace(s[p])
    ensures k + n < |s| ==> IsWhitespace(s[k + n])
  {
    var t := s[k..];
    assert t[0] == s[k];
    assert t[..n] == s[k..k + n];
    forall p | k <= p < k + n ensures !IsWhitespace(s[p]) {
      assert t[..n][p - k] == s[p];
    }
    if k + n < |s| {
      assert t[n] == s[k + n];
    }
  }

  lemma TwoTokensHaveTwoWords(s: string)
    requires |SplitWhitespace(s)| >= 2
    ensures HasTwoWords(s)
  {
    var k, n := FirstToken(s);
    var u := s[k + n..];
    NoTokensIff(u);
    var p :| 0 <= p < |u| && !IsWhitespace(u[p]);
    assert u[0] == s[k + n] && u[p] == s[k + n + p];
    assert !IsWhitespace(s[k]) && IsWhitespace(s[k + n]) && !IsWhitespace(s[k + n + p]);
  }

  lemma TwoWordsHaveTwoTokens(s: string)
    requires HasTwoWords(s)
    ensures |SplitWhitespace(s)| >= 2
  {
    var i, j, m :| 0 <= i < j < m < |s| && !IsWhitespace(s[i]) && IsWhitespace(s[j]) && !IsWhitespace(s[m]);
    assert LeadingWhitespace(s) <= i;
    var k, n := FirstToken(s);
    assert j >= k + n;
    var u := s[k + n..];
    assert u[m - (k + n)] == s[m];
    NoTokensIff(u);
  }

  /** `split_whitespace` yields at least two tokens exactly when two words are separated by whitespace. */
  lemma TwoTokensIff(s: string)
    ensures |SplitWhitespace(s)| >= 2 <==> HasTwoWords(s)
  {
    if |SplitWhitespace(s)| >= 2 {
      TwoTokensHaveTwoWords(s);
    }
    if HasTwoWords(s) {
      TwoWordsHaveTwoTokens(s);
    }
  }

  // ----- case and bytes

  /** Lower-cases ASCII letters and leaves every other character as it is. */
  function ToLowerAscii(s: string): (r: string)
    ensures |r| == |s|
    ensures forall i :: 0 <= i < |s| ==> r[i] == if 'A' <= s[i] <= 'Z' then (s[i] as int + 32) as char else s[i]
  {
    seq(|s|, i requires 0 <= i < |s| => if 'A' <= s[i] <= 'Z' then (s[i] as int + 32) as char else s[i])
  }

  predicate IsAscii(c: char) {
    c as int < 0x80
  }

  /** Number of bytes of `c` in UTF-8. */
  function Utf8Length(c: char): nat {
    if c as int < 0x80 then 1
    else if c as int < 0x800 then 2
    else if c as int < 0x1_0000 then 3
    else 4
  }

  /**
   * Rust `&s[n..]` with `n` a byte offset: `None` when the slice panics,
   * because `n` lies past the end or inside the UTF-8 encoding of a
   * character.
   */
  function ByteSliceFrom(s: string, n: nat): (r: Option<string>)
    decreases |s|
  {
    if n == 0 then Some(s)
    else if |s| == 0 then None
    else if Utf8Length(s[0]) <= n then ByteSliceFrom(s[1..], n - Utf8Length(s[0]))
    else None
  }

  /** A successful byte slice is a suffix of the string. */
  lemma {:induction false} ByteSliceIsSuffix(s: string, n: nat)
    ensures ByteSliceFrom(s, n).Some? ==>
              var r := ByteSliceFrom(s, n).value;
              |r| <= |s| && r == s[|s| - |r|..]
    decreases |s|
  {
    if n > 0 && |s| > 0 && Utf8Length(s[0]) <= n {
      ByteSliceIsSuffix(s[1..], n - Utf8Length(s[0]));
      if ByteSliceFrom(s, n).Some? {
        var r := ByteSliceFrom(s, n).value;
        assert s[1..][|s[1..]| - |r|..] == s[|s| - |r|..];
      }
    }
  }

  /** Slicing past a leading ASCII character is slicing the rest one byte earlier. */
  lemma AsciiStep(s: string, m: nat)
    requires |s| > 0 && IsAscii(s[0]) && m >= 1
    ensures ByteSliceFrom(s, m) == ByteSliceFrom(s[1..], m - 1)
  {
    assert Utf8Length(s[0]) == 1;
  }

  /** Past an ASCII prefix of `k` characters, slicing at byte `k + n` is slicing the rest at byte `n`. */
  lemma {:induction false} AsciiPrefixShift(s: string, k: nat, n: nat)
    requires k <= |s| && forall i :: 0 <= i < k ==> IsAscii(s[i])
    ensures ByteSliceFrom(s, k + n) == ByteSliceFrom(s[k..], n)
    decreases k
  {
    if k > 0 {
      var t := s[1..];
      forall i | 0 <= i < k - 1 ensures IsAscii(t[i]) {
        assert t[i] == s[i + 1];
      }
      var m := k - 1 + n;
      AsciiStep(s, m + 1);
      assert ByteSliceFrom(s, k + n) == ByteSliceFrom(t, m);
      AsciiPrefixShift(t, k - 1, n);
      assert t[k - 1..] == s[k..];
    }
  }

  /** Over an ASCII prefix, byte offsets and character offsets coincide. */
  lemma AsciiPrefixSlice(s: string, k: nat)
    requires k <= |s| && forall i :: 0 <= i < k ==> IsAscii(s[i])
    ensures ByteSliceFrom(s, k) == Some(s[k..])
  {
    AsciiPrefixShift(s, k, 0);
  }

  /** Dropping the first byte panics exactly on the empty string and on a non-ASCII first character. */
  lemma DropFirstByte(s: string)
    ensures ByteSliceFrom(s, 1).None? <==> |s| == 0 || !IsAscii(s[0])
    ensures |s| > 0 && IsAscii(s[0]) ==> ByteSliceFrom(s, 1) == Some(s[1..])
  {
  }
}
