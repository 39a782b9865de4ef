/**
 The pieces of Go's `strings` and `bufio` packages that the predictor relies
 on, over text as a sequence of Unicode code points: first-occurrence search,
 `strings.Split` on a one-character separator, `strings.TrimSpace`, and the
 first token of a `bufio.Scanner` in its default line-splitting mode.
 */
module Text {
  import opened Wrappers

  /** Index of the first `c` in `s`, or `|s|` when there is none. */
  function IndexOf(s: string, c: char): (i: nat)
    ensures i <= |s|
    ensures c !in s[..i]
    ensures i < |s| ==> s[i] == c
    ensures i == |s| <==> c !in s
    decreases |s|
  {
    if |s| == 0 then 0
    else if s[0] == c then 0
    else
      var j := IndexOf(s[1..], c);
      assert s[1..][..j] == s[1..j + 1];
      assert forall k :: 0 <= k < j + 1 ==> s[..j + 1][k] == s[k];
      1 + j
  }

  /** `IndexOf` is the only position with no `c` before it and `c` (or the
      end) at it. */
  lemma {:induction false} IndexOfIs(s: string, c: char, k: nat)
    requires k <= |s|
    requires c !in s[..k]
    requires k < |s| ==> s[k] == c
    ensures IndexOf(s, c) == k
    decreases |s|
  {
    if |s| > 0 {
      assert k == 0 || s[..k][0] == s[0];
      if s[0] != c {
        assert s[1..][..k - 1] == s[1..k];
        assert forall j :: 0 <= j < k - 1 ==> s[1..k][j] == s[..k][j + 1];
        IndexOfIs(s[1..], c, k - 1);
      }
    }
  }

  /** Number of occurrences of `c` in `s`. */
  function Count(s: string, c: char): nat
    decreases |s|
  {
    if |s| == 0 then 0 else (if s[0] == c then 1 else 0) + Count(s[1..], c)
  }

  lemma {:induction false} CountAppend(a: string, b: string, c: char)
    ensures Count(a + b, c) == Count(a, c) + Count(b, c)
    decreases |a|
  {
    if |a| == 0 {
      assert a + b == b;
    } else {
      assert (a + b)[0] == a[0];
      assert (a + b)[1..] == a[1..] + b;
      CountAppend(a[1..], b, c);
    }
  }

  lemma {:induction false} CountZero(s: string, c: char)
    ensures Count(s, c) == 0 <==> c !in s
    decreases |s|
  {
    if |s| > 0 {
      CountZero(s[1..], c);
      assert s == [s[0]] + s[1..];
    }
  }

  /** Concatenation of `parts` with one `sep` between neighbours; the inverse
      of `Split`. */
  function Join(parts: seq<string>, sep: char): string
    decreases |parts|
  {
    if |parts| == 0 then ""
    else if |parts| == 1 then parts[0]
    else parts[0] + [sep] + Join(parts[1..], sep)
  }

  /** `strings.Split(s, sep)` for a one-character separator: the maximal
      separator-free pieces, in order. The empty string splits into one
      empty piece. */
  function Split(s: string, sep: char): (parts: seq<string>)
    ensures |parts| == Count(s, sep) + 1
    ensures forall k :: 0 <= k < |parts| ==> sep !in parts[k]
    ensures Join(parts, sep) == s
    decreases |s|
  {
    var i := IndexOf(s, sep);
    if i == |s| then
      CountZero(s, sep);
      [s]
    else
      var rest := Split(s[i + 1..], sep);
      assert s == s[..i] + [sep] + s[i + 1..];
      CountAppend(s[..i] + [sep], s[i + 1..], sep);
      CountAppend(s[..i], [sep], sep);
      CountZero(s[..i], sep);
      assert Count([sep], sep) == 1 by {
        assert [sep][1..] == [];
      }
      [s[..i]] + rest
  }

  /** Splitting a join of separator-free pieces gives the pieces back. */
  lemma {:induction false} SplitJoin(parts: seq<string>, sep: char)
    requires |parts| > 0
    requires forall k :: 0 <= k < |parts| ==> sep !in parts[k]
    ensures Split(Join(parts, sep), sep) == parts
    decreases |parts|
  {
    if |parts| == 1 {
      assert Join(parts, sep) == parts[0];
    } else {
      var s := Join(parts, sep);
      var tail := parts[1..];
      JoinHead(parts, sep);
      SplitJoin(tail, sep);
      SplitStep(s, sep, |parts[0]|);
      assert parts == [parts[0]] + tail;
    }
  }

  /** Splitting at a first separator at `i`: the piece before it, then the
      pieces of the rest. */
  lemma {:induction false} SplitStep(s: string, sep: char, i: nat)
    requires i < |s| && IndexOf(s, sep) == i
    ensures Split(s, sep) == [s[..i]] + Split(s[i + 1..], sep)
  {
  }

  /** A join of two or more pieces whose first piece is separator-free has
      its first separator right after that piece, and the rest after it. */
  lemma {:induction false} JoinHead(parts: seq<string>, sep: char)
    requires |parts| > 1
    requires sep !in parts[0]
    ensures IndexOf(Join(parts, sep), sep) == |parts[0]|
    ensures Join(parts, sep)[..|parts[0]|] == parts[0]
    ensures Join(parts, sep)[|parts[0]| + 1..] == Join(parts[1..], sep)
  {
    var p := parts[0];
    var tail := Join(parts[1..], sep);
    var s := p + [sep] + tail;
    assert Join(parts, sep) == s;
    assert s[..|p|] == p;
    assert s[|p|] == sep;
    IndexOfIs(s, sep, |p|);
    assert s[|p| + 1..] == tail;
  }

  /** Two separator-free pieces around one separator split back into exactly
      those two pieces. */
  lemma {:induction false} SplitPair(a: string, b: string, sep: char)
    requires sep !in a && sep !in b
    ensures Split(a + [sep] + b, sep) == [a, b]
  {
    assert Join([a, b], sep) == a + [sep] + Join([b], sep);
    assert [a, b][1..] == [b];
    SplitJoin([a, b], sep);
  }

  /** Go's `unicode.IsSpace`: the ASCII white space characters, NEL, NBSP and
      the other code points with the Unicode White_Space property. */
  predicate IsSpace(c: char)
  {
    || c == '\t' || c == '\n' || c == '\U{000B}' || c == '\U{000C}' || c == '\r' || c == ' '
    || c == '\U{0085}' || c == '\U{00A0}' || c == '\U{1680}'
    || ('\U{2000}' <= c <= '\U{200A}')
    || c == '\U{2028}' || c == '\U{2029}' || c == '\U{202F}' || c == '\U{205F}' || c == '\U{3000}'
  }

  predicate AllSpace(s: string)
  {
    forall k :: 0 <= k < |s| ==> IsSpace(s[k])
  }

  /** The first index at or after `i` that is not white space (`|s|` when
      there is none). */
  function LeadingFrom(s: string, i: nat): (k: nat)
    requires i <= |s|
    ensures i <= k <= |s|
    ensures forall j :: i <= j < k ==> IsSpace(s[j])
    ensures k < |s| ==> !IsSpace(s[k])
    decreases |s| - i
  {
    if i == |s| || !IsSpace(s[i]) then i else LeadingFrom(s, i + 1)
  }

  /** The number of leading white space characters. */
  function LeadingSpace(s: string): (k: nat)
    ensures k <= |s|
    ensures AllSpace(s[..k])
    ensures k < |s| ==> !IsSpace(s[k])
  {
    var k := LeadingFrom(s, 0);
    assert forall j :: 0 <= j < k ==> s[..k][j] == s[j];
    k
  }

  /** The end of the text before `j` once white space just before `j` is
      dropped: every character from the result up to `j` is white space,
      and the one before the result is not. */
  function TrailingEnd(s: string, j: nat): (e: nat)
    requires j <= |s|
    ensures e <= j
    ensures forall k :: e <= k < j ==> IsSpace(s[k])
    ensures e > 0 ==> !IsSpace(s[e - 1])
    decreases j
  {
    if j == 0 || !IsSpace(s[j - 1]) then j else TrailingEnd(s, j - 1)
  }

  /** `strings.TrimSpace`: `s` without its leading and trailing white space.
      The result is the slice of `s` that starts at the first non-space
      character and ends at the last one, and is empty when there is none. */
  function TrimSpace(s: string): (t: string)
    ensures LeadingSpace(s) + |t| <= |s|
    ensures t == s[LeadingSpace(s)..LeadingSpace(s) + |t|]
    ensures AllSpace(s[LeadingSpace(s) + |t|..])
    ensures |t| > 0 ==> !IsSpace(t[0]) && !IsSpace(t[|t| - 1])
    ensures |t| == 0 <==> AllSpace(s)
  {
    var i := LeadingSpace(s);
    var e := TrailingEnd(s, |s|);
    if i == |s| then
      assert s[..i] == s;
      ""
    else
      assert !AllSpace(s) by { assert !IsSpace(s[i]); }
      assert i < e;
      assert forall k :: 0 <= k < |s| - e ==> s[e..][k] == s[e + k];
      s[i..e]
  }

  /** `LeadingFrom` is the only index with white space from `i` up to it
      and none at it. */
  lemma {:induction false} LeadingFromIs(s: string, i: nat, k: nat)
    requires i <= k <= |s|
    requires forall j :: i <= j < k ==> IsSpace(s[j])
    requires k < |s| ==> !IsSpace(s[k])
    ensures LeadingFrom(s, i) == k
    decreases |s| - i
  {
    if i < k {
      LeadingFromIs(s, i + 1, k);
    }
  }

  /** `TrailingEnd` is the only index with white space from it up to `j`
      and none just before it. */
  lemma {:induction false} TrailingEndIs(s: string, j: nat, e: nat)
    requires e <= j <= |s|
    requires forall k :: e <= k < j ==> IsSpace(s[k])
    requires e > 0 ==> !IsSpace(s[e - 1])
    ensures TrailingEnd(s, j) == e
    decreases j
  {
    if e < j {
      TrailingEndIs(s, j - 1, e);
    }
  }

  /** Surrounding white space is exactly what trimming removes: padding a
      text that neither starts nor ends with white space and trimming again
      gives the text back. */
  lemma {:induction false} TrimSpacePadded(pre: string, t: string, post: string)
    requires AllSpace(pre) && AllSpace(post)
    requires |t| > 0 ==> !IsSpace(t[0]) && !IsSpace(t[|t| - 1])
    ensures TrimSpace(pre + t + post) == t
  {
    var s := pre + t + post;
    if |t| == 0 {
      assert AllSpace(s) by {
        forall k | 0 <= k < |s| ensures IsSpace(s[k]) {
          if k < |pre| { assert s[k] == pre[k]; } else { assert s[k] == post[k - |pre|]; }
        }
      }
    } else {
      var e := |pre| + |t|;
      assert forall j :: 0 <= j < |pre| ==> s[j] == pre[j];
      assert s[|pre|] == t[0];
      LeadingFromIs(s, 0, |pre|);
      assert forall k :: e <= k < |s| ==> s[k] == post[k - e];
      assert s[e - 1] == t[|t| - 1];
      TrailingEndIs(s, |s|, e);
      assert s[|pre|..e] == t;
    }
  }

  lemma {:induction false} Regroup(a: string, b: string, c: string, d: string)
    ensures (a + b + c) + d == a + b + (c + d)
  {
  }

  lemma {:induction false} AllSpaceAppend(a: string, b: string)
    requires AllSpace(a) && AllSpace(b)
    ensures AllSpace(a + b)
  {
    forall k | 0 <= k < |a + b| ensures IsSpace((a + b)[k]) {
      if k < |a| { assert (a + b)[k] == a[k]; }
      else { assert (a + b)[k] == b[k - |a|]; }
    }
  }

  /** Every text is its leading white space, its trimmed text and its
      trailing white space, in that order. */
  lemma {:induction false} TrimSpaceDecomposes(s: string)
    ensures exists pre, post :: AllSpace(pre) && AllSpace(post) && s == pre + TrimSpace(s) + post
  {
    var t := TrimSpace(s);
    var i := LeadingSpace(s);
    var pre := s[..i];
    var post := s[i + |t|..];
    assert s == pre + t + post;
  }

  /** Trailing white space, a line feed included, does not change the trimmed text. */
  lemma {:induction false} TrimSpaceTrailing(s: string, post: string)
    requires AllSpace(post)
    ensures TrimSpace(s + post) == TrimSpace(s)
  {
    TrimSpaceDecomposes(s);
    var t := TrimSpace(s);
    var pre, tail :| AllSpace(pre) && AllSpace(tail) && s == pre + t + tail;
    Regroup(pre, t, tail, post);
    AllSpaceAppend(tail, post);
    TrimSpacePadded(pre, t, tail + post);
  }

  /** Trimming is idempotent. */
  lemma {:induction false} TrimSpaceIdempotent(s: string)
    ensures TrimSpace(TrimSpace(s)) == TrimSpace(s)
  {
    var t := TrimSpace(s);
    assert AllSpace("");
    assert "" + t + "" == t;
    TrimSpacePadded("", t, "");
  }

  /** The text before the first line feed (all of `s` when there is none). */
  function UpToNewline(s: string): (line: string)
    ensures line == s[..IndexOf(s, '\n')]
    ensures '\n' !in line
  {
    s[..IndexOf(s, '\n')]
  }

  /** `bufio.ScanLines`' `dropCR`: one trailing carriage return is dropped. */
  function DropCR(s: string): (t: string)
    ensures |s| > 0 && s[|s| - 1] == '\r' ==> t + "\r" == s
    ensures !(|s| > 0 && s[|s| - 1] == '\r') ==> t == s
  {
    if |s| > 0 && s[|s| - 1] == '\r' then s[..|s| - 1] else s
  }

  /** The first `Scan` of a `bufio.Scanner` with the default line splitter:
      no token for empty input; otherwise the text up to the first line feed
      (or to the end), less one trailing carriage return. */
  function FirstLine(content: string): (line: Option<string>)
    ensures line.None? <==> |content| == 0
    ensures line.Some? ==> '\n' !in line.value
    ensures line.Some? ==> line.value <= content
  {
    if |content| == 0 then None
    else
      var l := DropCR(UpToNewline(content));
      assert l <= UpToNewline(content);
      Some(l)
  }

  /** A first line ends where its text meets a line feed, a CR-LF pair, a
      final CR, or the end of the content. */
  lemma {:induction false} FirstLineOfLine(line: string, rest: string)
    requires '\n' !in line
    requires |line| == 0 || line[|line| - 1] != '\r'
    requires |line| > 0 || |rest| > 0
    requires rest == [] || rest[0] == '\n' || (rest[0] == '\r' && (|rest| == 1 || rest[1] == '\n'))
    ensures FirstLine(line + rest) == Some(line)
  {
    var s := line + rest;
    assert s[..|line|] == line;
    if rest == [] {
      assert s == line;
      IndexOfIs(s, '\n', |s|);
    } else if rest[0] == '\n' {
      IndexOfIs(s, '\n', |line|);
    } else {
      var k := if |rest| == 1 then |s| else |line| + 1;
      assert s[..|line| + 1] == line + "\r";
      assert s[..k] == line + "\r";
      IndexOfIs(s, '\n', k);
    }
  }
}
