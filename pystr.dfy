/**
 * Python 2 byte strings (`str`) and the two `str` methods the cookie code
 * relies on: `split()` with no argument and `strip()` with no argument.
 * Both treat the six ASCII whitespace bytes as separators.
 */
module PyStr {

  /** One octet of a Python 2 `str`. */
  type Byte = c: char | c as int < 256

  /** A Python 2 `str`: a sequence of octets. */
  type Bytes = seq<Byte>

  /** The bytes `str.split()` and `str.strip()` treat as whitespace. */
  predicate IsSpace(c: char) {
    c == ' ' || c == '\t' || c == '\n' || c == '\r' || c as int == 11 || c as int == 12
  }

  /** A non-empty run of non-whitespace bytes: what `split()` can return. */
  predicate IsWord(w: Bytes) {
    |w| > 0 && forall i | 0 <= i < |w| :: !IsSpace(w[i])
  }

  /** Length of the longest whitespace-free prefix of `s`. */
  function WordLength(s: Bytes): (n: nat)
    ensures n <= |s|
    ensures forall i | 0 <= i < n :: !IsSpace(s[i])
    ensures n < |s| ==> IsSpace(s[n])
  {
    if |s| == 0 || IsSpace(s[0]) then 0 else 1 + WordLength(s[1..])
  }

  /** `s.split()`: the maximal whitespace-free runs of `s`, in order. */
  function Split(s: Bytes): (words: seq<Bytes>)
    ensures AllWords(words)
    ensures (forall i | 0 <= i < |s| :: IsSpace(s[i])) <==> words == []
    decreases |s|
  {
    if |s| == 0 then []
    else if IsSpace(s[0]) then Split(s[1..])
    else
      var n := WordLength(s);
      [s[..n]] + Split(s[n..])
  }

  /** `s.lstrip()`. */
  function LStrip(s: Bytes): (r: Bytes)
    ensures |r| == 0 || !IsSpace(r[0])
  {
    if |s| > 0 && IsSpace(s[0]) then LStrip(s[1..]) else s
  }

  /** `s.rstrip()`. */
  function RStrip(s: Bytes): (r: Bytes)
    ensures |r| == 0 || !IsSpace(r[|r| - 1])
  {
    if |s| > 0 && IsSpace(s[|s| - 1]) then RStrip(s[..|s| - 1]) else s
  }

  /** `s.strip()`. */
  function Strip(s: Bytes): (r: Bytes) {
    RStrip(LStrip(s))
  }

  /** `"\n".join(lines)`. */
  function JoinLines(lines: seq<Bytes>): (r: Bytes) {
    if |lines| == 0 then []
    else if |lines| == 1 then lines[0]
    else lines[0] + "\n" + JoinLines(lines[1..])
  }

  predicate AllWords(lines: seq<Bytes>) {
    forall i | 0 <= i < |lines| :: IsWord(lines[i])
  }

  /** A word is its own maximal non-whitespace prefix. */
  lemma {:induction false} WordLengthOfWordPrefix(w: Bytes, rest: Bytes)
    requires forall i | 0 <= i < |w| :: !IsSpace(w[i])
    requires |rest| == 0 || IsSpace(rest[0])
    ensures WordLength(w + rest) == |w|
  {
    if |w| > 0 {
      assert (w + rest)[1..] == w[1..] + rest;
      WordLengthOfWordPrefix(w[1..], rest);
    } else {
      assert w + rest == rest;
    }
  }

  /** A lone word splits into itself. */
  lemma SplitWord(w: Bytes)
    requires IsWord(w)
    ensures Split(w) == [w]
  {
    WordLengthOfWordPrefix(w, []);
    assert w + [] == w;
    assert w[..|w|] == w;
  }

  /**
   * Splitting at a whitespace byte: the words of `x + [c] + y` are the words
   * of `x` followed by the words of `y`.
   */
  lemma {:induction false} SplitAtSpace(x: Bytes, c: Byte, y: Bytes)
    requires IsSpace(c)
    ensures Split(x + [c] + y) == Split(x) + Split(y)
    decreases |x|
  {
    var s := x + [c] + y;
    if |x| == 0 {
      assert s[1..] == y;
    } else if IsSpace(x[0]) {
      assert s[1..] == x[1..] + [c] + y;
      SplitAtSpace(x[1..], c, y);
    } else {
      var n := WordLength(x);
      WordLengthOfWordPrefix(x[..n], x[n..] + [c] + y);
      assert x[..n] + (x[n..] + [c] + y) == s;
      assert s[..n] == x[..n];
      assert s[n..] == x[n..] + [c] + y;
      SplitAtSpace(x[n..], c, y);
    }
  }

  /** Splitting newline-joined words gives the words back. */
  lemma {:induction false} SplitJoinLines(lines: seq<Bytes>)
    requires AllWords(lines)
    ensures Split(JoinLines(lines)) == lines
  {
    if |lines| == 1 {
      SplitWord(lines[0]);
    } else if |lines| > 1 {
      SplitAtSpace(lines[0], '\n', JoinLines(lines[1..]));
      SplitWord(lines[0]);
      SplitJoinLines(lines[1..]);
    }
  }

  /** Newline-joined words neither start nor end with whitespace. */
  lemma {:induction false} JoinLinesEnds(lines: seq<Bytes>)
    requires |lines| > 0 && AllWords(lines)
    ensures |JoinLines(lines)| > 0
    ensures !IsSpace(JoinLines(lines)[0])
    ensures !IsSpace(JoinLines(lines)[|JoinLines(lines)| - 1])
  {
    if |lines| > 1 {
      JoinLinesEnds(lines[1..]);
    }
  }

  /** Stripping a trailing newline off newline-joined words leaves the words joined. */
  lemma StripJoinLinesNewline(lines: seq<Bytes>)
    requires |lines| > 0 && AllWords(lines)
    ensures Strip(JoinLines(lines) + "\n") == JoinLines(lines)
  {
    var j := JoinLines(lines);
    JoinLinesEnds(lines);
    var s := j + "\n";
    assert LStrip(s) == s;
    assert s[..|s| - 1] == j;
    assert RStrip(s) == RStrip(j);
  }
}
