/**
 * The pieces of Python's string handling that the campaign helpers rely
 * on: whitespace splitting (`str.split()` with and without `maxsplit=1`),
 * `' '.join`, `str.strip()` and `str.split(sep, 1)` unpacked into two parts.
 */
module PyText {
  import opened Wrappers

  /** Python's `str.isspace` for one character: the characters `str.split()` and `str.strip()` treat as whitespace. */
  predicate IsSpace(c: char) {
    var n := c as int;
    || 0x09 <= n <= 0x0D || 0x1C <= n <= 0x20
    || n == 0x85 || n == 0xA0 || n == 0x1680
    || 0x2000 <= n <= 0x200A || n == 0x2028 || n == 0x2029
    || n == 0x202F || n == 0x205F || n == 0x3000
  }

  /** A string `str.split()` keeps whole: non-empty and free of whitespace. */
  predicate IsWord(w: string) {
    |w| > 0 && forall i :: 0 <= i < |w| ==> !IsSpace(w[i])
  }

  /** All characters whitespace. */
  predicate AllSpace(s: string) {
    forall i :: 0 <= i < |s| ==> IsSpace(s[i])
  }

  /** The longest prefix of `s` without whitespace. */
  function TakeWord(s: string): (w: string)
    ensures w <= s
    ensures forall i :: 0 <= i < |w| ==> !IsSpace(w[i])
    ensures |w| < |s| ==> IsSpace(s[|w|])
  {
    if s == [] || IsSpace(s[0]) then [] else [s[0]] + TakeWord(s[1..])
  }

  /** `str.split()`: the maximal runs of non-whitespace characters, in order. */
  function Split(s: string): (words: seq<string>)
    ensures forall k :: 0 <= k < |words| ==> IsWord(words[k])
    decreases |s|
  {
    if s == [] then []
    else if IsSpace(s[0]) then Split(s[1..])
    else
      var w := TakeWord(s);
      [w] + Split(s[|w|..])
  }

  /** `' '.join(words)`. */
  function Join(words: seq<string>): (s: string)
    ensures |words| == 1 ==> s == words[0]
  {
    if words == [] then []
    else if |words| == 1 then words[0]
    else words[0] + " " + Join(words[1..])
  }

  /** `str.split()` applied to each string in turn, the results concatenated. */
  function SplitAll(parts: seq<string>): seq<string>
  {
    if parts == [] then [] else Split(parts[0]) + SplitAll(parts[1..])
  }

  /** `str.lstrip()`: `s` without its leading whitespace. */
  function TrimLeft(s: string): (r: string)
    ensures |r| <= |s| && r == s[|s| - |r|..]
    ensures AllSpace(s[..|s| - |r|])
    ensures r != [] ==> !IsSpace(r[0])
  {
    if s != [] && IsSpace(s[0]) then TrimLeft(s[1..]) else s
  }

  /** `str.rstrip()`: `s` without its trailing whitespace. */
  function TrimRight(s: string): (r: string)
    ensures |r| <= |s| && r == s[..|r|]
    ensures AllSpace(s[|r|..])
    ensures r != [] ==> !IsSpace(r[|r| - 1])
  {
    if s != [] && IsSpace(s[|s| - 1]) then TrimRight(s[..|s| - 1]) else s
  }

  /** `str.strip()`. */
  function Strip(s: string): (r: string)
  {
    TrimRight(TrimLeft(s))
  }

  /** A stripped string has no whitespace at either end. */
  lemma StripEnds(s: string)
    ensures var r := Strip(s);
      r != [] ==> !IsSpace(r[0]) && !IsSpace(r[|r| - 1])
  {
    var t := TrimLeft(s);
    var r := TrimRight(t);
    if r != [] {
      assert r[0] == t[0];
    }
  }

  /** Stripping twice is stripping once. */
  lemma StripIdempotent(s: string)
    ensures Strip(Strip(s)) == Strip(s)
  {
    var r := Strip(s);
    StripEnds(s);
    StripFixed(r);
  }

  /** A string with no whitespace at either end is its own strip. */
  lemma StripFixed(s: string)
    requires s != [] ==> !IsSpace(s[0]) && !IsSpace(s[|s| - 1])
    ensures Strip(s) == s
  {
  }

  /** No whitespace inside a run of non-whitespace: the word ends at the first whitespace character. */
  lemma {:induction false} TakeWordBefore(x: string, c: char, y: string)
    requires IsSpace(c)
    ensures TakeWord(x + [c] + y) == TakeWord(x)
    decreases |x|
  {
    if x == [] {
    } else if IsSpace(x[0]) {
    } else {
      assert (x + [c] + y)[1..] == x[1..] + [c] + y;
      TakeWordBefore(x[1..], c, y);
    }
  }

  /** A whitespace character splits the words on its two sides apart. */
  lemma {:induction false} SplitAround(x: string, c: char, y: string)
    requires IsSpace(c)
    ensures Split(x + [c] + y) == Split(x) + Split(y)
    decreases |x|
  {
    var s := x + [c] + y;
    if x == [] {
      assert s[1..] == y;
    } else if IsSpace(x[0]) {
      assert s[1..] == x[1..] + [c] + y;
      SplitAround(x[1..], c, y);
    } else {
      TakeWordBefore(x, c, y);
      var w := TakeWord(x);
      assert s[|w|..] == x[|w|..] + [c] + y;
      SplitAround(x[|w|..], c, y);
    }
  }

  /** A word splits into itself. */
  lemma WordSplit(w: string)
    requires IsWord(w)
    ensures Split(w) == [w]
  {
    assert TakeWord(w) == w by {
      WordTakesWhole(w);
    }
    assert w[|w|..] == [];
  }

  lemma {:induction false} WordTakesWhole(w: string)
    requires forall i :: 0 <= i < |w| ==> !IsSpace(w[i])
    ensures TakeWord(w) == w
  {
    if w != [] {
      WordTakesWhole(w[1..]);
    }
  }

  /** Splitting a space-joined list splits each element: `' '.join` adds no words and loses none. */
  lemma {:induction false} SplitJoin(parts: seq<string>)
    ensures Split(Join(parts)) == SplitAll(parts)
  {
    if |parts| == 0 {
    } else if |parts| == 1 {
      assert SplitAll(parts[1..]) == [];
    } else {
      SplitAround(parts[0], ' ', Join(parts[1..]));
      assert parts[0] + " " + Join(parts[1..]) == parts[0] + [' '] + Join(parts[1..]);
      SplitJoin(parts[1..]);
    }
  }

  /** The round trip the pipeline helpers rely on: words joined with spaces split back into the same words. */
  lemma {:induction false} SplitJoinWords(words: seq<string>)
    requires forall k :: 0 <= k < |words| ==> IsWord(words[k])
    ensures Split(Join(words)) == words
  {
    SplitJoin(words);
    SplitAllWords(words);
  }

  lemma {:induction false} SplitAllWords(words: seq<string>)
    requires forall k :: 0 <= k < |words| ==> IsWord(words[k])
    ensures SplitAll(words) == words
  {
    if words != [] {
      WordSplit(words[0]);
      SplitAllWords(words[1..]);
    }
  }

  /** Leading whitespace does not change the words. */
  lemma {:induction false} SplitTrimLeft(s: string)
    ensures Split(TrimLeft(s)) == Split(s)
  {
    if s != [] && IsSpace(s[0]) {
      SplitTrimLeft(s[1..]);
    }
  }

  /** A string splits into no words exactly when it is all whitespace. */
  lemma {:induction false} SplitEmpty(s: string)
    ensures Split(s) == [] <==> TrimLeft(s) == []
  {
    if s != [] && IsSpace(s[0]) {
      SplitEmpty(s[1..]);
    }
  }

  /** A string that starts with a non-whitespace character keeps at least one word after stripping. */
  lemma SplitStripNonEmpty(s: string)
    requires s != [] && !IsSpace(s[0])
    ensures Split(Strip(s)) != []
  {
    assert TrimLeft(s) == s;
    var r := Strip(s);
    assert r != [] by {
      assert AllSpace(s[|r|..]);
    }
    assert TrimLeft(r) == r;
    SplitEmpty(r);
  }

  /** A string of whitespace only holds no word. */
  lemma {:induction false} SplitAllSpace(s: string)
    requires AllSpace(s)
    ensures Split(s) == []
  {
    if s != [] {
      SplitAllSpace(s[1..]);
    }
  }

  /**
   * `s.split(sep, 1)` unpacked into two names: the text before the first
   * `sep` and the text after it; `None` where Python's unpacking raises
   * ValueError because `sep` does not occur.
   */
  function SplitOnce(s: string, sep: char): (r: Option<(string, string)>)
    ensures r.None? <==> sep !in s
    ensures r.Some? ==> r.value.0 + [sep] + r.value.1 == s && sep !in r.value.0
  {
    if s == [] then None
    else if s[0] == sep then Some(([], s[1..]))
    else
      match SplitOnce(s[1..], sep)
      case None => None
      case Some((a, b)) => Some(([s[0]] + a, b))
  }

  /** SplitOnce undoes gluing two texts together at a separator the first does not contain. */
  lemma {:induction false} SplitOnceGlue(a: string, sep: char, b: string)
    requires sep !in a
    ensures SplitOnce(a + [sep] + b, sep) == Some((a, b))
  {
    if a != [] {
      assert (a + [sep] + b)[1..] == a[1..] + [sep] + b;
      SplitOnceGlue(a[1..], sep, b);
      assert [a[0]] + a[1..] == a;
    }
  }

  /**
   * `s.split(maxsplit=1)` unpacked into a command and the rest: the first
   * word, then the text after the whitespace that follows it (trailing
   * whitespace kept); `None` where the split gives fewer than two items and
   * the unpacking raises ValueError.
   */
  function SplitFirstWord(s: string): (r: Option<(string, string)>)
    ensures r.Some? ==> IsWord(r.value.0) && r.value.1 != [] && !IsSpace(r.value.1[0])
  {
    var t := TrimLeft(s);
    if t == [] then None
    else
      var w := TakeWord(t);
      var rest := TrimLeft(t[|w|..]);
      if rest == [] then None else Some((w, rest))
  }

  /** The one-split agrees with the full split: it fails exactly when there are fewer than two words, and otherwise its first part is the first word and its rest splits into the remaining words. */
  lemma SplitFirstWordAgrees(s: string)
    ensures var r := SplitFirstWord(s);
      && (r.None? <==> |Split(s)| < 2)
      && (r.Some? ==> Split(s) == [r.value.0] + Split(r.value.1))
  {
    var t := TrimLeft(s);
    SplitTrimLeft(s);
    SplitEmpty(s);
    if t != [] {
      var w := TakeWord(t);
      assert Split(t) == [w] + Split(t[|w|..]);
      SplitTrimLeft(t[|w|..]);
      SplitEmpty(t[|w|..]);
    }
  }
}
