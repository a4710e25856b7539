/** Failure-compatible wrappers and the string helpers shared by the
    back-end and front-end models. */
module Common {

  datatype Option<+T> = None | Some(value: T)

  datatype Result<+T, +E> = Ok(value: T) | Err(error: E)

  /** `q` occurs as a contiguous piece of `s` (Python's `q in s`,
      JavaScript's `s.includes(q)`). */
  predicate Contains(s: string, q: string) {
    exists i :: 0 <= i <= |s| - |q| && OccursAt(s, q, i)
  }

  predicate OccursAt(s: string, q: string, i: int) {
    0 <= i <= |s| - |q| && s[i..i + |q|] == q
  }

  /** The characters JavaScript's `trim` strips and `\s` matches:
      ECMAScript WhiteSpace and LineTerminator. */
  predicate IsJsSpace(c: char) {
    || c == '\t' || c == '\n' || c == '\U{B}' || c == '\U{C}' || c == '\r'
    || c == ' ' || c == '\U{A0}' || c == '\U{1680}'
    || ('\U{2000}' <= c <= '\U{200A}')
    || c == '\U{2028}' || c == '\U{2029}' || c == '\U{202F}' || c == '\U{205F}'
    || c == '\U{3000}' || c == '\U{FEFF}'
  }

  predicate AllSpace(s: string) {
    forall i :: 0 <= i < |s| ==> IsJsSpace(s[i])
  }

  function TrimStart(s: string): (r: string)
    ensures |r| <= |s| && r == s[|s| - |r|..]
    ensures AllSpace(s[..|s| - |r|])
    ensures r == [] || !IsJsSpace(r[0])
  {
    if s != [] && IsJsSpace(s[0]) then TrimStart(s[1..]) else s
  }

  function TrimEnd(s: string): (r: string)
    ensures |r| <= |s| && r == s[..|r|]
    ensures AllSpace(s[|r|..])
    ensures r == [] || !IsJsSpace(r[|r| - 1])
  {
    if s != [] && IsJsSpace(s[|s| - 1]) then TrimEnd(s[..|s| - 1]) else s
  }

  /** JavaScript's `String.prototype.trim`. */
  function Trim(s: string): (r: string)
    ensures r == [] <==> AllSpace(s)
    ensures r != [] ==> !IsJsSpace(r[0]) && !IsJsSpace(r[|r| - 1])
  {
    var t := TrimStart(s);
    assert s == s[..|s| - |t|] + t;
    TrimEnd(t)
  }

  /** Length of the leading run of non-space characters. */
  function WordLength(s: string): (n: nat)
    ensures n <= |s|
    ensures forall i :: 0 <= i < n ==> !IsJsSpace(s[i])
    ensures n < |s| ==> IsJsSpace(s[n])
  {
    if s == [] || IsJsSpace(s[0]) then 0 else 1 + WordLength(s[1..])
  }

  /** The maximal runs of non-space characters, in order: what
      `line.trim().split(/\s+/)` yields for a line that is not blank. */
  function Words(s: string): (ws: seq<string>)
    ensures AllSpace(s) ==> ws == []
    ensures forall k :: 0 <= k < |ws| ==> ws[k] != [] && !exists i :: 0 <= i < |ws[k]| && IsJsSpace(ws[k][i])
    decreases |s|
  {
    if s == [] then []
    else if IsJsSpace(s[0]) then Words(s[1..])
    else
      var n := WordLength(s);
      [s[..n]] + Words(s[n..])
  }

  /** Trimming first changes no word: `Words` already skips the blanks at
      either end, so `line.trim().split(/\s+/)` on a non-blank line is
      `Words(line)`. */
  lemma WordsIgnoreTrim(s: string)
    ensures Words(Trim(s)) == Words(s)
  {
    WordsSkipLeading(s);
    WordsTrimEnd(TrimStart(s));
  }

  lemma WordsTrimEnd(t: string)
    ensures Words(TrimEnd(t)) == Words(t)
  {
    var e := TrimEnd(t);
    var sp := t[|e|..];
    assert t == e + sp;
    WordsSkipTrailing(e, sp);
  }

  lemma {:induction false} WordsSkipLeading(s: string)
    ensures Words(TrimStart(s)) == Words(s)
  {
    if s != [] && IsJsSpace(s[0]) {
      WordsSkipLeading(s[1..]);
    }
  }

  lemma {:induction false} WordsSkipTrailing(t: string, sp: string)
    requires AllSpace(sp)
    ensures Words(t + sp) == Words(t)
    decreases |t|
  {
    var s := t + sp;
    if t == [] {
      assert s == sp;
    } else if IsJsSpace(t[0]) {
      assert s[0] == t[0] && s[1..] == t[1..] + sp;
      WordsSkipTrailing(t[1..], sp);
    } else {
      assert s[0] == t[0];
      var n := WordLength(s);
      var m := WordLength(t);
      WordLengthSkipTrailing(t, sp);
      assert s[..n] == t[..m];
      assert s[n..] == t[m..] + sp;
      WordsSkipTrailing(t[m..], sp);
    }
  }

  lemma {:induction false} WordLengthSkipTrailing(t: string, sp: string)
    requires AllSpace(sp)
    ensures WordLength(t + sp) == WordLength(t)
    decreases |t|
  {
    if t == [] {
      assert t + sp == sp;
    } else {
      assert (t + sp)[0] == t[0];
      if !IsJsSpace(t[0]) {
        assert (t + sp)[1..] == t[1..] + sp;
        WordLengthSkipTrailing(t[1..], sp);
      }
    }
  }

  /** `a` is `b` with some elements left out and the rest kept in order. */
  ghost predicate Subsequence<T>(a: seq<T>, b: seq<T>)
    decreases |b|
  {
    if a == [] then true
    else if b == [] then false
    else (a[0] == b[0] && Subsequence(a[1..], b[1..])) || Subsequence(a, b[1..])
  }
}
