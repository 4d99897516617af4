/** `Exporter.compress` from main.py: strip every line, drop comment lines,
    drop empty lines, or hand the lines back untouched when compression is
    switched off. */
module Exporter {

  /** The characters Python's `str.strip()` removes: those for which
      `str.isspace()` holds. */
  predicate IsWhitespace(c: char) {
    c in {'\t', '\n', '\U{000B}', '\U{000C}', '\r', '\U{001C}', '\U{001D}', '\U{001E}', '\U{001F}', ' ',
          '\U{0085}', '\U{00A0}', '\U{1680}', '\U{2028}', '\U{2029}', '\U{202F}', '\U{205F}', '\U{3000}'}
    || '\U{2000}' <= c <= '\U{200A}'
  }

  /** Every character of `s` outside the slice `s[i..j]` is whitespace. */
  predicate WhitespaceOutside(s: string, i: int, j: int) {
    forall k :: 0 <= k < |s| && !(i <= k < j) ==> IsWhitespace(s[k])
  }

  /** A string with no whitespace at either end. */
  predicate IsStripped(s: string) {
    s == [] || (!IsWhitespace(s[0]) && !IsWhitespace(s[|s| - 1]))
  }

  /** Leading whitespace removed. */
  function TrimStart(s: string): (r: string)
    ensures |r| <= |s| && r == s[|s| - |r|..]
    ensures WhitespaceOutside(s, |s| - |r|, |s|)
    ensures r == [] || !IsWhitespace(r[0])
  {
    if |s| > 0 && IsWhitespace(s[0]) then TrimStart(s[1..]) else s
  }

  /** Trailing whitespace removed. */
  function TrimEnd(s: string): (r: string)
    ensures |r| <= |s| && r == s[..|r|]
    ensures WhitespaceOutside(s, 0, |r|)
    ensures r == [] || !IsWhitespace(r[|r| - 1])
  {
    if |s| > 0 && IsWhitespace(s[|s| - 1]) then TrimEnd(s[..|s| - 1]) else s
  }

  /** `str.strip()`: the result is a slice of the input with only whitespace
      cut from either side, and it has no whitespace at either end. */
  function Strip(s: string): (r: string)
    ensures IsStripped(r)
    ensures exists i, j :: 0 <= i <= j <= |s| && r == s[i..j] && WhitespaceOutside(s, i, j)
  {
    var t := TrimStart(s);
    var r := TrimEnd(t);
    var i := |s| - |t|;
    assert r == s[i..i + |r|];
    r
  }

  /** `line.startswith(";")`. */
  predicate IsComment(line: string) {
    |line| > 0 && line[0] == ';'
  }

  /** The elements of `xs` that satisfy `p`, in their original order. */
  function Filter<T>(p: T -> bool, xs: seq<T>): (r: seq<T>)
    ensures |r| <= |xs|
    ensures forall i :: 0 <= i < |r| ==> p(r[i]) && r[i] in xs
    ensures forall x :: x in xs && p(x) ==> x in r
  {
    if xs == [] then []
    else (if p(xs[0]) then [xs[0]] else []) + Filter(p, xs[1..])
  }

  /** `[line.strip() for line in lines]`. */
  function StripAll(lines: seq<string>): (r: seq<string>)
    ensures |r| == |lines|
    ensures forall i :: 0 <= i < |r| ==> r[i] == Strip(lines[i])
  {
    seq(|lines|, i requires 0 <= i < |lines| => Strip(lines[i]))
  }

  /** `Exporter.compress`; `compress` is the value of the `--compress` flag. */
  function Compress(compress: bool, lines: seq<string>): (r: seq<string>)
    ensures !compress ==> r == lines
    ensures compress ==> forall k :: 0 <= k < |r| ==>
      && r[k] != []
      && !IsComment(r[k])
      && exists i :: 0 <= i < |lines| && r[k] == Strip(lines[i])
  {
    if !compress then lines
    else
      var stripped := StripAll(lines);
      var withoutComments := Filter((line: string) => !IsComment(line), stripped);
      Filter((line: string) => |line| > 0, withoutComments)
  }

  /** Whether compression keeps a line that strips to `t`. */
  predicate Kept(t: string) {
    t != [] && !IsComment(t)
  }

  /** Compression of a single line: kept, in stripped form, exactly when its
      stripped form is neither empty nor a comment. */
  lemma CompressOne(line: string)
    ensures Compress(true, [line]) == if Kept(Strip(line)) then [Strip(line)] else []
  {
  }

  lemma {:induction false} FilterAppend<T>(p: T -> bool, a: seq<T>, b: seq<T>)
    ensures Filter(p, a + b) == Filter(p, a) + Filter(p, b)
  {
    if a != [] {
      assert (a + b)[1..] == a[1..] + b;
      FilterAppend(p, a[1..], b);
    } else {
      assert a + b == b;
    }
  }

  /** Compression works line by line and keeps the original relative order:
      compressing a concatenation is concatenating the compressed parts. */
  lemma CompressAppend(a: seq<string>, b: seq<string>)
    ensures Compress(true, a + b) == Compress(true, a) + Compress(true, b)
  {
    assert StripAll(a + b) == StripAll(a) + StripAll(b);
    var notComment := (line: string) => !IsComment(line);
    var nonEmpty := (line: string) => |line| > 0;
    FilterAppend(notComment, StripAll(a), StripAll(b));
    FilterAppend(nonEmpty, Filter(notComment, StripAll(a)), Filter(notComment, StripAll(b)));
  }

  /** A stripped string strips to itself. */
  lemma StripStripped(s: string)
    requires IsStripped(s)
    ensures Strip(s) == s
  {
  }

  lemma {:induction false} FilterAll<T>(p: T -> bool, xs: seq<T>)
    requires forall i :: 0 <= i < |xs| ==> p(xs[i])
    ensures Filter(p, xs) == xs
  {
    if xs != [] {
      FilterAll(p, xs[1..]);
    }
  }

  /** Compressing compressed lines changes nothing. */
  lemma CompressIdempotent(lines: seq<string>)
    ensures Compress(true, Compress(true, lines)) == Compress(true, lines)
  {
    var r := Compress(true, lines);
    forall k | 0 <= k < |r|
      ensures Strip(r[k]) == r[k]
    {
      var i :| 0 <= i < |lines| && r[k] == Strip(lines[i]);
      StripStripped(r[k]);
    }
    assert StripAll(r) == r;
    FilterAll((line: string) => !IsComment(line), r);
    FilterAll((line: string) => |line| > 0, r);
  }
}
