/** The log buffer of a core process: a fixed array that is overwritten in a circle. */
module RingBuffer {
  import opened Text

  /** Go's % truncates towards zero. */
  function GoMod(x: int, n: nat): (r: int)
    requires n > 0
  {
    if x >= 0 then x % n else -((-x) % n)
  }

  /** The lines that a write contributes: the non-empty parts between newlines. */
  function LinesOf(parts: seq<string>): seq<string> {
    if parts == [] then []
    else LinesOf(parts[..|parts| - 1]) + (if parts[|parts| - 1] == "" then [] else [parts[|parts| - 1]])
  }

  /** The end of a sequence. */
  function Last<T>(s: seq<T>, n: nat): seq<T> {
    if |s| <= n then s else s[|s| - n..]
  }

  /** x mod n for the two ranges that occur. */
  lemma ModOnce(x: nat, n: nat)
    requires n > 0 && x < 2 * n
    ensures x % n == if x < n then x else x - n
  {
  }

  /** A full circle from position pos on. */
  function Circle<T>(s: seq<T>, pos: nat): (r: seq<T>)
    requires pos <= |s|
    ensures |r| == |s|
  {
    s[pos..] + s[..pos]
  }

  lemma CirclePut<T>(s: seq<T>, pos: nat, x: T)
    requires pos < |s|
    ensures Circle(s[pos := x], (pos + 1) % |s|) == Circle(s, pos)[1..] + [x]
  {
    ModOnce(pos + 1, |s|);
  }

  lemma CircleAt<T>(s: seq<T>, pos: nat, j: nat)
    requires pos < |s| && j < |s|
    ensures 0 <= GoMod(pos + j, |s|) < |s| && Circle(s, pos)[j] == s[GoMod(pos + j, |s|)]
  {
    ModOnce(pos + j, |s|);
  }

  lemma LastPut<T>(s: seq<T>, n: nat, x: T)
    requires n > 0 && |s| >= n
    ensures Last(s + [x], n) == Last(s, n)[1..] + [x]
  {
  }

  /** The circle closes when the last slot is filled for the first time. */
  lemma FirstCircle<T>(s: seq<T>, pos: nat, x: T)
    requires pos + 1 == |s|
    ensures Circle(s[pos := x], 0) == s[..pos] + [x]
  {
  }

  /** Where reading the last m entries of the circle starts. */
  lemma StartOf(pos: nat, m: nat, size: nat, i: nat)
    requires pos < size && m <= size && i < m
    ensures var start := GoMod(pos - m, size);
            var first := if start < 0 then start + size else start;
            0 <= first < size && GoMod(first + i, size) == GoMod(pos + (size - m + i), size)
  {
    ModOnce(if pos >= m then pos - m else m - pos, size);
    var start := GoMod(pos - m, size);
    ModOnce((if start < 0 then start + size else start) + i, size);
    ModOnce(pos + (size - m + i), size);
  }

  class Buffer {
    const lines: array<string>
    const size: nat
    var pos: nat
    var full: bool
    /** Every non-empty line ever written. */
    ghost var written: seq<string>

    /** The buffer read in a circle from pos on is the end of what was written. */
    ghost predicate Valid()
      reads this, lines
    {
      && size > 0 && lines.Length == size && pos < size
      && if full then |written| >= size && Last(written, size) == Circle(lines[..], pos)
         else written == lines[..pos]
    }

    constructor (size: nat)
      requires size > 0
      ensures Valid() && this.size == size && written == [] && fresh(lines)
    {
      lines := new string[size](_ => "");
      this.size := size;
      pos, full, written := 0, false, [];
    }

    method Put(line: string)
      requires Valid()
      modifies this`pos, this`full, this`written, lines
      ensures Valid() && written == old(written) + [line]
    {
      ghost var before := lines[..];
      CirclePut(before, pos, line);
      ModOnce(pos + 1, size);
      hide Circle;
      if full {
        LastPut(written, size, line);
      } else if pos + 1 == size {
        FirstCircle(before, pos, line);
      }
      lines[pos] := line;
      assert lines[..] == before[pos := line];
      assert !full ==> lines[..pos + 1] == written + [line];
      pos := (pos + 1) % size;
      if pos == 0 {
        full := true;
      }
      written := written + [line];
    }

    method Write(p: string)
      requires Valid()
      modifies this`pos, this`full, this`written, lines
      ensures Valid() && written == old(written) + LinesOf(Split(p, '\n'))
    {
      var parts := Split(p, '\n');
      assert LinesOf(parts[..0]) == [];
      hide *;
      for i := 0 to |parts|
        invariant Valid() && written == old(written) + LinesOf(parts[..i])
      {
        LinesOfOne(parts[..i], parts[i]);
        assert parts[..i + 1] == parts[..i] + [parts[i]];
        if parts[i] != "" {
          Put(parts[i]);
        }
      }
      assert parts[..|parts|] == parts;
    }

    /** The last min(n, size) lines ever written, oldest first. */
    method Lines(n: nat) returns (result: seq<string>)
      requires Valid()
      ensures result == Last(written, if n < size then n else size)
    {
      if !full {
        var start := pos - n;
        if start < 0 {
          start := 0;
        }
        return lines[start..pos];
      }
      result := LinesOfCircle(if n > size then size else n);
    }

    method LinesOfCircle(n: nat) returns (result: seq<string>)
      requires lines.Length == size && pos < size && n <= size
      ensures result == Last(Circle(lines[..], pos), n)
    {
      hide GoMod, Circle;
      ghost var s := lines[..];
      result := [];
      var start := GoMod(pos - n, size);
      if start < 0 {
        start := start + size;
      }
      for i := 0 to n
        invariant |result| == i
        invariant forall k :: 0 <= k < i ==> result[k] == Circle(s, pos)[size - n + k]
      {
        StartOf(pos, n, size, i);
        CircleAt(s, pos, size - n + i);
        result := result + [lines[GoMod(start + i, size)]];
      }
    }
  }

  /** What the buffer answers after any writes: only the lines count, not how they were grouped into writes. */
  function AllLines(writes: seq<string>): seq<string> {
    if writes == [] then [] else AllLines(writes[..|writes| - 1]) + LinesOf(Split(writes[|writes| - 1], '\n'))
  }

  /** The buffer over any sequence of writes. */
  method Session(size: nat, writes: seq<string>, n: nat) returns (result: seq<string>)
    requires size > 0
    ensures result == Last(AllLines(writes), if n < size then n else size)
  {
    var buffer := new Buffer(size);
    for i := 0 to |writes|
      invariant buffer.Valid() && buffer.size == size && fresh(buffer) && fresh(buffer.lines)
      invariant buffer.written == AllLines(writes[..i])
    {
      assert writes[..i + 1][..i] == writes[..i];
      buffer.Write(writes[i]);
    }
    assert writes[..|writes|] == writes;
    result := buffer.Lines(n);
  }

  // ---- Which lines a write contributes ----

  /** Exactly the parts that are not empty, in their order. */
  lemma {:induction false} LinesConcat(a: seq<string>, b: seq<string>)
    ensures LinesOf(a + b) == LinesOf(a) + LinesOf(b)
  {
    if b == [] {
      assert a + b == a;
    } else {
      LinesConcat(a, b[..|b| - 1]);
      assert (a + b)[..|a + b| - 1] == a + b[..|b| - 1];
    }
  }

  lemma {:induction false} LinesAreParts(parts: seq<string>)
    ensures forall line :: line in LinesOf(parts) <==> line in parts && line != ""
  {
    if parts != [] {
      var n := |parts| - 1;
      LinesAreParts(parts[..n]);
      assert parts == parts[..n] + [parts[n]];
    }
  }

  /** A line that is written ends up last, unless it is empty. */
  lemma LinesOfOne(parts: seq<string>, line: string)
    ensures LinesOf(parts + [line]) == if |line| > 0 then LinesOf(parts) + [line] else LinesOf(parts)
  {
  }
}
