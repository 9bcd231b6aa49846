/**
 * The behaviour of the standard string operations the renderer relies on: UTF-8 lengths,
 * `char_indices`, byte-offset slicing, `str::repeat`, `str::lines` and the line terminators
 * written by `writeln!`. Strings are sequences of Unicode scalar values.
 */
module Text {

  /** `char::len_utf8`: bytes in the UTF-8 encoding of one scalar value. */
  function Utf8Len(c: char): (n: nat)
    ensures 1 <= n <= 4
  {
    if c as int < 0x80 then 1
    else if c as int < 0x800 then 2
    else if c as int < 0x1_0000 then 3
    else 4
  }

  /** Bytes in the UTF-8 encoding of a whole string. */
  function Utf8Length(s: string): nat {
    if s == [] then 0 else Utf8Len(s[0]) + Utf8Length(s[1..])
  }

  lemma {:induction false} Utf8LengthAppend(s: string, t: string)
    ensures Utf8Length(s + t) == Utf8Length(s) + Utf8Length(t)
  {
    if s == [] {
      assert s + t == t;
    } else {
      assert (s + t)[1..] == s[1..] + t;
      Utf8LengthAppend(s[1..], t);
    }
  }

  /** The first `m` chars take the bytes of the first `m - 1` and those of char `m - 1`. */
  lemma Utf8LengthSnoc(s: string, m: nat)
    requires 0 < m <= |s|
    ensures Utf8Length(s[..m]) == Utf8Length(s[..m - 1]) + Utf8Len(s[m - 1])
  {
    Utf8LengthAppend(s[..m - 1], [s[m - 1]]);
    assert s[..m - 1] + [s[m - 1]] == s[..m];
    assert Utf8Length([s[m - 1]]) == Utf8Len(s[m - 1]) by {
      assert [s[m - 1]][1..] == [];
    }
  }

  /**
   * `str::char_indices`: each char paired with the byte offset at which it starts; the first
   * starts at 0 and each next one just past the bytes of the one before.
   */
  function CharIndices(s: string): (r: seq<(nat, char)>)
    ensures |r| == |s|
    ensures forall j :: 0 <= j < |s| ==> r[j].1 == s[j]
    ensures |s| > 0 ==> r[0].0 == 0
    ensures forall j :: 0 < j < |s| ==> r[j].0 == r[j - 1].0 + Utf8Len(s[j - 1])
  {
    var r := seq(|s|, j requires 0 <= j < |s| => (Utf8Length(s[..j]), s[j]));
    assert forall j :: 0 < j < |s| ==> r[j].0 == r[j - 1].0 + Utf8Len(s[j - 1]) by {
      forall j | 0 < j < |s|
        ensures r[j].0 == r[j - 1].0 + Utf8Len(s[j - 1])
      {
        Utf8LengthSnoc(s, j);
      }
    }
    r
  }

  /**
   * The slice `&s[..b]`: the longest run of leading chars whose encoding fits in `b` bytes.
   * The Rust slice panics when `b` is not a char boundary; ByteSliceAtBoundary shows the
   * renderer only slices at boundaries.
   */
  function ByteSlice(s: string, b: nat): (r: string)
    ensures |r| <= |s| && r == s[..|r|]
    ensures Utf8Length(r) <= b
  {
    if s == [] || Utf8Len(s[0]) > b then []
    else [s[0]] + ByteSlice(s[1..], b - Utf8Len(s[0]))
  }

  /** Slicing at the byte length of the first `k` chars gives exactly those `k` chars. */
  lemma {:induction false} ByteSliceAtBoundary(s: string, k: nat)
    requires k <= |s|
    ensures ByteSlice(s, Utf8Length(s[..k])) == s[..k]
  {
    if k > 0 {
      assert s[..k][1..] == s[1..][..k - 1];
      ByteSliceAtBoundary(s[1..], k - 1);
      assert [s[0]] + s[1..][..k - 1] == s[..k];
    }
  }

  /** `n` copies of the char `c`, as `iter::repeat(c).take(n)` collects them. */
  function Replicate(c: char, n: nat): (r: string)
    ensures |r| == n
    ensures forall i :: 0 <= i < n ==> r[i] == c
  {
    seq(n, _ => c)
  }

  /** `str::repeat`: `n` copies of `s` one after another. */
  function Repeat(s: string, n: nat): (r: string)
    ensures |r| == |s| * n
  {
    if n == 0 then [] else s + Repeat(s, n - 1)
  }

  /** Every char of a repetition is the char of `s` at the same position modulo `|s|`. */
  lemma {:induction false} RepeatAt(s: string, n: nat, i: nat)
    requires i < |s| * n
    ensures |s| > 0 && Repeat(s, n)[i] == s[i % |s|]
  {
    var len := |s|;
    assert n != 0 && len != 0;
    assert Repeat(s, n) == s + Repeat(s, n - 1);
    if i < len {
      assert i % len == i;
    } else {
      assert len * n == len + len * (n - 1);
      RepeatAt(s, n - 1, i - len);
      ModShift(i, len);
    }
  }

  lemma ModShift(i: nat, len: nat)
    requires 0 < len <= i
    ensures (i - len) % len == i % len
  {
    var q, r := i / len, i % len;
    assert i == q * len + r;
    assert i - len == (q - 1) * len + r;
    ModUnique(i - len, q - 1, len, r);
  }

  lemma ModUnique(x: int, q: int, len: int, r: int)
    requires 0 <= r < len && x == q * len + r
    ensures x % len == r
  {
    var d, m := x / len, x % len;
    assert x == d * len + m;
    assert (q - d) * len == m - r;
    if q > d {
      MulAtLeast(q - d, len);
    } else if q < d {
      MulAtLeast(d - q, len);
    }
  }

  lemma {:induction false} MulAtLeast(k: int, len: nat)
    requires k >= 1
    ensures k * len >= len
    decreases k
  {
    if k > 1 {
      MulAtLeast(k - 1, len);
      assert k * len == (k - 1) * len + len;
    }
  }

  /** Repeating a one-char string is replicating that char. */
  lemma RepeatSingleton(c: char, n: nat)
    ensures Repeat([c], n) == Replicate(c, n)
  {
    forall i | 0 <= i < n
      ensures Repeat([c], n)[i] == c
    {
      RepeatAt([c], n, i);
    }
  }

  /** Index of the first line feed in `s`, or `|s|` when there is none. */
  function NewlineIndex(s: string): (k: nat)
    ensures k <= |s|
    ensures k < |s| ==> s[k] == '\n'
    ensures forall i :: 0 <= i < k ==> s[i] != '\n'
  {
    if s == [] || s[0] == '\n' then 0 else 1 + NewlineIndex(s[1..])
  }

  /** Drops one carriage return that ended a line before its line feed. */
  function StripCr(piece: string): (r: string)
    ensures |r| <= |piece| && r == piece[..|r|] && |r| + 1 >= |piece|
    ensures |r| < |piece| <==> |piece| > 0 && piece[|piece| - 1] == '\r'
  {
    if |piece| > 0 && piece[|piece| - 1] == '\r' then piece[..|piece| - 1] else piece
  }

  /**
   * `str::lines`: the pieces between line feeds, each without its terminator and without
   * a carriage return just before it; text after the last line feed forms a final line
   * only when it is non-empty.
   */
  function Lines(s: string): (r: seq<string>)
    ensures r == [] <==> s == []
    decreases |s|
  {
    if s == [] then []
    else
      var k := NewlineIndex(s);
      if k == |s| then [s] else [StripCr(s[..k])] + Lines(s[k + 1..])
  }

  /** Every line followed by a line feed, as successive `writeln!` calls emit them. */
  function Join(lines: seq<string>): (r: string)
    ensures lines == [] <==> r == []
    ensures lines != [] ==> r[|r| - 1] == '\n'
  {
    if lines == [] then [] else Join(lines[..|lines| - 1]) + lines[|lines| - 1] + "\n"
  }

  /** A line that `str::lines` gives back unchanged once it is terminated. */
  predicate Clean(line: string) {
    (forall i :: 0 <= i < |line| ==> line[i] != '\n') && (|line| == 0 || line[|line| - 1] != '\r')
  }

  lemma {:induction false} JoinAppend(a: seq<string>, b: seq<string>)
    ensures Join(a + b) == Join(a) + Join(b)
    decreases |b|
  {
    if b == [] {
      assert a + b == a;
    } else {
      var b', last := b[..|b| - 1], b[|b| - 1];
      assert (a + b)[..|a + b| - 1] == a + b';
      assert (a + b)[|a + b| - 1] == last;
      JoinAppend(a, b');
      assert Join(a + b) == Join(a + b') + last + "\n";
      assert Join(b) == Join(b') + last + "\n";
    }
  }

  /** Joined lines have exactly one line feed per line. */
  lemma {:induction false} JoinLength(lines: seq<string>)
    ensures |Join(lines)| == |lines| + SumLengths(lines)
    decreases |lines|
  {
    if lines != [] {
      JoinLength(lines[..|lines| - 1]);
      SumLengthsSnoc(lines[..|lines| - 1], lines[|lines| - 1]);
      assert lines[..|lines| - 1] + [lines[|lines| - 1]] == lines;
    }
  }

  /** Total number of chars in a sequence of lines. */
  function SumLengths(lines: seq<string>): nat {
    if lines == [] then 0 else |lines[0]| + SumLengths(lines[1..])
  }

  lemma {:induction false} SumLengthsSnoc(lines: seq<string>, l: string)
    ensures SumLengths(lines + [l]) == SumLengths(lines) + |l|
  {
    if lines != [] {
      assert (lines + [l])[1..] == lines[1..] + [l];
      SumLengthsSnoc(lines[1..], l);
    }
  }

  /** Joining one more line of a sequence appends that line and its terminator. */
  lemma JoinPrefix(lines: seq<string>, k: nat)
    requires k < |lines|
    ensures Join(lines[..k + 1]) == Join(lines[..k]) + lines[k] + "\n"
  {
    assert lines[..k + 1][..k] == lines[..k];
  }

  /** Splitting joined clean lines gives back exactly those lines. */
  lemma {:induction false} LinesOfJoin(lines: seq<string>)
    requires forall i :: 0 <= i < |lines| ==> Clean(lines[i])
    ensures Lines(Join(lines)) == lines
    decreases |lines|
  {
    if lines != [] {
      var l, rest := lines[0], lines[1..];
      JoinCons(l, rest);
      assert lines == [l] + rest;
      assert Clean(l);
      LinesCons(l, Join(rest));
      LinesOfJoin(rest);
    }
  }

  lemma JoinCons(l: string, rest: seq<string>)
    ensures Join([l] + rest) == l + "\n" + Join(rest)
  {
    JoinAppend([l], rest);
    assert [l][..0] == [];
  }

  /** A clean line followed by a line feed is split off as one line. */
  lemma LinesCons(l: string, rest: string)
    requires Clean(l)
    ensures Lines(l + "\n" + rest) == [l] + Lines(rest)
  {
    var s := l + "\n" + rest;
    assert s == l + ("\n" + rest);
    NewlineIndexAt(l, "\n" + rest);
    assert s[..|l|] == l;
    assert s[|l| + 1..] == rest;
  }

  lemma {:induction false} NewlineIndexAt(l: string, t: string)
    requires forall i :: 0 <= i < |l| ==> l[i] != '\n'
    requires |t| > 0 && t[0] == '\n'
    ensures NewlineIndex(l + t) == |l|
  {
    if l == [] {
      assert l + t == t;
    } else {
      assert (l + t)[0] == l[0];
      assert (l + t)[1..] == l[1..] + t;
      NewlineIndexAt(l[1..], t);
    }
  }

  /** Pieces of text written one after another. */
  function Concat(parts: seq<string>): string {
    if parts == [] then [] else Concat(parts[..|parts| - 1]) + parts[|parts| - 1]
  }

  /** Writing one more piece appends it. */
  lemma ConcatPrefix(parts: seq<string>, k: nat)
    requires k < |parts|
    ensures Concat(parts[..k + 1]) == Concat(parts[..k]) + parts[k]
  {
    assert parts[..k + 1][..k] == parts[..k];
  }

  /** Groups of lines, one group after another. */
  function Flatten(groups: seq<seq<string>>): seq<string> {
    if groups == [] then [] else Flatten(groups[..|groups| - 1]) + groups[|groups| - 1]
  }

  function Sum(counts: seq<nat>): nat {
    if counts == [] then 0 else Sum(counts[..|counts| - 1]) + counts[|counts| - 1]
  }

  /** Writing each group's joined lines in turn writes all the lines joined. */
  lemma {:induction false} ConcatOfJoins(parts: seq<string>, groups: seq<seq<string>>)
    requires |parts| == |groups|
    requires forall i :: 0 <= i < |parts| ==> parts[i] == Join(groups[i])
    ensures Concat(parts) == Join(Flatten(groups))
    decreases |parts|
  {
    if parts != [] {
      var n := |parts|;
      var front, last := parts[..n - 1], parts[n - 1];
      var frontGroups, lastGroup := groups[..n - 1], groups[n - 1];
      forall i | 0 <= i < |front|
        ensures front[i] == Join(frontGroups[i])
      {
        assert front[i] == parts[i] && frontGroups[i] == groups[i];
      }
      ConcatOfJoins(front, frontGroups);
      JoinStep(Concat(front), Flatten(frontGroups), last, lastGroup);
    }
  }

  /** Output written for some lines followed by output written for more lines. */
  lemma JoinStep(out: string, before: seq<string>, more: string, lines: seq<string>)
    requires out == Join(before) && more == Join(lines)
    ensures out + more == Join(before + lines)
  {
    JoinAppend(before, lines);
  }

  /** The flattened groups have as many lines as the groups' sizes added up. */
  lemma {:induction false} FlattenLength(groups: seq<seq<string>>, counts: seq<nat>)
    requires |groups| == |counts|
    requires forall i :: 0 <= i < |groups| ==> |groups[i]| == counts[i]
    ensures |Flatten(groups)| == Sum(counts)
    decreases |groups|
  {
    if groups != [] {
      var n := |groups|;
      FlattenLength(groups[..n - 1], counts[..n - 1]);
    }
  }
}
