/**
 A journal file as bytes: whole lines and a torn tail (cli/cmd/operator_import_progress.go, lines 67-89).
 */
module Lines {
  import opened EventStream

  type Bytes = seq<bv8>

  const NEWLINE: bv8 := 10

  /** The reader's buffer; a longer line cannot be read back. */
  const MAX_LINE := 65536

  datatype Entry = Entry(key: string, value: string)

  /** The JSON encoding of one entry per line, and what the reader makes of a line. */
  datatype Codec = Codec(encode: Entry -> Bytes, decode: Bytes -> Option<Entry>)

  predicate IsLine(line: Bytes) {
    && |line| > 0 && line[|line| - 1] == NEWLINE
    && forall i :: 0 <= i < |line| - 1 ==> line[i] != NEWLINE
  }

  predicate NoNewline(bytes: Bytes) {
    forall i :: 0 <= i < |bytes| ==> bytes[i] != NEWLINE
  }

  /** JSON never puts a newline inside a value, and reading undoes writing. */
  ghost predicate Faithful(codec: Codec) {
    forall e :: IsLine(codec.encode(e)) && codec.decode(codec.encode(e)) == Some(e)
  }

  ghost predicate AllLines(lines: seq<Bytes>) {
    forall i :: 0 <= i < |lines| ==> IsLine(lines[i])
  }

  function Flat(lines: seq<Bytes>): Bytes {
    if lines == [] then [] else Flat(lines[..|lines| - 1]) + lines[|lines| - 1]
  }

  /** `bytes` consists of these whole lines and this rest of a line. */
  ghost predicate SplitOf(bytes: Bytes, lines: seq<Bytes>, tail: Bytes) {
    AllLines(lines) && NoNewline(tail) && bytes == Flat(lines) + tail
  }

  /** The reader gets through: every line fits its buffer and decodes, and so does the tail. */
  ghost predicate Readable(codec: Codec, lines: seq<Bytes>, tail: Bytes) {
    && |tail| < MAX_LINE
    && forall i :: 0 <= i < |lines| ==> |lines[i]| <= MAX_LINE && codec.decode(lines[i]).Some?
  }

  /** Last write wins. */
  function ValuesOf(codec: Codec, lines: seq<Bytes>): map<string, string> {
    if lines == [] then map[]
    else
      var before := ValuesOf(codec, lines[..|lines| - 1]);
      match codec.decode(lines[|lines| - 1])
      case None => before
      case Some(e) => before[e.key := e.value]
  }

  /** A Go map lookup: a missing key reads as the empty string. */
  function Get(values: map<string, string>, key: string): string {
    if key in values then values[key] else ""
  }

  // ------------------------------------------------------------------ there is one way to split

  lemma {:induction false} FlatSplits(lines: seq<Bytes>, n: nat)
    requires n <= |lines|
    ensures Flat(lines) == Flat(lines[..n]) + Flat(lines[n..])
  {
    if n < |lines| {
      var k := |lines| - 1;
      FlatSplits(lines[..k], n);
      assert lines[..k][..n] == lines[..n];
      assert lines[..k][n..] == lines[n..][..k - n];
    } else {
      assert lines[..n] == lines;
    }
  }

  lemma FlatOfOneMore(lines: seq<Bytes>, line: Bytes)
    ensures Flat(lines + [line]) == Flat(lines) + line
  {
    assert (lines + [line])[..|lines|] == lines;
  }

  lemma ValuesOfOneMore(codec: Codec, lines: seq<Bytes>, line: Bytes)
    ensures ValuesOf(codec, lines + [line]) ==
            match codec.decode(line)
            case None => ValuesOf(codec, lines)
            case Some(e) => ValuesOf(codec, lines)[e.key := e.value]
  {
    assert (lines + [line])[..|lines|] == lines;
  }

  /** No key was ever written with two values. */
  ghost predicate OneValueEach(codec: Codec, lines: seq<Bytes>) {
    forall i, j, key ::
      0 <= i < |lines| && 0 <= j < |lines| && Writes(codec, lines[i], key) && Writes(codec, lines[j], key) ==>
        codec.decode(lines[i]) == codec.decode(lines[j])
  }

  /** A key reads as what some line gives it. */
  lemma {:induction false} ReadIsWritten(codec: Codec, lines: seq<Bytes>, key: string)
    ensures key in ValuesOf(codec, lines) <==> exists i :: 0 <= i < |lines| && Writes(codec, lines[i], key)
    ensures key in ValuesOf(codec, lines) ==>
              exists i :: 0 <= i < |lines| && codec.decode(lines[i]) == Some(Entry(key, ValuesOf(codec, lines)[key]))
  {
    if lines != [] {
      ReadIsWritten(codec, lines[..|lines| - 1], key);
      assert forall i :: 0 <= i < |lines| - 1 ==> lines[..|lines| - 1][i] == lines[i];
      var last := codec.decode(lines[|lines| - 1]);
      if last.Some? && last.value.key == key {
        assert Writes(codec, lines[|lines| - 1], key);
      }
    }
  }

  predicate Writes(codec: Codec, line: Bytes, key: string) {
    codec.decode(line).Some? && codec.decode(line).value.key == key
  }

  /** What a crash leaves of such a journal is the journal with some entries lost, and none changed. */
  lemma PrefixOnlyLoses(codec: Codec, lines: seq<Bytes>, m: nat, key: string)
    requires OneValueEach(codec, lines) && m <= |lines|
    requires key in ValuesOf(codec, lines[..m])
    ensures key in ValuesOf(codec, lines) && ValuesOf(codec, lines[..m])[key] == ValuesOf(codec, lines)[key]
  {
    ReadIsWritten(codec, lines[..m], key);
    ReadIsWritten(codec, lines, key);
    var i :| 0 <= i < m && codec.decode(lines[..m][i]) == Some(Entry(key, ValuesOf(codec, lines[..m])[key]));
    assert Writes(codec, lines[i], key);
  }

  lemma FirstOf(bytes: Bytes, lines: seq<Bytes>, tail: Bytes)
    requires SplitOf(bytes, lines, tail) && lines != []
    ensures lines[0] <= bytes && SplitOf(bytes[|lines[0]|..], lines[1..], tail)
  {
    FlatSplits(lines, 1);
    assert lines[..1] == [lines[0]] && Flat([lines[0]]) == lines[0] by {
      assert Flat([lines[0]][..0]) == [];
    }
    assert bytes == lines[0] + (Flat(lines[1..]) + tail);
  }

  /** Only one line can stand at the front of given bytes. */
  lemma OneLineInFront(bytes: Bytes, a: Bytes, b: Bytes)
    requires IsLine(a) && IsLine(b) && a <= bytes && b <= bytes
    ensures a == b
  {
    assert bytes[|a| - 1] == NEWLINE && bytes[|b| - 1] == NEWLINE;
    assert |a| == |b|;
  }

  lemma NoLineInFront(bytes: Bytes, a: Bytes)
    requires NoNewline(bytes) && a <= bytes
    ensures !IsLine(a)
  {
    assert |a| > 0 ==> bytes[|a| - 1] == a[|a| - 1];
  }

  /** The first line of a split ends at the first newline. */
  lemma FirstLineIsFixed(bytes: Bytes, lines: seq<Bytes>, tail: Bytes, line: Bytes)
    requires SplitOf(bytes, lines, tail) && IsLine(line) && line <= bytes
    ensures lines != [] && lines[0] == line && SplitOf(bytes[|line|..], lines[1..], tail)
  {
    if lines == [] {
      NoLineInFront(tail, line);
    } else {
      FirstOf(bytes, lines, tail);
      OneLineInFront(bytes, lines[0], line);
    }
  }

  lemma {:induction false} SplitIsUnique(bytes: Bytes, lines: seq<Bytes>, tail: Bytes, lines': seq<Bytes>, tail': Bytes)
    requires SplitOf(bytes, lines, tail) && SplitOf(bytes, lines', tail')
    ensures lines == lines' && tail == tail'
    decreases |lines|
  {
    if lines != [] {
      FirstOf(bytes, lines, tail);
      FirstLineIsFixed(bytes, lines', tail', lines[0]);
      SplitIsUnique(bytes[|lines[0]|..], lines[1..], tail, lines'[1..], tail');
      assert lines == [lines[0]] + lines[1..] && lines' == [lines'[0]] + lines'[1..];
    } else if lines' != [] {
      assert bytes == tail;
      FirstOf(bytes, lines', tail');
      NoLineInFront(tail, lines'[0]);
    } else {
      assert bytes == tail && bytes == tail';
    }
  }

  /** Cutting a file of whole lines anywhere leaves whole lines and the beginning of one. */
  lemma {:induction false} CutSplits(lines: seq<Bytes>, tail: Bytes, n: nat) returns (m: nat, torn: Bytes)
    requires AllLines(lines) && NoNewline(tail) && n <= |Flat(lines) + tail|
    ensures m <= |lines| && SplitOf((Flat(lines) + tail)[..n], lines[..m], torn)
    ensures |Flat(lines[..m])| <= n
    ensures |torn| <= |tail| || (m < |lines| && |torn| < |lines[m]|)
    ensures forall k :: 0 <= k <= |lines| && |Flat(lines[..k])| <= n ==> k <= m
    decreases |lines|
  {
    var bytes := Flat(lines) + tail;
    if n >= |Flat(lines)| {
      m, torn := |lines|, tail[..n - |Flat(lines)|];
      assert lines[..m] == lines;
      assert bytes[..n] == Flat(lines) + torn;
    } else {
      var k := |lines| - 1;
      var last := lines[k];
      if n >= |Flat(lines[..k])| {
        m, torn := k, last[..n - |Flat(lines[..k])|];
        assert bytes[..n] == Flat(lines[..m]) + torn;
        assert lines[..|lines|] == lines;
      } else {
        m, torn := CutSplits(lines[..k], [], n);
        assert lines[..k][..m] == lines[..m];
        assert (Flat(lines[..k]) + [])[..n] == bytes[..n];
        forall j | 0 <= j <= |lines| && |Flat(lines[..j])| <= n ensures j <= m {
          assert j <= k ==> lines[..k][..j] == lines[..j];
        }
      }
    }
  }

  // ------------------------------------------------------------------ reading the file

  datatype Slice = Whole(line: Bytes) | Partial(rest: Bytes) | BufferFull

  /** ReadSlice: the next line, the rest of the file, or a buffer that is full before either ends. */
  method ReadSlice(file: Bytes, offset: nat) returns (slice: Slice)
    requires offset <= |file|
    ensures slice.Whole? ==> IsLine(slice.line) && |slice.line| <= MAX_LINE && slice.line <= file[offset..]
    ensures slice.Partial? ==> NoNewline(slice.rest) && |slice.rest| < MAX_LINE && slice.rest == file[offset..]
    ensures slice.BufferFull? ==> offset + MAX_LINE <= |file| && NoNewline(file[offset..offset + MAX_LINE])
  {
    var end := offset;
    while end < |file| && end < offset + MAX_LINE && file[end] != NEWLINE
      invariant offset <= end <= |file| && end <= offset + MAX_LINE
      invariant forall i :: offset <= i < end ==> file[i] != NEWLINE
    {
      end := end + 1;
    }
    if end == offset + MAX_LINE {
      return BufferFull;
    }
    if end == |file| {
      return Partial(file[offset..]);
    }
    return Whole(file[offset..end + 1]);
  }

  /** The loop of openImportProgress: the values of all whole lines, and where the last one ends. */
  method Load(codec: Codec, file: Bytes)
    returns (ok: bool, values: map<string, string>, offset: nat, ghost lines: seq<Bytes>)
    ensures ok ==>
              && offset <= |file| && SplitOf(file, lines, file[offset..]) && Readable(codec, lines, file[offset..])
              && values == ValuesOf(codec, lines) && offset == |Flat(lines)|
    ensures !ok ==> forall ls, tail :: SplitOf(file, ls, tail) ==> !Readable(codec, ls, tail)
  {
    values, offset, lines := map[], 0, [];
    while true
      invariant offset <= |file| && AllLines(lines) && file[..offset] == Flat(lines) && offset == |Flat(lines)|
      invariant values == ValuesOf(codec, lines)
      invariant Readable(codec, lines, [])
      decreases |file| - offset
    {
      var slice := ReadSlice(file, offset);
      match slice
      case Partial(rest) =>
        assert file == Flat(lines) + rest;
        ok := true;
        return;
      case BufferFull =>
        Overfull(codec, file, lines);
        ok := false;
        return;
      case Whole(line) =>
        var entry := codec.decode(line);
        if entry.None? {
          Undecodable(codec, file, lines, line);
          ok := false;
          return;
        }
        FlatOfOneMore(lines, line);
        ValuesOfOneMore(codec, lines, line);
        assert file[..offset + |line|] == file[..offset] + file[offset..][..|line|];
        values := values[entry.value.key := entry.value.value];
        offset := offset + |line|;
        lines := lines + [line];
    }
  }

  lemma FlatIsFront(file: Bytes, front: seq<Bytes>)
    requires front != [] && Flat(front) <= file
    ensures var k := |front| - 1; var at := |Flat(front[..k])|;
            && Flat(front[..k]) <= file && front[k] <= file[at..] && |Flat(front)| == at + |front[k]|
  {
    BothInFront(file, Flat(front[..|front| - 1]), front[|front| - 1]);
  }

  lemma BothInFront(file: Bytes, a: Bytes, b: Bytes)
    requires a + b <= file
    ensures a <= file && b <= file[|a|..]
  {
    assert file[|a|..] == b + file[|a| + |b|..];
  }

  lemma OneMoreInFront(front: seq<Bytes>, lines: seq<Bytes>)
    requires front != [] && front[..|front| - 1] <= lines
    requires lines[|front| - 1..] != [] && lines[|front| - 1..][0] == front[|front| - 1]
    ensures front <= lines
  {
    assert front == front[..|front| - 1] + [front[|front| - 1]];
  }

  /** Whole lines at the front of a file are the front of every split of it. */
  lemma {:induction false} FrontIsFixed(file: Bytes, front: seq<Bytes>, lines: seq<Bytes>, tail: Bytes)
    requires AllLines(front) && SplitOf(file, lines, tail) && Flat(front) <= file
    ensures front <= lines && SplitOf(file[|Flat(front)|..], lines[|front|..], tail)
    decreases |front|
  {
    if front == [] {
    } else {
      hide SplitOf, NoNewline, IsLine;
      var k := |front| - 1;
      FlatIsFront(file, front);
      FrontIsFixed(file, front[..k], lines, tail);
      var at := |Flat(front[..k])|;
      FirstLineIsFixed(file[at..], lines[k..], tail, front[k]);
      OneMoreInFront(front, lines);
      assert file[at..][|front[k]|..] == file[|Flat(front)|..];
      assert lines[k..][1..] == lines[k + 1..];
    }
  }

  lemma Undecodable(codec: Codec, file: Bytes, front: seq<Bytes>, line: Bytes)
    requires AllLines(front) && |Flat(front)| <= |file| && file[..|Flat(front)|] == Flat(front)
    requires IsLine(line) && line <= file[|Flat(front)|..] && codec.decode(line).None?
    ensures forall lines, tail :: SplitOf(file, lines, tail) ==> !Readable(codec, lines, tail)
  {
    forall lines, tail | SplitOf(file, lines, tail) ensures !Readable(codec, lines, tail) {
      FrontIsFixed(file, front, lines, tail);
      var at := |Flat(front)|;
      FirstLineIsFixed(file[at..], lines[|front|..], tail, line);
      assert lines[|front|] == line;
    }
  }

  lemma Overfull(codec: Codec, file: Bytes, front: seq<Bytes>)
    requires AllLines(front) && |Flat(front)| + MAX_LINE <= |file| && file[..|Flat(front)|] == Flat(front)
    requires NoNewline(file[|Flat(front)|..|Flat(front)| + MAX_LINE])
    ensures forall lines, tail :: SplitOf(file, lines, tail) ==> !Readable(codec, lines, tail)
  {
    hide SplitOf, Readable, IsLine, NoNewline;
    forall lines, tail | SplitOf(file, lines, tail) ensures !Readable(codec, lines, tail) {
      FrontIsFixed(file, front, lines, tail);
      var at := |Flat(front)|;
      var rest := lines[|front|..];
      TooLongInFront(file[at..], rest, tail, file[at..at + MAX_LINE]);
      UnreadableRest(codec, lines, |front|, tail);
    }
  }

  /** What does not come to an end within the reader's buffer is an overlong line or an overlong tail. */
  lemma TooLongInFront(bytes: Bytes, lines: seq<Bytes>, tail: Bytes, front: Bytes)
    requires SplitOf(bytes, lines, tail) && |front| == MAX_LINE && front <= bytes && NoNewline(front)
    ensures if lines == [] then |tail| >= MAX_LINE else |lines[0]| > MAX_LINE
  {
    if lines != [] {
      FirstOf(bytes, lines, tail);
    }
  }

  lemma UnreadableRest(codec: Codec, lines: seq<Bytes>, n: nat, tail: Bytes)
    requires n <= |lines|
    requires if lines[n..] == [] then |tail| >= MAX_LINE else |lines[n..][0]| > MAX_LINE
    ensures !Readable(codec, lines, tail)
  {
    if lines[n..] != [] {
      assert lines[n..][0] == lines[n];
    }
  }
}
