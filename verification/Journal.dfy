/**
 The import's progress journal (cli/cmd/operator_import_progress.go): an append-only file of which a crash
 may keep any prefix that holds the bytes synced so far.
 */
module Journal {
  import opened EventStream
  import opened Lines

  const SYNC_EVERY := 128

  const BINDING := "binding"

  const NAMESPACE := "namespace"

  /** What the file system does with one write: all of it, only the first bytes, or a failing sync. */
  datatype Fault = Works | TornAt(n: nat) | SyncFails

  /** The write is not torn, and the sync that it may need does not fail. */
  predicate GoesWell(fault: Fault, length: nat, syncs: bool) {
    !(fault.TornAt? && fault.n < length) && !(fault.SyncFails? && syncs)
  }

  class ImportProgress {
    const codec: Codec
    var file: Bytes
    var values: map<string, string>
    var namespace: string
    var unsynced: nat

    /** The whole lines in the file, and those whose writer was told that they are synced. */
    ghost var lines: seq<Bytes>
    ghost var firm: seq<bool>
    /** What a failed write left behind the last whole line. */
    ghost var torn: Bytes
    /** The first `durable` lines survive any crash. */
    ghost var durable: nat

    constructor (format: Codec, found: Bytes)
      ensures codec == format && file == found && values == map[] && unsynced == 0
    {
      codec, file, values, namespace, unsynced := format, found, map[], "", 0;
      lines, firm, torn, durable := [], [], [], 0;
    }

    /** The file is what was written, every line decodes, and every firm line is durable. */
    ghost predicate OnDisk()
      reads this
    {
      && SplitOf(file, lines, torn) && (forall i :: 0 <= i < |lines| ==> codec.decode(lines[i]).Some?)
      && durable <= |lines| == |firm|
      && (forall i :: durable <= i < |lines| ==> !firm[i])
    }

    /** The reader's buffer is long enough for everything in the file. */
    ghost predicate Legible()
      reads this`lines, this`torn
    {
      Fits(lines, torn)
    }

    /** Memory and file agree, and the next line can be appended. */
    ghost predicate Loaded()
      reads this
    {
      && Faithful(codec) && OnDisk() && torn == [] && values == ValuesOf(codec, lines)
      && unsynced < SYNC_EVERY
    }

    /** Besides, the counter says how many lines a crash could take. */
    ghost predicate Running()
      reads this
    {
      Loaded() && |lines| == durable + unsynced
    }

    /** Whatever a crash leaves, the reopened journal holds this value. */
    ghost predicate Survives(key: string, value: string)
      requires durable <= |lines|
      reads this
    {
      forall m :: durable <= m <= |lines| ==> Get(ValuesOf(codec, lines[..m]), key) == value
    }

    /**
     write: append a line unless the value is already there, and sync when asked to or when enough is unsynced.
     A line longer than the reader's buffer is written like any other, and the file cannot be read back from then on.
     */
    method Write(key: string, value: string, syncNow: bool, fault: Fault) returns (ok: bool)
      requires Loaded()
      modifies this`file, this`values, this`unsynced, this`lines, this`firm, this`torn, this`durable
      ensures OnDisk() && old(lines) <= lines && durable >= old(durable)
      ensures ok ==> Loaded() && (old(Running()) ==> Running())
      ensures !ok && old(Running()) ==> |lines| <= durable + SYNC_EVERY
      ensures fault.Works? ==> ok
      ensures ok ==> (Legible() <==>
                old(Legible()) && (Get(old(values), key) == value || |codec.encode(Entry(key, value))| <= MAX_LINE))
      ensures old(Legible()) && |codec.encode(Entry(key, value))| <= MAX_LINE ==> Legible()
      ensures ok && Get(old(values), key) == value ==>
                values == old(values) && lines == old(lines) && durable == old(durable)
      ensures var line := codec.encode(Entry(key, value));
              Get(old(values), key) != value ==>
                && (ok <==> GoesWell(fault, |line|, syncNow || old(unsynced) + 1 >= SYNC_EVERY))
                && file == old(file) + if fault.TornAt? && fault.n < |line| then line[..fault.n] else line
      ensures ok && Get(old(values), key) != value ==>
                && values == old(values)[key := value]
                && lines == old(lines) + [codec.encode(Entry(key, value))]
                && firm == old(firm) + [syncNow]
                && (syncNow ==> durable == |lines|)
                && (!syncNow && old(unsynced) + 1 < SYNC_EVERY ==> durable == old(durable))
    {
      hide ValuesOf, SplitOf, Fits;
      if Get(values, key) == value {
        return true;
      }
      var line := codec.encode(Entry(key, value));
      if fault.TornAt? && fault.n < |line| {
        Tear(line, fault.n);
        return false;
      }
      Append(Entry(key, value), line);
      unsynced := unsynced + 1;
      if syncNow || unsynced >= SYNC_EVERY {
        if fault.SyncFails? {
          return false;
        }
        unsynced, durable, firm := 0, |lines|, firm[|lines| - 1 := syncNow];
      }
      values := values[key := value];
      return true;
    }

    /** The file system takes only the beginning of a line. */
    method Tear(line: Bytes, n: nat)
      requires OnDisk() && torn == [] && IsLine(line) && n < |line|
      modifies this`file, this`torn
      ensures OnDisk() && (old(Legible()) && |line| <= MAX_LINE ==> Legible())
      ensures file == old(file) + line[..n] && torn == line[..n]
    {
      file, torn := file + line[..n], line[..n];
    }

    method Append(ghost e: Entry, line: Bytes)
      requires OnDisk() && torn == [] && Faithful(codec) && line == codec.encode(e)
      modifies this`file, this`lines, this`firm
      ensures Legible() <==> old(Legible()) && |line| <= MAX_LINE
      ensures OnDisk() && torn == [] && lines == old(lines) + [line] && firm == old(firm) + [false]
      ensures file == old(file) + line
      ensures ValuesOf(codec, lines) == ValuesOf(codec, old(lines))[e.key := e.value]
    {
      FlatOfOneMore(lines, line);
      ValuesOfOneMore(codec, lines, line);
      file, lines, firm := file + line, lines + [line], firm + [false];
    }

    /**
     put: the value survives from now on, except where the same value was already in memory from a
     replayable write that no sync has reached.
     */
    method Put(key: string, value: string, fault: Fault) returns (ok: bool)
      requires Running()
      modifies this`file, this`values, this`unsynced, this`lines, this`firm, this`torn, this`durable
      ensures OnDisk() && old(lines) <= lines && durable >= old(durable)
      ensures ok ==> Running() && Get(values, key) == value
      ensures ok ==> (Survives(key, value) <==> Get(old(values), key) != value || old(Survives(key, value)))
      ensures ok && Get(old(values), key) != value ==> durable == |lines|
      ensures fault.Works? ==> ok
      ensures ok ==> (Legible() <==>
                old(Legible()) && (Get(old(values), key) == value || |codec.encode(Entry(key, value))| <= MAX_LINE))
    {
      ok := Write(key, value, true, fault);
      assert lines[..|lines|] == lines;
    }

    /** putReplayable: fewer than 128 results are ever at risk. */
    method PutReplayable(key: string, value: string, fault: Fault) returns (ok: bool)
      requires Running()
      modifies this`file, this`values, this`unsynced, this`lines, this`firm, this`torn, this`durable
      ensures OnDisk() && old(lines) <= lines && durable >= old(durable)
      ensures ok ==> Running() && Get(values, key) == value && |lines| - durable < SYNC_EVERY
      ensures ok && Get(old(values), key) != value && old(unsynced) + 1 < SYNC_EVERY ==>
                unsynced == old(unsynced) + 1 && durable == old(durable)
      ensures ok ==> forall other, kept :: other != key && old(Survives(other, kept)) ==> Survives(other, kept)
      ensures fault.Works? ==> ok
      ensures ok ==> (Legible() <==>
                old(Legible()) && (Get(old(values), key) == value || |codec.encode(Entry(key, value))| <= MAX_LINE))
    {
      ghost var before := lines;
      ok := Write(key, value, false, fault);
      if ok {
        forall other, kept | other != key && old(Survives(other, kept)) ensures Survives(other, kept) {
          SurvivorsStay(codec, before, lines, old(durable), durable, Entry(key, value), other, kept);
        }
      }
    }

    /** The reading half of openImportProgress: take in the whole lines and cut a torn tail. */
    method Read(ghost known: nat) returns (ok: bool)
      requires Faithful(codec) && unsynced == 0
      requires forall ls, tail :: SplitOf(file, ls, tail) ==> known <= |ls|
      modifies this`file, this`values, this`lines, this`firm, this`torn, this`durable
      ensures ok ==> Loaded() && Legible()
      ensures forall ls, tail :: SplitOf(old(file), ls, tail) ==>
                && (ok <==> Readable(codec, ls, tail))
                && (ok ==> lines == ls)
    {
      var found, offset;
      ghost var ls;
      ghost var image := file;
      ok, found, offset, ls := Load(codec, file);
      if ok {
        forall ls', tail | SplitOf(image, ls', tail) ensures ls' == ls && tail == image[offset..] {
          SplitIsUnique(image, ls', tail, ls, image[offset..]);
        }
        file, values := file[..offset], found;
        lines, firm, torn, durable := ls, seq(|ls|, _ => false), [], known;
        assert file == Flat(ls) + [];
      }
    }

    method PutMissing(key: string, value: string, fault: Fault) returns (ok: bool)
      requires Loaded() && value != ""
      modifies this`file, this`values, this`unsynced, this`lines, this`firm, this`torn, this`durable
      ensures old(lines) <= lines && (fault.Works? ==> ok)
      ensures ok ==> Loaded()
      ensures ok && old(Legible()) && |codec.encode(Entry(key, value))| <= MAX_LINE ==> Legible()
      ensures ok && Get(old(values), key) != "" ==> values == old(values) && lines == old(lines)
      ensures ok && Get(old(values), key) == "" ==> values == old(values)[key := value] && durable == |lines|
    {
      ok := true;
      if Get(values, key) == "" {
        ok := Write(key, value, true, fault);
      }
    }

    /** The claiming half: bind the file, give it a namespace, and sync everything. */
    method Claim(binding: string, freshNamespace: string, valid: string -> bool, fault: Fault) returns (ok: bool)
      requires Loaded() && binding != "" && freshNamespace != "" && valid(freshNamespace)
      modifies this`file, this`values, this`unsynced, this`lines, this`firm, this`torn, this`durable, this`namespace
      ensures ok ==>
                && Running() && durable == |lines|
                && Get(values, BINDING) == binding && Get(values, NAMESPACE) == namespace && valid(namespace)
      ensures old(lines) <= lines
      ensures ok && old(Legible()) && Short(codec, binding, freshNamespace) ==> Legible()
      ensures ok ==> Claimable(codec, old(lines), binding, valid)
      ensures fault.Works? && Claimable(codec, old(lines), binding, valid) ==> ok
      ensures ok && Claimed(codec, old(lines)) ==> lines == old(lines)
    {
      hide Flat, ValuesOf, SplitOf, Fits;
      if Get(values, BINDING) != "" && Get(values, BINDING) != binding {
        return false;
      }
      ok := PutMissing(BINDING, binding, fault);
      if !ok {
        return;
      }
      ok := PutMissing(NAMESPACE, freshNamespace, fault);
      if !ok {
        return;
      }
      namespace := Get(values, NAMESPACE);
      if !valid(namespace) || fault.SyncFails? {
        return false;
      }
      durable, unsynced := |lines|, 0;
      return true;
    }

    /** openImportProgress. */
    method Open(binding: string, freshNamespace: string, valid: string -> bool, fault: Fault, ghost known: nat)
      returns (ok: bool)
      requires Faithful(codec) && unsynced == 0 && binding != "" && freshNamespace != "" && valid(freshNamespace)
      requires forall ls, tail :: SplitOf(file, ls, tail) ==> known <= |ls|
      modifies this
      ensures ok && Short(codec, binding, freshNamespace) ==> Legible()
      ensures ok ==>
                && Running() && durable == |lines|
                && Get(values, BINDING) == binding && Get(values, NAMESPACE) == namespace && valid(namespace)
      ensures forall ls, tail :: SplitOf(old(file), ls, tail) ==>
                && (ok ==> ls <= lines && Readable(codec, ls, tail) && Claimable(codec, ls, binding, valid))
                && (fault.Works? && Readable(codec, ls, tail) && Claimable(codec, ls, binding, valid) ==> ok)
                && (ok && Claimed(codec, ls) ==> lines == ls)
    {
      ok := Read(known);
      if ok {
        ok := Claim(binding, freshNamespace, valid, fault);
      }
    }
  }

  /** Every line, and what is left behind the last one, fits the reader's buffer. */
  predicate Fits(lines: seq<Bytes>, torn: Bytes) {
    |torn| < MAX_LINE && forall i :: 0 <= i < |lines| ==> |lines[i]| <= MAX_LINE
  }

  /** What claiming a file writes fits the reader's buffer. */
  predicate Short(codec: Codec, binding: string, freshNamespace: string) {
    |codec.encode(Entry(BINDING, binding))| <= MAX_LINE && |codec.encode(Entry(NAMESPACE, freshNamespace))| <= MAX_LINE
  }

  /** The file already belongs to somebody. */
  predicate Claimed(codec: Codec, lines: seq<Bytes>) {
    Get(ValuesOf(codec, lines), BINDING) != "" && Get(ValuesOf(codec, lines), NAMESPACE) != ""
  }

  /** Nobody else has claimed the file, and its namespace is well formed. */
  predicate Claimable(codec: Codec, lines: seq<Bytes>, binding: string, valid: string -> bool) {
    && Get(ValuesOf(codec, lines), BINDING) in ["", binding]
    && (Get(ValuesOf(codec, lines), NAMESPACE) != "" ==> valid(Get(ValuesOf(codec, lines), NAMESPACE)))
  }

  /** Writing one key leaves what every crash keeps of the others. */
  lemma SurvivorsStay(codec: Codec, before: seq<Bytes>, after: seq<Bytes>, durable: nat, durable': nat, e: Entry,
                      key: string, value: string)
    requires Faithful(codec) && durable <= |before| && durable <= durable' <= |after| && key != e.key
    requires after == before || after == before + [codec.encode(e)]
    requires forall m :: durable <= m <= |before| ==> Get(ValuesOf(codec, before[..m]), key) == value
    ensures forall m :: durable' <= m <= |after| ==> Get(ValuesOf(codec, after[..m]), key) == value
  {
    forall m | durable' <= m <= |after| ensures Get(ValuesOf(codec, after[..m]), key) == value {
      if m <= |before| {
        assert after[..m] == before[..m];
      } else {
        assert before[..|before|] == before && after[..m] == before + [codec.encode(e)];
        ValuesOfOneMore(codec, before, codec.encode(e));
      }
    }
  }

  /**
   A crash at any byte behind the durable lines: what is left splits into a prefix of the lines that holds every
   firm one, and of a running journal at most 127 lines are gone. It reads back exactly when it fits the buffer.
   */
  lemma CrashKeepsAPrefix(p: ImportProgress, n: nat) returns (m: nat, tail: Bytes)
    requires p.OnDisk() && |Flat(p.lines[..p.durable])| <= n <= |p.file|
    ensures p.durable <= m <= |p.lines|
    ensures SplitOf(p.file[..n], p.lines[..m], tail)
    ensures (Readable(p.codec, p.lines[..m], tail) <==> Fits(p.lines[..m], tail))
    ensures p.Legible() ==> Fits(p.lines[..m], tail)
    ensures forall i :: 0 <= i < |p.lines| && p.firm[i] ==> i < m
    ensures p.Running() ==> |p.lines| - m < SYNC_EVERY
    ensures forall key, value :: p.Survives(key, value) ==> Get(ValuesOf(p.codec, p.lines[..m]), key) == value
  {
    m, tail := CutSplits(p.lines, p.torn, n);
  }

  /**
   After any crash the importer finds its own file again, with the same namespace, if and only if what is left fits
   the reader's buffer.
   */
  method Restart(p: ImportProgress, n: nat, binding: string, freshNamespace: string, valid: string -> bool)
    returns (next: ImportProgress, ok: bool, ghost m: nat, ghost tail: Bytes)
    requires p.OnDisk() && Faithful(p.codec) && |Flat(p.lines[..p.durable])| <= n <= |p.file|
    requires binding != "" && freshNamespace != "" && valid(freshNamespace)
    requires p.Survives(BINDING, binding) && p.Survives(NAMESPACE, p.namespace) && valid(p.namespace)
    requires p.namespace != ""
    ensures fresh(next) && p.durable <= m <= |p.lines| && (ok <==> Fits(p.lines[..m], tail))
    ensures p.Legible() ==> ok
    ensures ok ==> next.Running() && next.Legible() && next.durable == |next.lines| && next.namespace == p.namespace
    ensures ok ==> next.lines == p.lines[..m] && next.values == ValuesOf(p.codec, p.lines[..m])
  {
    m, tail := CrashKeepsAPrefix(p, n);
    next := new ImportProgress(p.codec, p.file[..n]);
    ghost var image := next.file;
    forall ls, t | SplitOf(image, ls, t) ensures ls == p.lines[..m] && t == tail {
      SplitIsUnique(image, ls, t, p.lines[..m], tail);
    }
    ok := next.Open(binding, freshNamespace, valid, Works, 0);
    assert SplitOf(image, p.lines[..m], tail);
    if ok {
      NothingTorn(next);
    }
  }

  lemma NothingTorn(p: ImportProgress)
    requires p.Loaded() && forall i :: 0 <= i < |p.lines| ==> |p.lines[i]| <= MAX_LINE
    ensures p.Legible()
  {
  }

  /** One overlong entry that has become durable, and the journal never opens again. */
  lemma OverlongEntryLocksOut(p: ImportProgress, n: nat, i: nat)
    requires p.OnDisk() && |Flat(p.lines[..p.durable])| <= n <= |p.file|
    requires i < p.durable && |p.lines[i]| > MAX_LINE
    ensures forall ls, tail :: SplitOf(p.file[..n], ls, tail) ==> !Readable(p.codec, ls, tail)
  {
    var m, torn := CrashKeepsAPrefix(p, n);
    forall ls, tail | SplitOf(p.file[..n], ls, tail) ensures !Readable(p.codec, ls, tail) {
      SplitIsUnique(p.file[..n], ls, tail, p.lines[..m], torn);
      assert p.lines[..m][i] == p.lines[i];
    }
  }

  /** A value that a replayable write put into memory is not made durable by writing it again. */
  method ReplayableThenPut(p: ImportProgress, key: string, value: string) returns (ok: bool)
    requires p.Running() && p.unsynced + 1 < SYNC_EVERY && Get(p.values, key) != value
    modifies p
    ensures ok && p.Running() && Get(p.values, key) == value && !p.Survives(key, value)
  {
    ghost var before := p.lines;
    ghost var kept := p.durable;
    ok := p.Write(key, value, false, Works);
    assert p.durable == kept ==> p.lines[..|before|] == before;
    ok := p.Put(key, value, Works);
  }
}
