/**
 Bounded subject reads: one page (pkg/events/encoded_event_log.go) and the loop over pages
 (pkg/events/typed_event_log.go), against the plain filter over the stream that they refine.
 */
module Paging {
  import opened EventStream
  import Subjects

  type Bytes = seq<bv8>

  datatype SubjectRecord = SubjectRecord(subject: string, sequence: nat, id: string, data: Bytes)

  datatype Page = Page(records: seq<SubjectRecord>, last: nat, more: bool)

  datatype ReadError = InvalidLimit | TooLarge | Undecodable

  datatype Result<+T> = Ok(value: T) | Err(error: ReadError)

  // ------------------------------------------------------------------ the plain filter

  function RecordAt(stream: Stream<Bytes>, q: nat): SubjectRecord
    requires stream.Stored(q)
  {
    SubjectRecord(stream.At(q).subject, q, stream.At(q).id, stream.At(q).data)
  }

  predicate Selected(stream: Stream<Bytes>, filter: string, q: nat) {
    stream.Retained(q) && Subjects.Matches(filter, stream.At(q).subject)
  }

  /** The records `lo + 1 .. hi` that `filter` selects, in stream order. */
  function Collect(stream: Stream<Bytes>, filter: string, lo: nat, hi: nat): seq<SubjectRecord>
    requires hi <= stream.LastSeq()
  {
    if hi <= lo then []
    else Collect(stream, filter, lo, hi - 1) + if Selected(stream, filter, hi) then [RecordAt(stream, hi)] else []
  }

  /** Everything `filter` selects behind `after`. */
  function Pending(stream: Stream<Bytes>, filter: string, after: nat): seq<SubjectRecord> {
    Collect(stream, filter, after, stream.LastSeq())
  }

  function TotalBytes(records: seq<SubjectRecord>): nat {
    if records == [] then 0 else TotalBytes(records[..|records| - 1]) + |records[|records| - 1].data|
  }

  // ------------------------------------------------------------------ one page

  /**
   `page` is what one call may return when `pending` is what the filter selects: a prefix within both
   limits that ends only because a limit was met, and is not empty unless there is nothing to read. `dry` is a page
   that ends because a fetch brought nothing.
   */
  predicate PageOf(page: Page, pending: seq<SubjectRecord>, maxRecords: nat, maxBytes: nat, dry: bool) {
    var k := |page.records|;
    && k <= |pending| && page.records == pending[..k]
    && page.more == (k < |pending|)
    && page.last == (if k == 0 then 0 else pending[k - 1].sequence)
    && k <= maxRecords
    && (maxBytes > 0 ==> TotalBytes(page.records) <= maxBytes)
    && (pending != [] && !dry ==> k > 0)
    && (page.more && !dry ==>
          || k == maxRecords
          || (maxBytes > 0
               && (TotalBytes(page.records) == maxBytes || TotalBytes(page.records) + |pending[k].data| > maxBytes)))
  }

  const MAX_BYTE_BOUNDED_FETCH := 64

  function Min(a: int, b: int): (r: int)
    ensures r <= a && r <= b && r in {a, b}
  {
    if a < b then a else b
  }

  function Max(a: int, b: int): (r: int)
    ensures r >= a && r >= b && r in {a, b}
  {
    if a > b then a else b
  }

  /** What appendPageRecords accumulates. */
  datatype Fill = Fill(records: seq<SubjectRecord>, bytesRead: nat, largest: nat)

  predicate FillOf(fill: Fill, pending: seq<SubjectRecord>, maxBytes: nat) {
    && |fill.records| <= |pending| && fill.records == pending[..|fill.records|]
    && fill.bytesRead == TotalBytes(fill.records)
    && (maxBytes > 0 ==> fill.bytesRead <= maxBytes)
    && (fill.records != [] ==> fill.largest > 0)
  }

  /** appendPageRecords: take fetched records until the next payload does not fit. */
  method AppendPageRecords(fill: Fill, fetched: seq<SubjectRecord>, maxBytes: nat, ghost pending: seq<SubjectRecord>)
    returns (next: Fill, full: bool, error: Option<ReadError>)
    requires FillOf(fill, pending, maxBytes)
    requires |fill.records| + |fetched| <= |pending|
    requires fetched == pending[|fill.records|..|fill.records| + |fetched|]
    ensures error.Some? <==> maxBytes > 0 && fill.records == [] && fetched != [] && |fetched[0].data| > maxBytes
    ensures error.Some? ==> error.value == TooLarge
    ensures error.None? ==> FillOf(next, pending, maxBytes) && |next.records| >= |fill.records|
    ensures error.None? && !full ==>
              |next.records| == |fill.records| + |fetched| && (fetched != [] ==> next.largest > 0)
    ensures error.None? && full ==>
              && maxBytes > 0 && |fill.records| <= |next.records| < |fill.records| + |fetched| && |next.records| > 0
              && next.bytesRead + |pending[|next.records|].data| > maxBytes
  {
    hide FillOf;
    FillWithin(fill, pending, maxBytes);
    next, full, error := fill, false, None;
    for i := 0 to |fetched|
      invariant FillOf(next, pending, maxBytes) && error.None?
      invariant !full ==> |next.records| == |fill.records| + i && (i > 0 ==> next.largest > 0)
      invariant full ==> |fill.records| <= |next.records| < |fill.records| + i && |next.records| > 0
      invariant full ==> maxBytes > 0 && next.bytesRead + |pending[|next.records|].data| > maxBytes
      invariant i > 0 ==> !(maxBytes > 0 && fill.records == [] && |fetched[0].data| > maxBytes)
    {
      if !full {
        next, full, error := AppendRecord(next, fetched[i], maxBytes, pending);
        if error.Some? {
          return;
        }
      }
    }
  }

  /** One record of appendPageRecords. */
  method AppendRecord(fill: Fill, record: SubjectRecord, maxBytes: nat, ghost pending: seq<SubjectRecord>)
    returns (next: Fill, full: bool, error: Option<ReadError>)
    requires FillOf(fill, pending, maxBytes) && |fill.records| < |pending| && record == pending[|fill.records|]
    ensures error == if maxBytes > 0 && fill.records == [] && |record.data| > maxBytes then Some(TooLarge) else None
    ensures error.None? ==> FillOf(next, pending, maxBytes)
    ensures error.None? ==> full == (maxBytes > 0 && fill.bytesRead + |record.data| > maxBytes)
    ensures error.None? ==> next.largest > 0 && |next.records| == |fill.records| + if full then 0 else 1
    ensures error.None? && full ==> |fill.records| > 0 && next.bytesRead == fill.bytesRead
  {
    hide TotalBytes;
    if maxBytes > 0 && |record.data| > maxBytes && |fill.records| == 0 {
      return fill, true, Some(TooLarge);
    }
    TotalOfNone();
    var largest := Max(Max(fill.largest, |record.data|), 1);
    if maxBytes > 0 && fill.bytesRead + |record.data| > maxBytes {
      return fill.(largest := largest), true, None;
    }
    TotalOfPrefix(pending, |fill.records|);
    return Fill(fill.records + [record], fill.bytesRead + |record.data|, largest), false, None;
  }

  lemma FillWithin(fill: Fill, pending: seq<SubjectRecord>, maxBytes: nat)
    requires FillOf(fill, pending, maxBytes)
    ensures |fill.records| <= |pending|
  {
  }

  lemma TotalOfNone()
    ensures TotalBytes([]) == 0
  {
  }

  lemma TotalOfPrefix(s: seq<SubjectRecord>, n: nat)
    requires n < |s|
    ensures s[..n + 1] == s[..n] + [s[n]] && TotalBytes(s[..n + 1]) == TotalBytes(s[..n]) + |s[n].data|
  {
    assert s[..n + 1][..n] == s[..n];
  }

  /** The size of the next fetch: one record first, then at most doubling, from the largest payload seen. */
  function FetchSize(fill: Fill, previous: nat, remaining: nat, maxBytes: nat): (n: nat)
    requires remaining > 0 && (maxBytes > 0 ==> fill.bytesRead < maxBytes)
    requires (fill.largest > 0 && maxBytes > 0 ==> previous > 0)
    ensures 1 <= n <= remaining
    ensures maxBytes > 0 ==> n <= MAX_BYTE_BOUNDED_FETCH
  {
    if maxBytes == 0 then remaining
    else if fill.largest == 0 then 1
    else Min(Min(Min(Max((maxBytes - fill.bytesRead) / fill.largest, 1), 2 * previous), MAX_BYTE_BOUNDED_FETCH),
      remaining)
  }

  /**
   SubjectRecordsAfterPage over the stream as it was when the page's consumer was created. The `i`-th fetch brings at
   most `arriving(i)` records before its time is up.
   */
  method SubjectRecordsAfterPage(
      stream: Stream<Bytes>, filter: string, after: nat, maxRecords: int, maxBytes: int, arriving: nat -> nat)
    returns (r: Result<Page>, ghost dry: bool)
    ensures r == Err(InvalidLimit) <==> maxRecords <= 0 || maxBytes < 0
    ensures var pending := Pending(stream, filter, after);
            r == Err(TooLarge) <==>
              maxRecords > 0 && maxBytes > 0 && pending != [] && |pending[0].data| > maxBytes && arriving(0) > 0
    ensures r.Ok? ==> PageOf(r.value, Pending(stream, filter, after), maxRecords, maxBytes, dry)
    ensures r != Err(Undecodable) && (dry ==> exists i :: arriving(i) == 0)
    ensures arriving(0) == 0 && maxRecords > 0 && maxBytes >= 0 ==> r.Ok? && r.value.records == []
    ensures r.Ok? && arriving(0) > 0 && r.value.records == [] ==> Pending(stream, filter, after) == []
  {
    dry := false;
    if maxRecords <= 0 || maxBytes < 0 {
      return Err(InvalidLimit), false;
    }
    var pending := Pending(stream, filter, after);
    var target := Min(maxRecords, |pending|);
    var fill := Fill([], 0, 0);
    var previous: nat := 0;
    var full, fetches: nat := false, 0;
    while !full && |fill.records| < target && (maxBytes == 0 || fill.bytesRead < maxBytes)
      invariant FillOf(fill, pending, maxBytes) && |fill.records| <= target
      invariant fill.largest > 0 && maxBytes > 0 ==> previous > 0
      invariant !dry && (fill.records == [] ==> !full && fill.largest == 0 && fetches == 0)
      invariant fill.records != [] ==> arriving(0) > 0
      invariant fill.records != [] ==> !(maxBytes > 0 && |pending[0].data| > maxBytes)
      invariant full ==>
          maxBytes > 0 && |fill.records| < |pending| && fill.bytesRead + |pending[|fill.records|].data| > maxBytes
      decreases !full, target - |fill.records|
    {
      var remaining := target - |fill.records|;
      var size := FetchSize(fill, previous, remaining, maxBytes);
      if maxBytes > 0 {
        previous := size;
      }
      var fetched := pending[|fill.records|..|fill.records| + Min(size, arriving(fetches))];
      var next, isFull, error := AppendPageRecords(fill, fetched, maxBytes, pending);
      if error.Some? {
        return Err(error.value), false;
      }
      fill, full := next, isFull;
      if fetched == [] {
        dry := true;
        break;
      }
      fetches := fetches + 1;
    }
    var last := if fill.records == [] then 0 else fill.records[|fill.records| - 1].sequence;
    return Ok(Page(fill.records, last, |pending| > |fill.records|)), dry;
  }

  // ------------------------------------------------------------------ pages of the plain filter

  lemma {:induction false} CollectSplits(stream: Stream<Bytes>, filter: string, lo: nat, mid: nat, hi: nat)
    requires lo <= mid <= hi <= stream.LastSeq()
    ensures Collect(stream, filter, lo, hi) == Collect(stream, filter, lo, mid) + Collect(stream, filter, mid, hi)
    decreases hi
  {
    if mid < hi {
      CollectSplits(stream, filter, lo, mid, hi - 1);
    }
  }

  /** The filter's result, element by element. */
  lemma {:induction false} CollectMembers(stream: Stream<Bytes>, filter: string, lo: nat, hi: nat, r: SubjectRecord)
    requires hi <= stream.LastSeq()
    ensures r in Collect(stream, filter, lo, hi) <==>
            && lo < r.sequence <= hi && stream.Retained(r.sequence)
            && Subjects.Matches(filter, stream.At(r.sequence).subject)
            && r == SubjectRecord(stream.At(r.sequence).subject, r.sequence, stream.At(r.sequence).id,
                                  stream.At(r.sequence).data)
    decreases hi
  {
    if lo < hi {
      CollectMembers(stream, filter, lo, hi - 1, r);
    }
  }

  lemma {:induction false} CollectAscends(stream: Stream<Bytes>, filter: string, lo: nat, hi: nat, i: nat, j: nat)
    requires hi <= stream.LastSeq() && i < j < |Collect(stream, filter, lo, hi)|
    ensures Collect(stream, filter, lo, hi)[i].sequence < Collect(stream, filter, lo, hi)[j].sequence
    decreases hi
  {
    var before := Collect(stream, filter, lo, hi - 1);
    if j < |before| {
      CollectAscends(stream, filter, lo, hi - 1, i, j);
    } else {
      CollectMembers(stream, filter, lo, hi - 1, before[i]);
    }
  }

  /** The filter behind the `k`-th record is the rest of the filter. */
  lemma {:induction false} CollectBehind(stream: Stream<Bytes>, filter: string, lo: nat, hi: nat, k: nat)
    requires hi <= stream.LastSeq() && 0 < k <= |Collect(stream, filter, lo, hi)|
    ensures var rs := Collect(stream, filter, lo, hi);
            lo < rs[k - 1].sequence <= hi && Collect(stream, filter, rs[k - 1].sequence, hi) == rs[k..]
    decreases hi
  {
    hide Subjects.Matches;
    var rs := Collect(stream, filter, lo, hi);
    CollectMembers(stream, filter, lo, hi, rs[k - 1]);
    var before := Collect(stream, filter, lo, hi - 1);
    if k <= |before| {
      CollectBehind(stream, filter, lo, hi - 1, k);
      assert rs[k..] == before[k..] + rs[|before|..];
    }
  }

  /** Pages of a growing stream: what was selected stays selected, in front of what came later. */
  lemma {:induction false} CollectOfPrefix(older: Stream<Bytes>, newer: Stream<Bytes>, filter: string, lo: nat, hi: nat)
    requires hi <= older.LastSeq() && older.log <= newer.log && older.deleted == newer.deleted
    ensures Collect(older, filter, lo, hi) == Collect(newer, filter, lo, hi)
    decreases hi
  {
    if lo < hi {
      CollectOfPrefix(older, newer, filter, lo, hi - 1);
      assert older.At(hi) == newer.At(hi);
    }
  }

  // ------------------------------------------------------------------ the loop over pages

  datatype Decoded<+E> = Decoded(subject: string, sequence: nat, event: E)

  /** What the loop returns when it has read the first `n` records of `records`. */
  ghost predicate DecodedFrom<E>(decode: Bytes -> Option<E>, records: seq<SubjectRecord>, events: seq<Decoded<E>>) {
    && |events| == |records|
    && forall i :: 0 <= i < |records| ==>
         && events[i].subject == records[i].subject && events[i].sequence == records[i].sequence
         && decode(records[i].data) == Some(events[i].event)
  }

  /** The stream each page sees: an append-only history that ends in `final`. */
  ghost predicate AppendOnly(views: nat -> Stream<Bytes>, final: Stream<Bytes>) {
    && (forall i, j :: i <= j ==> views(i).log <= views(j).log && views(i).deleted == views(j).deleted)
    && (forall i :: views(i).log <= final.log && views(i).deleted == final.deleted)
  }

  method DecodePage<E>(decode: Bytes -> Option<E>, records: seq<SubjectRecord>, events: seq<Decoded<E>>,
                       ghost done: seq<SubjectRecord>)
    returns (next: seq<Decoded<E>>, ok: bool)
    requires DecodedFrom(decode, done, events)
    ensures ok ==> DecodedFrom(decode, done + records, next)
    ensures !ok ==> exists r :: r in records && decode(r.data).None?
  {
    next, ok := events, true;
    for i := 0 to |records|
      invariant DecodedFrom(decode, done + records[..i], next)
    {
      match decode(records[i].data)
      case None => return next, false;
      case Some(event) =>
        next := next + [Decoded(records[i].subject, records[i].sequence, event)];
        assert done + records[..i + 1] == (done + records[..i]) + [records[i]];
    }
    assert records[..|records|] == records;
  }

  /** One round of the loop: read a page and decode it. */
  method ReadPage<E>(view: Stream<Bytes>, decode: Bytes -> Option<E>, filter: string, cursor: nat, maxRecords: int,
                     maxBytes: int,
                     arriving: nat -> nat, events: seq<Decoded<E>>, ghost done: seq<SubjectRecord>)
    returns (page: Page, next: seq<Decoded<E>>, error: Option<ReadError>, ghost dry: bool)
    requires DecodedFrom(decode, done, events)
    ensures error.None? ==>
              && maxRecords > 0 && maxBytes >= 0
              && PageOf(page, Pending(view, filter, cursor), maxRecords, maxBytes, dry)
              && (dry ==> exists i :: arriving(i) == 0)
              && (arriving(0) == 0 ==> page.records == [])
              && (arriving(0) > 0 && page.records == [] ==> Pending(view, filter, cursor) == [])
              && DecodedFrom(decode, done + page.records, next)
    ensures arriving(0) == 0 && maxRecords > 0 && maxBytes >= 0 ==> error.None?
    ensures error == Some(InvalidLimit) <==> maxRecords <= 0 || maxBytes < 0
    ensures error == Some(TooLarge) ==> exists r :: r in Pending(view, filter, cursor) && 0 < maxBytes < |r.data|
    ensures error == Some(Undecodable) ==> exists r :: r in Pending(view, filter, cursor) && decode(r.data).None?
  {
    page, next, error := Page([], 0, false), [], None;
    var r;
    r, dry := SubjectRecordsAfterPage(view, filter, cursor, maxRecords, maxBytes, arriving);
    if r.Err? {
      error := Some(r.error);
    } else {
      page := r.value;
      var ok;
      next, ok := DecodePage(decode, page.records, events, done);
      error := if ok then None else Some(Undecodable);
    }
  }

  /**
   SubjectEventsWithSubjectsAfter: while the stream may grow between pages, the concatenated pages are
   exactly what the plain filter selects behind the cursor in the stream that the last page saw, or a part of it in
   front. They fall short exactly when the first fetch of the last page brought nothing although something was left
   to read; an empty fetch anywhere else is harmless. Nothing tells the caller.
   */
  method SubjectEventsWithSubjectsAfter<E>(
      views: nat -> Stream<Bytes>, ghost final: Stream<Bytes>, decode: Bytes -> Option<E>,
      filter: string, after: nat, maxRecords: int, maxBytes: int, arriving: nat -> nat -> nat)
    returns (events: seq<Decoded<E>>, lastSeq: nat, pages: nat, error: Option<ReadError>)
    requires AppendOnly(views, final)
    ensures error.None? ==> pages > 0 && |events| <= |Pending(views(pages - 1), filter, after)|
    ensures error.None? ==> var read := Pending(views(pages - 1), filter, after)[..|events|];
                            DecodedFrom(decode, read, events) && lastSeq == LastOf(read)
    ensures error.None? ==>
              (|events| == |Pending(views(pages - 1), filter, after)| <==>
              || arriving(pages - 1)(0) > 0
              || Pending(views(pages - 1), filter, if pages == 1 then after else lastSeq) == [])
    ensures arriving(0)(0) == 0 && maxRecords > 0 && maxBytes >= 0 ==> error.None? && events == [] && pages == 1
    ensures error.Some? ==> events == [] && (error.value == Undecodable ==> lastSeq == 0)
    ensures error == Some(InvalidLimit) <==> maxRecords <= 0 || maxBytes < 0
    ensures error == Some(TooLarge) ==> exists r :: r in Pending(final, filter, after) && 0 < maxBytes < |r.data|
    ensures error == Some(Undecodable) ==> exists r :: r in Pending(final, filter, after) && decode(r.data).None?
  {
    hide PageOf, TotalBytes, Collect, Pending, DecodedFrom;
    events, lastSeq, pages, error := [], 0, 0, None;
    NothingDecoded(decode);
    var cursor := after;
    ghost var done: seq<SubjectRecord> := [];
    while true
      invariant |events| == |done| && (pages == 0 ==> events == [])
      invariant pages > 0 ==> arriving(0)(0) > 0
      invariant DecodedFrom(decode, done, events)
      invariant after <= cursor && lastSeq <= cursor && lastSeq == LastOf(done)
      invariant cursor == if pages == 0 then after else lastSeq
      invariant Pending(views(pages), filter, after) == done + Pending(views(pages), filter, cursor)
      invariant pages > 0 ==> cursor <= |final.log| && maxRecords > 0 && maxBytes >= 0
      decreases if pages == 0 then |final.log| + 2 else |final.log| + 1 - cursor
    {
      var view := views(pages);
      var page, next, failed, dry := ReadPage(view, decode, filter, cursor, maxRecords, maxBytes, arriving(pages),
                                              events, done);
      if failed.Some? {
        InFinal(view, final, filter, after, cursor);
        return [], if failed.value == Undecodable then 0 else lastSeq, pages, failed;
      }
      PageMovesCursor(view, filter, cursor, page, maxRecords, maxBytes, dry);
      ghost var before := done;
      DecodedAll(decode, done + page.records, next);
      events, done := next, done + page.records;
      if page.last > lastSeq {
        lastSeq := page.last;
      }
      pages := pages + 1;
      if !page.more || |page.records| == 0 {
        DoneIsPrefix(Pending(view, filter, after), before, page.records, Pending(view, filter, cursor));
        break;
      }
      NextPage(view, views(pages), filter, after, cursor, before, page.records);
      cursor := page.last;
    }
  }

  lemma NothingDecoded<E>(decode: Bytes -> Option<E>)
    ensures DecodedFrom(decode, [], [])
  {
  }

  lemma DecodedAll<E>(decode: Bytes -> Option<E>, records: seq<SubjectRecord>, events: seq<Decoded<E>>)
    requires DecodedFrom(decode, records, events)
    ensures |events| == |records|
  {
  }

  lemma DoneIsPrefix(all: seq<SubjectRecord>, before: seq<SubjectRecord>, records: seq<SubjectRecord>,
                     rest: seq<SubjectRecord>)
    requires all == before + rest && records <= rest
    ensures before + records == all[..|before + records|] && (records == rest ==> before + records == all)
  {
  }

  function LastOf(records: seq<SubjectRecord>): nat {
    if records == [] then 0 else records[|records| - 1].sequence
  }

  lemma PageMovesCursor(view: Stream<Bytes>, filter: string, cursor: nat, page: Page, maxRecords: nat, maxBytes: nat,
                        dry: bool)
    requires PageOf(page, Pending(view, filter, cursor), maxRecords, maxBytes, dry)
    ensures page.last == LastOf(page.records)
    ensures |page.records| <= |Pending(view, filter, cursor)|
    ensures page.records == Pending(view, filter, cursor)[..|page.records|]
    ensures page.records != [] ==> cursor < page.last <= view.LastSeq()
    ensures !page.more ==> page.records == Pending(view, filter, cursor)
    ensures page.records == [] && !dry ==> !page.more
  {
    if page.records != [] {
      CollectMembers(view, filter, cursor, view.LastSeq(), page.records[|page.records| - 1]);
    }
  }

  /** A record that a page reads is selected by the plain filter over the whole history. */
  lemma InFinal(view: Stream<Bytes>, final: Stream<Bytes>, filter: string, after: nat, cursor: nat)
    requires view.log <= final.log && view.deleted == final.deleted && after <= cursor
    ensures forall r :: r in Pending(view, filter, cursor) ==> r in Pending(final, filter, after)
  {
    forall r | r in Pending(view, filter, cursor) ensures r in Pending(final, filter, after) {
      CollectMembers(view, filter, cursor, view.LastSeq(), r);
      assert view.At(r.sequence) == final.At(r.sequence);
      CollectMembers(final, filter, after, final.LastSeq(), r);
    }
  }

  lemma PendingGrows(view: Stream<Bytes>, next: Stream<Bytes>, filter: string, lo: nat)
    requires view.log <= next.log && view.deleted == next.deleted && lo <= view.LastSeq()
    ensures Pending(next, filter, lo) == Pending(view, filter, lo) +
              Collect(next, filter, view.LastSeq(), next.LastSeq())
  {
    CollectSplits(next, filter, lo, view.LastSeq(), next.LastSeq());
    CollectOfPrefix(view, next, filter, lo, view.LastSeq());
  }

  /** Moving the cursor behind a page and letting the stream grow keeps what is done plus what is left. */
  lemma NextPage(view: Stream<Bytes>, next: Stream<Bytes>, filter: string, after: nat, cursor: nat,
                 done: seq<SubjectRecord>, records: seq<SubjectRecord>)
    requires view.log <= next.log && view.deleted == next.deleted && after <= cursor
    requires Pending(view, filter, after) == done + Pending(view, filter, cursor)
    requires 0 < |records| <= |Pending(view, filter, cursor)| && records == Pending(view, filter, cursor)[..|records|]
    ensures var last := records[|records| - 1].sequence;
            && cursor < last <= view.LastSeq()
            && Pending(next, filter, after) == (done + records) + Pending(next, filter, last)
  {
    var pending := Pending(view, filter, cursor);
    var last := records[|records| - 1].sequence;
    CollectBehind(view, filter, cursor, view.LastSeq(), |records|);
    assert pending == records + pending[|records|..];
    PendingGrows(view, next, filter, after);
    PendingGrows(view, next, filter, last);
  }
}
