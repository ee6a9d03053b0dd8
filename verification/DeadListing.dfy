/**
 * Paging over the dead letters of a queue, oldest first: what a page is, the
 * scan of the NATS backend over stream sequence numbers, and the slice
 * arithmetic of the in-memory backend.
 */
module DeadListing {
  import opened Wrappers
  import opened RetryBackoff

  newtype uint64 = x: int | 0 <= x < 0x1_0000_0000_0000_0000

  const MAX_UINT64: uint64 := 0xFFFF_FFFF_FFFF_FFFF
  const MAX_INT64: int := 0x7FFF_FFFF_FFFF_FFFF

  /** Entries offset, offset + 1, ... of the list; limit <= 0 means all of them. */
  function Page<T>(entries: seq<T>, offset: int, limit: int): seq<T> {
    var from := if offset < 0 then 0 else offset;
    if from >= |entries| then []
    else if limit > 0 && from + limit < |entries| then entries[from..from + limit]
    else entries[from..]
  }

  /**
   * A page by its entries: entry i of the page is entry offset + i of the list, a
   * negative offset counting as 0, and there are limit of them if the list is long
   * enough, or all the rest if it is not or limit is not positive.
   */
  lemma PageByIndex<T>(entries: seq<T>, offset: int, limit: int)
    ensures var from := if offset < 0 then 0 else offset;
            var rest := if from < |entries| then |entries| - from else 0;
            && |Page(entries, offset, limit)| == (if 0 < limit < rest then limit else rest)
            && forall i :: 0 <= i < |Page(entries, offset, limit)| ==>
                             from + i < |entries| && Page(entries, offset, limit)[i] == entries[from + i]
  {
  }

  /** Paging through the list: page after page of one size, from an offset, until nothing is left. */
  function Pages<T>(entries: seq<T>, size: nat, offset: nat): seq<T>
    requires size > 0
    decreases |entries| - offset
  {
    if Page(entries, offset, size) == [] then [] else Page(entries, offset, size) + Pages(entries, size, offset + size)
  }

  lemma NextPage<T>(entries: seq<T>, size: nat, offset: nat)
    requires size > 0 && offset < |entries|
    ensures Page(entries, offset, size) != []
    ensures entries[offset..] == Page(entries, offset, size)
                                 + if offset + size < |entries| then entries[offset + size..] else []
  {
  }

  /** Consecutive pages neither skip nor repeat an entry: together they are the whole list. */
  lemma {:induction false} PagesAreWhole<T>(entries: seq<T>, size: nat, offset: nat)
    requires size > 0
    ensures Pages(entries, size, offset) == if offset < |entries| then entries[offset..] else []
    decreases |entries| - offset
  {
    if offset < |entries| {
      NextPage(entries, size, offset);
      PagesAreWhole(entries, size, offset + size);
    }
  }

  // ---------- The stream scan ----------

  /**
   * What the server answers when a scan asks for a sequence number: the task stored
   * there; nothing for a message that is deleted by then, or that is no task. A scan
   * asks for each number once, so this stands for any deletions while it runs.
   */
  type Stream<T> = map<uint64, T>

  /** The messages from first to last, in order of their sequence numbers. */
  function Between<T>(stream: Stream<T>, first: int, last: int): seq<T>
    decreases last - first + 1
  {
    if first > last then []
    else
      var rest := Between(stream, first + 1, last);
      if 0 <= first <= MAX_UINT64 as int && first as uint64 in stream then [stream[first as uint64]] + rest else rest
  }

  lemma {:induction false} BetweenSplits<T>(stream: Stream<T>, first: int, mid: int, last: int)
    requires first <= mid + 1 && mid <= last
    ensures Between(stream, first, last) == Between(stream, first, mid) + Between(stream, mid + 1, last)
    decreases mid - first + 1
  {
    if first <= mid {
      BetweenSplits(stream, first + 1, mid, last);
    }
  }

  /** Each stored message of the range is there, after those with lower sequence numbers. */
  lemma {:induction false} BetweenHolds<T>(stream: Stream<T>, first: int, k: uint64, last: int)
    requires k in stream && first <= k as int <= last
    ensures var below := Between(stream, first, k as int - 1);
            |below| < |Between(stream, first, last)| && Between(stream, first, last)[|below|] == stream[k]
    decreases k as int - first
  {
    if first < k as int {
      BetweenHolds(stream, first + 1, k, last);
    }
  }

  /** And nothing else is. */
  lemma {:induction false} BetweenIsAll<T>(stream: Stream<T>, first: int, last: int)
    ensures |Between(stream, first, last)| == |set k | k in stream && first <= k as int <= last|
    decreases last - first + 1
  {
    var all := set k | k in stream && first <= k as int <= last;
    if first > last {
      assert all == {};
    } else {
      BetweenIsAll(stream, first + 1, last);
      var rest := set k | k in stream && first + 1 <= k as int <= last;
      if 0 <= first <= MAX_UINT64 as int && first as uint64 in stream {
        assert all == rest + {first as uint64};
      } else {
        assert all == rest;
      }
    }
  }

  /** The page as the scan builds it: one more entry extends it, unless skipped or beyond the limit. */
  lemma PageGrows<T>(entries: seq<T>, x: T, offset: nat, limit: int)
    requires limit > 0 ==> |entries| < offset + limit
    ensures |entries| < offset ==> Page(entries + [x], offset, limit) == Page(entries, offset, limit) == []
    ensures |entries| >= offset ==> Page(entries + [x], offset, limit) == Page(entries, offset, limit) + [x]
  {
  }

  /** Entries beyond a full page do not change it. */
  lemma PageIsFull<T>(entries: seq<T>, more: seq<T>, offset: nat, limit: int)
    requires 0 < limit && offset + limit == |entries|
    ensures Page(entries + more, offset, limit) == Page(entries, offset, limit)
  {
  }

  /** A scan ends with an error of the server, or with a result. */
  datatype Scanned<+R> = ReadError | Result(value: R)

  function From(offset: int): nat { if offset < 0 then 0 else offset }

  predicate IsFull<T>(entries: seq<T>, offset: int, limit: int) {
    limit > 0 && |entries| >= From(offset) + limit
  }

  /** A read fails before the page is full. */
  ghost predicate Interrupts<T>(stream: Stream<T>, fails: set<uint64>, first: uint64, last: uint64,
                                offset: int, limit: int)
  {
    exists k :: k in fails && 0 < first <= k <= last
                && !IsFull(Between(stream, first as int, k as int - 1), offset, limit)
  }

  /** A page that is full stays full. */
  lemma StaysFull<T>(stream: Stream<T>, first: int, mid: int, last: int, offset: int, limit: int)
    requires first <= mid + 1 && mid <= last && IsFull(Between(stream, first, mid), offset, limit)
    ensures IsFull(Between(stream, first, last), offset, limit)
  {
    BetweenSplits(stream, first, mid, last);
  }

  /**
   * The scan of the dead-letter stream with the listing callback. The sequence
   * number is a wrapping 64-bit counter: when the last sequence is the greatest
   * one, the increment wraps to 0 and the test seq > 0 ends the loop. A stream
   * that never held a message reports 0 as its first sequence. The scan fails if
   * and only if a read fails before the page is full.
   */
  method ScanPage<T>(stream: Stream<T>, fails: set<uint64>, firstSeq: uint64, lastSeq: uint64, limit: int, offset: int)
    returns (scanned: Scanned<seq<T>>)
    ensures scanned == ReadError <==> Interrupts(stream, fails, firstSeq, lastSeq, offset, limit)
    ensures scanned.Result? ==>
              scanned.value == if firstSeq == 0 then []
                               else Page(Between(stream, firstSeq as int, lastSeq as int), offset, limit)
  {
    var from: int := if offset < 0 then 0 else offset;
    var skipped := 0;
    var out := [];
    var seqNo := firstSeq;
    ghost var pos := firstSeq as int;
    ghost var seen: seq<T> := [];
    while seqNo <= lastSeq && seqNo > 0
      invariant firstSeq as int <= pos && (pos <= lastSeq as int + 1 || pos == firstSeq as int)
      invariant seqNo as int == if pos <= MAX_UINT64 as int then pos else 0
      invariant firstSeq == 0 ==> pos == 0
      invariant seen == Between(stream, firstSeq as int, pos - 1)
      invariant skipped == if |seen| < from then |seen| else from
      invariant out == Page(seen, from, limit) && !IsFull(seen, offset, limit)
      invariant forall k :: k in fails && firstSeq <= k ==> pos <= k as int
      decreases lastSeq as int + 1 - pos
    {
      if seqNo in fails {
        return ReadError;
      }
      BetweenSplits(stream, firstSeq as int, pos - 1, pos);
      BetweenSplits(stream, firstSeq as int, pos, lastSeq as int);
      if seqNo in stream {
        var entry := stream[seqNo];
        PageGrows(seen, entry, from, limit);
        seen := seen + [entry];
        if skipped < from {
          skipped := skipped + 1;
        } else {
          out := out + [entry];
          if limit > 0 && |out| >= limit {
            PageIsFull(seen, Between(stream, pos + 1, lastSeq as int), from, limit);
            forall k | k in fails && firstSeq <= k <= lastSeq
              ensures IsFull(Between(stream, firstSeq as int, k as int - 1), offset, limit)
            {
              StaysFull(stream, firstSeq as int, pos, k as int - 1, offset, limit);
            }
            return Result(out);
          }
        }
      }
      seqNo := if seqNo == MAX_UINT64 then 0 else seqNo + 1;
      pos := pos + 1;
    }
    return Result(out);
  }

  /** A read fails before an entry that matches. */
  ghost predicate Hides<T>(stream: Stream<T>, fails: set<uint64>, first: uint64, last: uint64, wanted: T -> bool) {
    exists k :: k in fails && 0 < first <= k <= last
                && forall j :: j in stream && first <= j < k ==> !wanted(stream[j])
  }

  /** The scan for one task: the oldest entry that matches. */
  method ScanFor<T>(stream: Stream<T>, fails: set<uint64>, firstSeq: uint64, lastSeq: uint64, wanted: T -> bool)
    returns (scanned: Scanned<Option<uint64>>)
    ensures scanned == ReadError <==> Hides(stream, fails, firstSeq, lastSeq, wanted)
    ensures scanned.Result? && scanned.value.Some? ==>
              var q := scanned.value.value; q in stream && firstSeq <= q <= lastSeq && wanted(stream[q])
    ensures scanned.Result? ==>
              forall k :: k in stream && 0 < firstSeq <= k <= lastSeq && wanted(stream[k]) ==>
                          scanned.value.Some? && scanned.value.value <= k
  {
    var seqNo := firstSeq;
    ghost var pos := firstSeq as int;
    while seqNo <= lastSeq && seqNo > 0
      invariant firstSeq as int <= pos && (pos <= lastSeq as int + 1 || pos == firstSeq as int)
      invariant seqNo as int == if pos <= MAX_UINT64 as int then pos else 0
      invariant firstSeq == 0 ==> pos == 0
      invariant forall k :: k in stream && firstSeq <= k && k as int < pos ==> !wanted(stream[k])
      invariant forall k :: k in fails && firstSeq <= k ==> pos <= k as int
      decreases lastSeq as int + 1 - pos
    {
      if seqNo in fails {
        return ReadError;
      }
      if seqNo in stream && wanted(stream[seqNo]) {
        return Result(Some(seqNo));
      }
      seqNo := if seqNo == MAX_UINT64 then 0 else seqNo + 1;
      pos := pos + 1;
    }
    return Result(None);
  }

  // ---------- The slice arithmetic ----------

  /** A slice expression outside the slice's bounds panics. */
  datatype Listed<+T> = Tasks(tasks: seq<T>) | Panic

  /** Go's wrapping addition of two ints. */
  function Add(a: int64, b: int64): int64 {
    Wrap(a as int + b as int)
  }

  lemma AddWraps(a: int64, b: int64)
    requires 0 <= a && 0 < b
    ensures Add(a, b) as int == a as int + b as int || (Add(a, b) < 0 && a as int + b as int > MAX_INT64)
    ensures a as int + b as int > MAX_INT64 ==> Add(a, b) < 0
  {
  }

  predicate Overflows(len: int, limit: int64, offset: int64) {
    limit > 0 && 0 < offset as int < len && offset as int + limit as int > MAX_INT64
  }

  /**
   * The listing of the in-memory backend computes the same page, unless its sum
   * offset + limit overflows: then the end of the slice is negative and the
   * expression panics.
   */
  method SlicePage<T>(dead: seq<T>, limit: int64, offset: int64) returns (listed: Listed<T>)
    requires |dead| <= MAX_INT64
    ensures listed == Panic <==> Overflows(|dead|, limit, offset)
    ensures listed != Panic ==> listed == Tasks(Page(dead, offset as int, limit as int))
  {
    var from := offset;
    if from < 0 {
      from := 0;
    }
    if from as int >= |dead| {
      return Tasks([]);
    }
    var end := |dead| as int64;
    if limit > 0 {
      AddWraps(from, limit);
    }
    if limit > 0 && Add(from, limit) < end {
      end := Add(from, limit);
    }
    if end < from {
      return Panic;
    }
    return Tasks(dead[from as int..end as int]);
  }
}
