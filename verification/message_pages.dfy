/**
 Pages of the message list: slices of one virtual list that the cache and the live
 gap make up together, for every sort field, direction and page.
 */
module MessagePages {
  import opened Common
  import opened UsageRows
  import opened CacheDatabase
  import opened Consolidation
  import opened Windows
  import opened RollupReads
  import opened OverviewReads
  import opened Ordering

  // ---- offsets in 64-bit arithmetic ----

  const MAX_INT: int := 0x7fff_ffff_ffff_ffff
  const MAX_PAGE_OFFSET: nat := 0x100_0000_0000

  /** The 64-bit two's complement value of x. */
  function Wrap64(x: int): int {
    var r := x % 0x1_0000_0000_0000_0000;
    if r > MAX_INT then r - 0x1_0000_0000_0000_0000 else r
  }

  /** The slice offset of a 1-based page; an offset that wrapped negative stands for "past the end". */
  function PageOffset(page: int, limit: int): (offset: int)
    ensures 0 <= offset <= MAX_INT
  {
    if page < 1 || limit < 1 then 0
    else
      var offset := Wrap64((page - 1) * limit);
      if offset < 0 then MAX_PAGE_OFFSET else offset
  }

  /** The offset a statement on the cache alone is given; the database takes a negative one for zero. */
  function StatementOffset(page: int, limit: int): (offset: int)
    ensures 0 <= offset <= MAX_INT
  {
    var offset := Wrap64((page - 1) * limit);
    if offset < 0 then 0 else offset
  }

  /** Both offsets are the page's own exactly when the product fits 64 bits. */
  lemma WhenThePageOffsetIsExact(page: int, limit: int)
    requires 1 <= page && 1 <= limit <= 100
    ensures 0 <= (page - 1) * limit && (page - 1) * limit + limit == page * limit
    ensures PageOffset(page, limit) == (page - 1) * limit <==> (page - 1) * limit <= MAX_INT
    ensures StatementOffset(page, limit) == (page - 1) * limit <==> (page - 1) * limit <= MAX_INT
  {
    assert (page - 1) * limit == page * limit - limit;
    if (page - 1) * limit <= MAX_INT {
      assert (page - 1) * limit % 0x1_0000_0000_0000_0000 == (page - 1) * limit;
    }
  }

  // ---- the order of messages ----

  datatype SortField = ByTime | ByCost | ByTokens | ByModel | ByRole | Unrecognized

  datatype MessageSort = MessageSort(field: SortField, ascending: bool)

  /** strings.Compare. */
  function CompareText(a: string, b: string): (r: int)
    ensures r == 0 <==> a == b
  {
    if a == "" then (if b == "" then 0 else -1)
    else if b == "" then 1
    else if a[0] < b[0] then -1
    else if b[0] < a[0] then 1
    else
      assert a == [a[0]] + a[1..] && b == [b[0]] + b[1..];
      CompareText(a[1..], b[1..])
  }

  lemma {:induction false} CompareTextOrders(a: string, b: string, c: string)
    ensures CompareText(a, b) < 0 <==> CompareText(b, a) > 0
    ensures CompareText(a, b) <= 0 && CompareText(b, c) <= 0 ==> CompareText(a, c) <= 0
    decreases |a| + |b| + |c|
  {
    if a != "" && b != "" && c != "" {
      CompareTextOrders(a[1..], b[1..], c[1..]);
    } else if a != "" && b != "" {
      CompareTextOrders(a[1..], b[1..], c);
    }
  }

  function CompareReal(a: real, b: real): int {
    if a < b then -1 else if a > b then 1 else 0
  }

  function CompareInt(a: int, b: int): int {
    if a < b then -1 else if a > b then 1 else 0
  }

  function CompareBy(a: Message, b: Message, field: SortField): int {
    match field
    case ByCost => CompareReal(a.cost, b.cost)
    case ByTokens => CompareInt(a.tokens.Sum(), b.tokens.Sum())
    case ByModel => CompareText(a.model, b.model)
    case ByRole => CompareText(a.role, b.role)
    case ByTime | Unrecognized => CompareInt(a.time, b.time)
  }

  /** The list order: the sort field in the given direction, ties by ascending id in both directions. */
  predicate MessageLess(a: Message, b: Message, sort: MessageSort) {
    var cmp := CompareBy(a, b, sort.field);
    if cmp == 0 then CompareText(a.id, b.id) < 0
    else if sort.ascending then cmp < 0 else cmp > 0
  }

  function Order(sort: MessageSort): (Message, Message) -> bool {
    (a, b) => MessageLess(a, b, sort)
  }

  lemma CompareByOrders(a: Message, b: Message, c: Message, field: SortField)
    ensures CompareBy(a, b, field) < 0 <==> CompareBy(b, a, field) > 0
    ensures CompareBy(a, b, field) <= 0 && CompareBy(b, c, field) <= 0 ==> CompareBy(a, c, field) <= 0
  {
    CompareTextOrders(a.model, b.model, c.model);
    CompareTextOrders(a.role, b.role, c.role);
    CompareTextOrders(b.model, a.model, c.model);
    CompareTextOrders(b.role, a.role, c.role);
  }

  lemma MessageLessIsTransitive(a: Message, b: Message, c: Message, sort: MessageSort)
    requires MessageLess(a, b, sort) && MessageLess(b, c, sort)
    ensures MessageLess(a, c, sort)
  {
    hide CompareBy, CompareText;
    var f := sort.field;
    CompareByOrders(a, b, c, f);
    CompareByOrders(c, b, a, f);
    CompareByOrders(b, a, c, f);
    CompareByOrders(b, c, a, f);
    CompareByOrders(c, a, b, f);
    CompareByOrders(a, c, b, f);
    CompareTextOrders(a.id, b.id, c.id);
    CompareTextOrders(b.id, c.id, a.id);
    CompareTextOrders(c.id, a.id, b.id);
    CompareTextOrders(c.id, b.id, a.id);
  }

  /** Rows with unique ids are strictly ordered under every sort. */
  lemma MessagesAreOrdered(rows: set<Message>, sort: MessageSort)
    requires UniqueIds(rows)
    ensures StrictOrder(Order(sort), rows)
  {
    forall x | x in rows
      ensures !MessageLess(x, x, sort)
    {
      CompareByOrders(x, x, x, sort.field);
    }
    forall x, y, z | x in rows && y in rows && z in rows && MessageLess(x, y, sort) && MessageLess(y, z, sort)
      ensures MessageLess(x, z, sort)
    {
      MessageLessIsTransitive(x, y, z, sort);
    }
    forall x, y | x in rows && y in rows && x != y
      ensures MessageLess(x, y, sort) || MessageLess(y, x, sort)
    {
      CompareByOrders(x, y, x, sort.field);
      CompareByOrders(y, x, y, sort.field);
      CompareTextOrders(x.id, y.id, x.id);
    }
  }

  // ---- reading and merging ----

  // A list entry takes 304 bytes on a 64-bit machine, and an allocation past 2^48 bytes panics.
  const ENTRY_BYTES: nat := 304
  const MAX_RESERVED: nat := 0x1_0000_0000_0000 / ENTRY_BYTES

  /** Room for a slice is reserved up front, for as many rows as its limit says. */
  method MessagesSlice(db: Database, span: Span, f: ModelFilter, offset: nat, limit: int, sort: MessageSort)
    returns (rows: Option<seq<Message>>)
    requires UniqueIds(Matching(Window(db.messages, span.start, span.end), SelectAll(f)))
    ensures rows.None? <==> limit > MAX_RESERVED
    ensures rows.Some? ==>
              rows.value == Slice(Listing(Order(sort), Matching(Window(db.messages, span.start, span.end), SelectAll(f))),
                                  offset, offset + if limit < 0 then 0 else limit)
  {
    hide StrictOrder, Lists, Listing, Order, UniqueIds, Matching, Window;
    if limit <= 0 {
      return Some([]);
    }
    if limit > MAX_RESERVED {
      return None;
    }
    var slice := SelectMessages(db, span, f, offset, limit, sort);
    rows := Some(slice);
  }

  /** SELECT ... ORDER BY sort LIMIT limit OFFSET offset over the rows of the window. */
  method SelectMessages(db: Database, span: Span, f: ModelFilter, offset: nat, limit: nat, sort: MessageSort)
    returns (rows: seq<Message>)
    requires UniqueIds(Matching(Window(db.messages, span.start, span.end), SelectAll(f)))
    ensures rows == Slice(Listing(Order(sort), Matching(Window(db.messages, span.start, span.end), SelectAll(f))),
                          offset, offset + limit)
  {
    hide StrictOrder, Lists, Listing, Order, UniqueIds;
    ghost var cached := Matching(Window(db.messages, span.start, span.end), SelectAll(f));
    var unsorted := ListElements(set m | m in db.messages && span.start <= m.time < span.end && f.Matches(m));
    assert Members(unsorted) == cached;
    MessagesAreOrdered(cached, sort);
    var sorted := SortSlice(Order(sort), unsorted);
    rows := Slice(sorted, offset, offset + limit);
  }

  method MessagesTotal(db: Database, span: Span, f: ModelFilter) returns (total: nat)
    ensures total == |Matching(Window(db.messages, span.start, span.end), SelectAll(f))|
  {
    var rows := set m | m in db.messages && span.start <= m.time < span.end && f.Matches(m);
    assert rows == Matching(Window(db.messages, span.start, span.end), SelectAll(f));
    total := |rows|;
  }

  datatype MessageList = MessageList(messages: seq<Message>, total: nat)

  /** A list, or a crash: slicing up to an end that wrapped negative, or reserving more than can be allocated. */
  datatype Served = Page(list: MessageList) | Crashed

  const TOTAL: nat := 0
  const SLICE: nat := 1

  /** Every statement sees the same rows of the window. */
  ghost predicate SeeRows(dbAt: nat -> Database, span: Span, f: ModelFilter, cached: set<Message>) {
    forall k :: Matching(Window(dbAt(k).messages, span.start, span.end), SelectAll(f)) == cached
  }

  /** The rows of the sorted listing from an offset on. */
  ghost function ListFrom(rows: set<Message>, offset: nat, limit: nat, sort: MessageSort): MessageList {
    MessageList(Slice(Listing(Order(sort), rows), offset, offset + limit), |Listing(Order(sort), rows)|)
  }

  /**
   How far a merged page may reach: newest first its end must fit 64 bits, oldest first it
   reaches anywhere, and under any other sort room is reserved for every row up to its end.
   */
  predicate Reaches(end: nat, sort: MessageSort) {
    if sort.field != ByTime then end <= MAX_RESERVED else sort.ascending || end <= MAX_INT
  }

  /** What a merged page reads from an offset. */
  ghost function MergedFrom(rows: set<Message>, offset: nat, limit: nat, sort: MessageSort): Served {
    if Reaches(offset + limit, sort) then Page(ListFrom(rows, offset, limit, sort)) else Crashed
  }

  /** The same reading with another total: the total has its own statement, and its own clamp. */
  function Counting(s: Served, total: nat): Served {
    if s.Page? then Page(s.list.(total := total)) else Crashed
  }

  /** Oldest first the merge goes by the cached total to tell where the live rows begin. */
  predicate GoesByTheTotal(sort: MessageSort) {
    sort.field == ByTime && sort.ascending
  }

  /** One page of the virtual list that the cached and the live rows make up; the total has its own statement and window. */
  method MergeMessages(dbAt: nat -> Database, counted: Span, span: Span, f: ModelFilter, gap: seq<Message>,
                       page: int, limit: int, sort: MessageSort,
                       ghost countedRows: set<Message>, ghost cached: set<Message>, ghost cutoff: int)
    returns (r: Served)
    requires 1 <= page && 1 <= limit <= 100
    requires SeeRows(dbAt, counted, f, countedRows) && SeeRows(dbAt, span, f, cached)
    requires UniqueIds(cached + Elements(gap))
    requires (forall m :: m in cached ==> m.time < cutoff) && forall m :: m in gap ==> cutoff <= m.time
    requires forall i, j :: 0 <= i < j < |gap| ==> gap[i] != gap[j]
    ensures r.Page? ==> r.list.total == |countedRows| + |Elements(gap)|
    ensures (GoesByTheTotal(sort) ==> |countedRows| == |cached|) && |cached + Elements(gap)| <= MAX_PAGE_OFFSET ==>
              r == Counting(MergedFrom(cached + Elements(gap), PageOffset(page, limit), limit, sort),
                            |countedRows| + |Elements(gap)|)
    ensures GoesByTheTotal(sort) ==>
              r.Page? && r.list.messages == OldestPage(Listing(Order(sort), cached), Listing(Order(sort), Elements(gap)),
                                                       |countedRows|, PageOffset(page, limit), limit)
  {
    hide Matching, Window, StrictOrder, Lists, Slice, UniqueIds, MessageLess, PageOffset, Listing, Order, SeeRows,
         Wrap64, MergedFrom;
    SeeRowsAt(dbAt, counted, f, countedRows, TOTAL);
    ghost var all := cached + Elements(gap);
    assert Members(gap) == Elements(gap);
    PartsAreOrdered(cached, Elements(gap), sort);
    var total := MessagesTotal(dbAt(TOTAL), counted, f);
    var gapSorted := SortSlice(Order(sort), gap);
    SeparateSizes(cached, Elements(gap), cutoff);
    var offset := PageOffset(page, limit);
    var rows;
    if sort.field == ByTime && !sort.ascending {
      rows := NewestFirst(dbAt, span, f, gapSorted, offset, limit, sort, cached, Elements(gap), cutoff);
    } else if sort.field == ByTime {
      var listed := OldestFirst(dbAt, span, f, gapSorted, total, offset, limit, sort, cached, Elements(gap), cutoff);
      rows := Some(listed);
    } else {
      rows := ByOtherKeys(dbAt, span, f, gapSorted, offset, limit, sort, cached, Elements(gap), cutoff);
    }
    r := if rows.Some? then Page(MessageList(rows.value, total + |gapSorted|)) else Crashed;
    MergedIs(all, offset, limit, sort);
  }

  lemma MergedIs(rows: set<Message>, offset: nat, limit: nat, sort: MessageSort)
    ensures MergedFrom(rows, offset, limit, sort)
            == if !Reaches(offset + limit, sort) then Crashed
               else Page(MessageList(Slice(Listing(Order(sort), rows), offset, offset + limit),
                                     |Listing(Order(sort), rows)|))
  {
  }

  /** What sorting needs to know about the two halves. */
  lemma PartsAreOrdered(cached: set<Message>, gap: set<Message>, sort: MessageSort)
    requires UniqueIds(cached + gap)
    ensures UniqueIds(cached) && UniqueIds(gap)
    ensures var less := Order(sort);
            && StrictOrder(less, cached + gap) && StrictOrder(less, cached) && StrictOrder(less, gap)
            && Lists(less, Listing(less, cached), cached) && |Listing(less, cached)| == |cached|
            && Lists(less, Listing(less, gap), gap) && |Listing(less, gap)| == |gap|
            && Lists(less, Listing(less, cached + gap), cached + gap) && |Listing(less, cached + gap)| == |cached + gap|
  {
    var less := Order(sort);
    MessagesAreOrdered(cached + gap, sort);
    MessagesAreOrdered(cached, sort);
    MessagesAreOrdered(gap, sort);
    ListingLists(less, cached);
    ListingLists(less, gap);
    ListingLists(less, cached + gap);
    ListedIs(less, Listing(less, cached), cached);
    ListedIs(less, Listing(less, gap), gap);
    ListedIs(less, Listing(less, cached + gap), cached + gap);
  }

  /** A page of one list after another: within the first, past it, or across the two. */
  lemma PageOfTwoLists<T>(xs: seq<T>, ys: seq<T>, offset: nat, limit: nat)
    ensures var page := Slice(xs + ys, offset, offset + limit);
            && (offset + limit <= |xs| ==> page == xs[offset..offset + limit] == Slice(xs, offset, offset + limit))
            && (|xs| <= offset ==> page == Slice(ys, offset - |xs|, offset - |xs| + limit))
            && (offset < |xs| < offset + limit ==> page == xs[offset..] + Slice(ys, 0, limit - (|xs| - offset)))
            && (offset < |xs| < offset + limit ==> xs[offset..] == Slice(xs, offset, |xs|))
  {
  }

  lemma SliceIsShort<T>(xs: seq<T>, offset: nat, limit: nat)
    ensures |Slice(xs, offset, offset + limit)| <= limit
  {
  }

  lemma SliceIs<T>(xs: seq<T>, lo: nat, hi: nat)
    requires lo <= hi
    ensures Slice(xs, lo, hi) == xs[if lo > |xs| then |xs| else lo..if hi > |xs| then |xs| else hi]
  {
  }

  /** The virtual list is the gap, then the cache. */
  method NewestFirst(dbAt: nat -> Database, span: Span, f: ModelFilter, gapSorted: seq<Message>, offset: nat,
                     limit: nat, sort: MessageSort,
                     ghost cached: set<Message>, ghost gap: set<Message>, ghost cutoff: int)
    returns (rows: Option<seq<Message>>)
    requires offset <= MAX_INT && 1 <= limit <= 100
    requires sort.field == ByTime && !sort.ascending && SeeRows(dbAt, span, f, cached) && UniqueIds(cached + gap)
    requires (forall m :: m in cached ==> m.time < cutoff) && forall m :: m in gap ==> cutoff <= m.time
    requires gapSorted == Listing(Order(sort), gap)
    ensures rows == if offset + limit > MAX_INT then None
                    else Some(Slice(Listing(Order(sort), cached + gap), offset, offset + limit))
  {
    hide Matching, Window, StrictOrder, Lists, UniqueIds, MessageLess, Listing, Order, SeeRows, Wrap64, Slice;
    SeeRowsAt(dbAt, span, f, cached, SLICE);
    TimeListing(cached, gap, cutoff, sort);
    PageOfTwoLists(gapSorted, Listing(Order(sort), cached), offset, limit);
    var gapCount, end := |gapSorted|, Wrap64(offset + limit);
    EndOfPage(offset, limit);
    if end <= gapCount {
      return if end < offset then None else Some(gapSorted[offset..end]);
    }
    if offset >= gapCount {
      rows := MessagesSlice(dbAt(SLICE), span, f, offset - gapCount, limit, sort);
    } else {
      var head := gapSorted[offset..];
      var tail := MessagesSlice(dbAt(SLICE), span, f, 0, limit - |head|, sort);
      rows := Some(head + tail.value);
    }
  }

  /** The end of a page wraps negative, or is its own. */
  lemma EndOfPage(offset: nat, limit: nat)
    requires offset <= MAX_INT && limit <= 100
    ensures Wrap64(offset + limit) == offset + limit <==> offset + limit <= MAX_INT
    ensures offset + limit > MAX_INT ==> Wrap64(offset + limit) < 0
  {
    assert (offset + limit) % 0x1_0000_0000_0000_0000 == offset + limit;
  }

  /** Where a page's end wraps, no list goes that far. */
  lemma PastTheEnd(cached: set<Message>, gap: set<Message>, offset: nat, limit: nat, sort: MessageSort)
    requires UniqueIds(cached + gap) && |cached + gap| <= MAX_PAGE_OFFSET
    requires MAX_INT < offset + limit && limit <= 100
    ensures Slice(Listing(Order(sort), cached), offset, offset + limit)
            == Slice(Listing(Order(sort), cached + gap), offset, offset + limit)
  {
    hide UniqueIds, Listing, Order;
    PartsAreOrdered(cached, gap, sort);
    SubsetIsSmaller(cached, cached + gap);
  }

  /** A page by a count of the cached rows: as many places belong to them, whatever rows there are. */
  ghost function OldestPage(cached: seq<Message>, gap: seq<Message>, count: nat, offset: nat, limit: nat): seq<Message> {
    if offset + limit <= count || offset + limit > MAX_INT then Slice(cached, offset, offset + limit)
    else if count <= offset then Slice(gap, offset - count, offset - count + limit)
    else
      var head := Slice(cached, offset, count);
      head + Slice(gap, 0, if |head| > limit then 0 else limit - |head|)
  }

  /** A count that is not too large cuts the cached rows to their first: the pages are those of one list. */
  lemma WhenTheCountIsNotTooLarge(cached: seq<Message>, gap: seq<Message>, count: nat, offset: nat, limit: nat)
    requires count <= |cached| && offset + limit <= MAX_INT
    ensures OldestPage(cached, gap, count, offset, limit) == Slice(cached[..count] + gap, offset, offset + limit)
  {
    PageOfTwoLists(cached[..count], gap, offset, limit);
    if offset + limit <= count {
      assert Slice(cached, offset, offset + limit) == Slice(cached[..count], offset, offset + limit);
    } else if offset < count {
      assert Slice(cached, offset, count) == cached[..count][offset..];
    }
  }

  /** One that is too large fills the page it ends in with live rows, and the next page repeats them. */
  lemma ATooLargeCountRepeatsRows(a: Message, b: Message, c: Message)
    ensures OldestPage([], [a, b, c], 1, 0, 2) == [a, b] && OldestPage([], [a, b, c], 1, 2, 2) == [b, c]
  {
    var cached: seq<Message>, gap := [], [a, b, c];
    assert Slice(cached, 0, 1) == [];
    assert Slice(gap, 0, 2) == [a, b] && Slice(gap, 1, 3) == [b, c];
  }

  /** The virtual list is the cache, then the gap. */
  method OldestFirst(dbAt: nat -> Database, span: Span, f: ModelFilter, gapSorted: seq<Message>, cacheCount: nat,
                     offset: nat, limit: nat, sort: MessageSort,
                     ghost cached: set<Message>, ghost gap: set<Message>, ghost cutoff: int)
    returns (rows: seq<Message>)
    requires offset <= MAX_INT && 1 <= limit <= 100
    requires sort.field == ByTime && sort.ascending && SeeRows(dbAt, span, f, cached) && UniqueIds(cached + gap)
    requires (forall m :: m in cached ==> m.time < cutoff) && forall m :: m in gap ==> cutoff <= m.time
    requires gapSorted == Listing(Order(sort), gap)
    ensures cacheCount == |cached| && |cached + gap| <= MAX_PAGE_OFFSET ==>
              rows == Slice(Listing(Order(sort), cached + gap), offset, offset + limit)
    ensures rows == OldestPage(Listing(Order(sort), cached), gapSorted, cacheCount, offset, limit)
  {
    hide Matching, Window, StrictOrder, Lists, UniqueIds, MessageLess, Listing, Order, SeeRows, Wrap64, Slice;
    SeeRowsAt(dbAt, span, f, cached, SLICE);
    TimeListing(cached, gap, cutoff, sort);
    PageOfTwoLists(Listing(Order(sort), cached), gapSorted, offset, limit);
    EndOfPage(offset, limit);
    if MAX_INT < offset + limit && |cached + gap| <= MAX_PAGE_OFFSET {
      PastTheEnd(cached, gap, offset, limit, sort);
    }
    if Wrap64(offset + limit) <= cacheCount {
      var slice := MessagesSlice(dbAt(SLICE), span, f, offset, limit, sort);
      rows := slice.value;
    } else if offset >= cacheCount {
      var lo := if offset - cacheCount > |gapSorted| then |gapSorted| else offset - cacheCount;
      var hi := if offset - cacheCount + limit > |gapSorted| then |gapSorted| else offset - cacheCount + limit;
      rows := gapSorted[lo..hi];
      SliceIs(gapSorted, offset - cacheCount, offset - cacheCount + limit);
    } else {
      var slice := MessagesSlice(dbAt(SLICE), span, f, offset, cacheCount - offset, sort);
      var head := slice.value;
      SliceIsShort(Listing(Order(sort), cached), offset, cacheCount - offset);
      var hi := if limit - |head| > |gapSorted| then |gapSorted| else limit - |head|;
      rows := head + gapSorted[..hi];
      SliceIs(gapSorted, 0, limit - |head|);
    }
  }

  /** Any other sort interleaves the halves: the first offset+limit cached rows and the gap are candidates enough. */
  method ByOtherKeys(dbAt: nat -> Database, span: Span, f: ModelFilter, gapSorted: seq<Message>, offset: nat,
                     limit: nat, sort: MessageSort,
                     ghost cached: set<Message>, ghost gap: set<Message>, ghost cutoff: int)
    returns (rows: Option<seq<Message>>)
    requires offset <= MAX_INT && 1 <= limit <= 100
    requires SeeRows(dbAt, span, f, cached) && UniqueIds(cached + gap)
    requires (forall m :: m in cached ==> m.time < cutoff) && forall m :: m in gap ==> cutoff <= m.time
    requires gapSorted == Listing(Order(sort), gap)
    ensures rows == if offset + limit > MAX_RESERVED then None
                    else Some(Slice(Listing(Order(sort), cached + gap), offset, offset + limit))
  {
    hide Matching, Window, StrictOrder, Lists, UniqueIds, MessageLess, Listing, Order, SeeRows, Wrap64;
    SeeRowsAt(dbAt, span, f, cached, SLICE);
    PartsAreOrdered(cached, gap, sort);
    EndOfPage(offset, limit);
    var end := Wrap64(offset + limit);
    var slice := MessagesSlice(dbAt(SLICE), span, f, 0, end, sort);
    if slice.None? || end < 0 {
      return None;
    }
    var cacheTop := slice.value;
    CandidatesSuffice(cached, gap, cacheTop, gapSorted, offset, limit, cutoff, sort);
    var merged := SortSlice(Order(sort), cacheTop + gapSorted);
    var lo := if offset > |merged| then |merged| else offset;
    var hi := if end > |merged| then |merged| else end;
    rows := Some(merged[lo..hi]);
  }

  lemma SeeRowsAt(dbAt: nat -> Database, span: Span, f: ModelFilter, cached: set<Message>, k: nat)
    requires SeeRows(dbAt, span, f, cached)
    ensures Matching(Window(dbAt(k).messages, span.start, span.end), SelectAll(f)) == cached
  {
  }

  /** Under a time sort the listing of the union is the two listings one after the other. */
  lemma TimeListing(cached: set<Message>, gap: set<Message>, cutoff: int, sort: MessageSort)
    requires sort.field == ByTime && UniqueIds(cached + gap)
    requires (forall m :: m in cached ==> m.time < cutoff) && forall m :: m in gap ==> cutoff <= m.time
    ensures var less := Order(sort);
            Listing(less, cached + gap)
            == if sort.ascending then Listing(less, cached) + Listing(less, gap) else Listing(less, gap) + Listing(less, cached)
    ensures UniqueIds(cached) && |Listing(Order(sort), cached)| == |cached|
  {
    hide StrictOrder, Lists, UniqueIds, MessageLess, Listing;
    var less := Order(sort);
    PartsAreOrdered(cached, gap, sort);
    TimeSortSeparates(cached, gap, cutoff, sort);
    if sort.ascending {
      ListsConcat(less, Listing(less, cached), Listing(less, gap), cached, gap);
      ListedIs(less, Listing(less, cached) + Listing(less, gap), cached + gap);
    } else {
      ListsConcat(less, Listing(less, gap), Listing(less, cached), gap, cached);
      assert gap + cached == cached + gap;
      ListedIs(less, Listing(less, gap) + Listing(less, cached), cached + gap);
    }
  }

  /** The first offset+limit cached rows and the gap hold the page, whatever the sort. */
  lemma CandidatesSuffice(cached: set<Message>, gap: set<Message>, top: seq<Message>, gapSorted: seq<Message>,
                          offset: nat, limit: nat, cutoff: int, sort: MessageSort)
    requires UniqueIds(cached + gap)
    requires (forall m :: m in cached ==> m.time < cutoff) && forall m :: m in gap ==> cutoff <= m.time
    requires top == Slice(Listing(Order(sort), cached), 0, offset + limit) && gapSorted == Listing(Order(sort), gap)
    ensures var candidates := top + gapSorted;
            && StrictOrder(Order(sort), Members(candidates))
            && (forall i, j :: 0 <= i < j < |candidates| ==> candidates[i] != candidates[j])
            && Slice(Listing(Order(sort), Members(candidates)), offset, offset + limit)
               == Slice(Listing(Order(sort), cached + gap), offset, offset + limit)
  {
    hide StrictOrder, Lists, UniqueIds, Order, Listing, Slice;
    var less, candidates := Order(sort), top + gapSorted;
    PartsAreOrdered(cached, gap, sort);
    CandidateRows(cached, gap, top, gapSorted, offset + limit, cutoff, sort);
    var all, some := cached + gap, Members(candidates);
    SubOrder(less, all, some);
    ListingLists(less, some);
    FirstRowsAgree(less, all, Listing(less, all), some, Listing(less, some), offset + limit);
    PagesAgree(Listing(less, all), Listing(less, some), offset, offset + limit);
  }

  /** The candidates are distinct, and n of them precede every row left out. */
  lemma CandidateRows(cached: set<Message>, gap: set<Message>, top: seq<Message>, gapSorted: seq<Message>, n: nat,
                      cutoff: int, sort: MessageSort)
    requires UniqueIds(cached + gap)
    requires (forall m :: m in cached ==> m.time < cutoff) && forall m :: m in gap ==> cutoff <= m.time
    requires top == Slice(Listing(Order(sort), cached), 0, n) && gapSorted == Listing(Order(sort), gap)
    ensures Members(top + gapSorted) <= cached + gap
    ensures forall i, j :: 0 <= i < j < |top + gapSorted| ==> (top + gapSorted)[i] != (top + gapSorted)[j]
    ensures forall x :: x in cached + gap - Members(top + gapSorted) ==> Preceded(Order(sort), Members(top + gapSorted), x, n)
  {
    hide StrictOrder, Lists, UniqueIds, Order, Listing, Preceded, Slice;
    var less := Order(sort);
    var cachedList := Listing(less, cached);
    PartsAreOrdered(cached, gap, sort);
    TopRowsAreCandidates(cached, gap, cachedList, top, n, sort);
    TopIsListedOnce(less, cachedList, cached, top, n);
    ListedOnce(less, gapSorted, gap);
    DisjointLists(top, gapSorted, cutoff, cached, gap);
    assert Members(top + gapSorted) == Members(top) + gap;
  }

  lemma ListedOnce(less: (Message, Message) -> bool, xs: seq<Message>, s: set<Message>)
    requires StrictOrder(less, s) && Lists(less, xs, s)
    ensures Members(xs) == s && forall i, j :: 0 <= i < j < |xs| ==> xs[i] != xs[j]
  {
    forall i, j | 0 <= i < j < |xs|
      ensures xs[i] != xs[j]
    {
      assert xs[i] in s && less(xs[i], xs[j]);
    }
  }

  lemma TopIsListedOnce(less: (Message, Message) -> bool, xs: seq<Message>, s: set<Message>, top: seq<Message>, n: nat)
    requires StrictOrder(less, s) && Lists(less, xs, s) && top == Slice(xs, 0, n)
    ensures forall i, j :: 0 <= i < j < |top| ==> top[i] != top[j]
  {
    hide StrictOrder, Lists;
    ListedOnce(less, xs, s);
  }

  lemma SeparateSizes(a: set<Message>, b: set<Message>, cutoff: int)
    requires (forall m :: m in a ==> m.time < cutoff) && forall m :: m in b ==> cutoff <= m.time
    ensures |a + b| == |a| + |b|
  {
    assert a !! b;
  }

  /** Under a time sort every live row is on one side of every cached row. */
  lemma TimeSortSeparates(cached: set<Message>, gap: set<Message>, cutoff: int, sort: MessageSort)
    requires sort.field == ByTime
    requires (forall m :: m in cached ==> m.time < cutoff) && forall m :: m in gap ==> cutoff <= m.time
    ensures sort.ascending ==> forall x, y :: x in cached && y in gap ==> Order(sort)(x, y)
    ensures !sort.ascending ==> forall x, y :: x in gap && y in cached ==> Order(sort)(x, y)
  {
  }

  /** The cached rows past the first n are preceded by those n. */
  lemma TopRowsAreCandidates(cached: set<Message>, gap: set<Message>, cachedList: seq<Message>, top: seq<Message>,
                             n: nat, sort: MessageSort)
    requires StrictOrder(Order(sort), cached) && Lists(Order(sort), cachedList, cached)
    requires top == Slice(cachedList, 0, n)
    ensures Members(top) <= cached
    ensures forall x :: x in cached + gap - (Members(top) + gap) ==> Preceded(Order(sort), Members(top) + gap, x, n)
  {
    forall i | 0 <= i < |top|
      ensures cachedList[i] in Members(top)
    {
      assert top[i] == cachedList[i];
    }
    forall x | x in cached && x !in Members(top)
      ensures Preceded(Order(sort), Members(top) + gap, x, n)
    {
      var i :| 0 <= i < |cachedList| && cachedList[i] == x;
      assert n <= i && top == cachedList[..n];
      PrecedingElements(Order(sort), cachedList, cached, n);
      forall c | c in Members(top)
        ensures Order(sort)(c, x)
      {
        var k :| 0 <= k < n && cachedList[k] == c;
      }
      SubsetIsSmaller(Members(top), set c | c in Members(top) + gap && Order(sort)(c, x));
    }
  }

  lemma DisjointLists(a: seq<Message>, b: seq<Message>, cutoff: int, cached: set<Message>, gap: set<Message>)
    requires Members(a) <= cached && (forall m :: m in cached ==> m.time < cutoff)
    requires Members(b) <= gap && forall m :: m in gap ==> cutoff <= m.time
    requires forall i, j :: 0 <= i < j < |a| ==> a[i] != a[j]
    requires forall i, j :: 0 <= i < j < |b| ==> b[i] != b[j]
    ensures forall i, j :: 0 <= i < j < |a + b| ==> (a + b)[i] != (a + b)[j]
  {
    forall i | 0 <= i < |a|
      ensures a[i].time < cutoff
    {
      assert a[i] in Members(a);
    }
    forall i | 0 <= i < |b|
      ensures cutoff <= b[i].time
    {
      assert b[i] in Members(b);
    }
  }

  // ---- the request ----

  function NormalPage(page: int): int {
    if page < 1 then 1 else page
  }

  function NormalLimit(limit: int): (r: int)
    ensures 1 <= r <= 100
  {
    if limit < 1 then 50 else if limit > 100 then 100 else limit
  }

  /** The requested page of the whole log: sort everything, then slice. */
  ghost function PageOfLog(log: set<Message>, pq: PeriodQuery, f: ModelFilter, page: int, limit: int,
                           sort: MessageSort, now: int): MessageList
    requires ResolveQuery(pq, now).Ok? && 1 <= page && 1 <= limit
  {
    var window := ResolveQuery(pq, now).value;
    PageOf(RequestedRows(log, window.0, window.1, f), page, limit, sort)
  }

  ghost function PageOf(rows: set<Message>, page: int, limit: int, sort: MessageSort): MessageList
    requires 1 <= page && 1 <= limit
  {
    var full := Listing(Order(sort), rows);
    MessageList(Slice(full, (page - 1) * limit, page * limit), |full|)
  }

  /** A live source sorts the rows of the window and slices. */
  method LiveMessages(live: seq<Message>, pq: PeriodQuery, page: int, limit: int, sort: MessageSort,
                      now: int) returns (r: MessageList)
    requires ResolveQuery(pq, now).Ok? && 1 <= page && 1 <= limit
    requires UniqueIds(Elements(live)) && forall i, j :: 0 <= i < j < |live| ==> live[i] != live[j]
    ensures r == PageOfLog(Elements(live), pq, NO_FILTER, page, limit, sort, now)
  {
    hide StrictOrder, Lists, Listing, MessageLess;
    var (start, end) := ResolveQuery(pq, now).value;
    var rows := FilterGap(live, NO_FILTER, if start.Some? then start.value else 0, end);
    ghost var requested := RequestedRows(Elements(live), start, end, NO_FILTER);
    assert Elements(rows) == requested;
    assert Members(rows) == requested;
    MessagesAreOrdered(requested, sort);
    var sorted := SortSlice(Order(sort), rows);
    r := MessageList(Slice(sorted, (page - 1) * limit, page * limit), |sorted|);
  }

  /** A page of the cached half alone. */
  method StoreMessages(dbAt: nat -> Database, span: Span, f: ModelFilter, page: int, limit: int, sort: MessageSort,
                       ghost cached: set<Message>)
    returns (r: MessageList)
    requires 1 <= page && 1 <= limit && SeeRows(dbAt, span, f, cached) && UniqueIds(cached)
    ensures r == ListFrom(cached, StatementOffset(page, limit), limit, sort)
  {
    hide StrictOrder, Lists, Listing, MessageLess, UniqueIds, Matching, Window, Slice, SeeRows, StatementOffset;
    SeeRowsAt(dbAt, span, f, cached, TOTAL);
    SeeRowsAt(dbAt, span, f, cached, SLICE);
    assert cached + {} == cached;
    PartsAreOrdered(cached, {}, sort);
    var total := MessagesTotal(dbAt(TOTAL), span, f);
    var rows := SelectMessages(dbAt(SLICE), span, f, StatementOffset(page, limit), limit, sort);
    r := MessageList(rows, total);
  }

  // The window is resolved once for the total and once for the rows, before either is read.
  const FIRST: nat := 0
  const SECOND: nat := 100
  const READING: nat := 200

  function After(dbAt: nat -> Database, base: nat): nat -> Database {
    (k: nat) => dbAt(base + k)
  }

  lemma SpanSeesRows(dbAt: nat -> Database, base: nat, span: Span, f: ModelFilter, log: set<Message>, sp: SplitWindows,
                     clamp: Option<int>)
    requires Window(log, span.start, span.end) == ServedRows(log, sp, clamp) && base <= READING
    requires forall k :: Sees(After(dbAt, base)(k), log, span.start, span.end)
    ensures SeeRows(After(dbAt, READING), span, f, Matching(ServedRows(log, sp, clamp), SelectAll(f)))
  {
    hide Derived, Matching;
    forall k: nat
      ensures Window(After(dbAt, READING)(k).messages, span.start, span.end) == ServedRows(log, sp, clamp)
    {
      assert After(dbAt, READING)(k) == After(dbAt, base)(READING - base + k);
      assert Sees(After(dbAt, base)(READING - base + k), log, span.start, span.end);
    }
  }

  /** What a request reads: live alone by page, cached alone from the statement's offset, else the merged list. */
  ghost function PageRead(rows: set<Message>, sp: SplitWindows, page: int, limit: int, sort: MessageSort): Served
    requires 1 <= page && 1 <= limit
  {
    if !sp.hasCache then Page(PageOf(rows, page, limit, sort))
    else if !sp.hasLive then Page(ListFrom(rows, StatementOffset(page, limit), limit, sort))
    else MergedFrom(rows, PageOffset(page, limit), limit, sort)
  }

  /** The requested rows that a clamp leaves. */
  ghost function Remaining(log: set<Message>, sp: SplitWindows, clamp: Option<int>, f: ModelFilter): set<Message> {
    RequestedRows(log, sp.start, sp.end, f) - if sp.hasCache then LostRows(log, sp, clamp) else {}
  }

  /** The page is read from one listing of the rows its clamp leaves, and the total counts those the total's clamp leaves. */
  ghost predicate ReadsWhatRemains(r: Served, log: set<Message>, sp: SplitWindows, totalClamp: Option<int>,
                                   rowsClamp: Option<int>, f: ModelFilter, page: int, limit: int, sort: MessageSort)
    requires 1 <= page && 1 <= limit
  {
    var rows := Remaining(log, sp, rowsClamp, f);
    var counted := Remaining(log, sp, if sp.hasLive then totalClamp else rowsClamp, f);
    && ((sp.hasLive && GoesByTheTotal(sort) ==> |counted| == |rows|) ==>
          r == Counting(PageRead(rows, sp, page, limit, sort), |counted|))
    && (sp.hasCache && sp.hasLive && sp.cutoff.Some? && GoesByTheTotal(sort) ==>
          ReadsByACount(r, Matching(ServedRows(log, sp, rowsClamp), SelectAll(f)),
                        Matching(Window(log, sp.GapStart(), sp.end), SelectAll(f)),
                        |Matching(ServedRows(log, sp, totalClamp), SelectAll(f))|, PageOffset(page, limit), limit, sort))
  }

  /** Oldest first: a page of the cached rows and the live ones, by a count of the former. */
  ghost predicate ReadsByACount(r: Served, cached: set<Message>, gap: set<Message>, count: nat, offset: nat, limit: nat,
                                sort: MessageSort) {
    r.Page? && r.list.messages == OldestPage(Listing(Order(sort), cached), Listing(Order(sort), gap), count, offset, limit)
  }

  /**
   A message list request. The halves come from different databases and the live log,
   and the total and the rows are clamped separately; when neither clamp loses a row,
   the page is read from one sorted listing of the raw log. The total is that of the
   log exactly when its own clamp loses none. Otherwise the page is read from a listing
   of what remains; oldest first by the count that the total's clamp leaves.
   */
  method CachedMessages(pq: PeriodQuery, f: ModelFilter, askedPage: int, askedLimit: int, sort: MessageSort, now: int,
                        splitDb: Database, dbAt: nat -> Database, totalClamp: Option<int>, rowsClamp: Option<int>,
                        live: seq<Message>, raw: seq<Message>)
    returns (r: Result<Served, QueryError>)
    requires Recorded(splitDb.state) <= now
    requires forall k :: Consistent(dbAt(k), Elements(live), Recorded(splitDb.state))
    requires UniqueIds(Elements(live)) && |Elements(live)| <= MAX_PAGE_OFFSET
    requires forall i, j :: 0 <= i < j < |live| ==> live[i] != live[j]
    requires forall i, j :: 0 <= i < j < |raw| ==> raw[i] != raw[j]
    requires FetchedGap(pq, now, splitDb, Elements(raw), Elements(live))
    ensures r.Err? <==> ResolveQuery(pq, now).Err? || (f.Active() && !SplitPeriod(pq, CutoffOf(splitDb), now).value.hasCache)
    ensures r.Ok? ==>
              var sp := SplitPeriod(pq, CutoffOf(splitDb), now).value;
              var rows := RequestedRows(Elements(live), sp.start, sp.end, f);
              && (r.value.Page? ==>
                    (r.value.list.total == |rows|
                     <==> NothingLost(Elements(live), sp, if sp.hasLive then totalClamp else rowsClamp, f)))
              && ReadsWhatRemains(r.value, Elements(live), sp, totalClamp, rowsClamp, f,
                                  NormalPage(askedPage), NormalLimit(askedLimit), sort)
              && (NothingLost(Elements(live), sp, totalClamp, f) && NothingLost(Elements(live), sp, rowsClamp, f) ==>
                    r.value == PageRead(rows, sp, NormalPage(askedPage), NormalLimit(askedLimit), sort))
  {
    hide Consistent, Matching, UniqueIds, StrictOrder, Lists, Listing, MessageLess, Slice, SeeRows, RequestedRows, Order,
         NothingLost, PageOf, Window, Remaining;
    var asked, limit := NormalPage(askedPage), NormalLimit(askedLimit);
    match SplitPeriod(pq, CutoffOf(splitDb), now)
    case Err(e) =>
      return Err(e);
    case Ok(sp) =>
      ghost var log := Elements(live);
      SplitWindowIsTheQuerys(pq, CutoffOf(splitDb), now);
      RequestedAreUnique(log, (sp.start, sp.end), f);
      if !sp.hasCache {
        if f.Active() {
          return Err(FilterUnavailable);
        }
        LiveOnlyRows(pq, CutoffOf(splitDb), now, log, f);
        NoHalfToLose(log, sp, totalClamp, f);
        NoHalfToLose(log, sp, rowsClamp, f);
        var list := LiveMessages(live, sp.livePQ, asked, limit, sort, now);
        PageTotal(RequestedRows(log, sp.start, sp.end, f), asked, limit, sort);
        AllRemain(log, sp, totalClamp, f);
        AllRemain(log, sp, rowsClamp, f);
        return Ok(Page(list));
      }
      var page;
      if sp.hasLive {
        page := MergedPage(dbAt, sp, f, asked, limit, sort, now, totalClamp, rowsClamp, raw, pq, Recorded(splitDb.state), log);
      } else {
        page := StoredPage(dbAt, sp, f, asked, limit, sort, now, rowsClamp, totalClamp, pq, Recorded(splitDb.state), log);
      }
      return Ok(page);
  }

  /** A page of a request from the cache alone. */
  method StoredPage(dbAt: nat -> Database, sp: SplitWindows, f: ModelFilter, page: int, limit: int, sort: MessageSort,
                    now: int, rowsClamp: Option<int>,
                    ghost totalClamp: Option<int>, ghost pq: PeriodQuery, ghost cutoff: int, ghost log: set<Message>)
    returns (r: Served)
    requires SplitPeriod(pq, Some(cutoff), now) == Ok(sp) && sp.hasCache && !sp.hasLive
    requires sp.cutoff == Some(cutoff) && cutoff <= now && forall k :: Consistent(dbAt(k), log, cutoff)
    requires UniqueIds(log) && 1 <= page && 1 <= limit <= 100
    ensures IsServed(r, log, sp, totalClamp, rowsClamp, f, page, limit, sort)
  {
    hide Consistent, Matching, UniqueIds, StrictOrder, Lists, Listing, MessageLess, Slice, SeeRows, RequestedRows, Order,
         SplitPeriod, ResolveQuery, NothingLost, ServedRows, LostRows, CachedRows, ListFrom, MergedFrom, PageOf,
         PageOffset, StatementOffset, IsServed, Remaining, Sees;
    ghost var cached := Matching(CachedRows(log, sp), SelectAll(f));
    ghost var served := Matching(ServedRows(log, sp, rowsClamp), SelectAll(f));
    RequestedIsBothHalves(pq, cutoff, now, log, {}, f);
    SplitWindowIsTheQuerys(pq, Some(cutoff), now);
    RequestedAreUnique(log, (sp.start, sp.end), f);
    ClampedHalf(log, sp, rowsClamp, f, pq, now);
    var span := CachedWindow(After(dbAt, FIRST), sp, now, rowsClamp, pq, cutoff, log);
    SpanSeesRows(dbAt, FIRST, span, f, log, sp, rowsClamp);
    assert cached + {} == cached && served + {} == served;
    FewerAreUnique(served, cached);
    var list := StoreMessages(After(dbAt, READING), span, f, page, limit, sort, served);
    ListTotal(served, StatementOffset(page, limit), limit, sort);
    RemainingIs(log, sp, rowsClamp, f, pq, cutoff, now, {});
    StoredPageIsServed(Page(list), log, sp, totalClamp, rowsClamp, f, page, limit, sort, served, cached);
    r := Page(list);
  }

  /** A page of a request merged from the cache and the gap. */
  method MergedPage(dbAt: nat -> Database, sp: SplitWindows, f: ModelFilter, page: int, limit: int, sort: MessageSort,
                    now: int, totalClamp: Option<int>, rowsClamp: Option<int>, raw: seq<Message>,
                    ghost pq: PeriodQuery, ghost cutoff: int, ghost log: set<Message>)
    returns (r: Served)
    requires SplitPeriod(pq, Some(cutoff), now) == Ok(sp) && sp.hasCache && sp.hasLive
    requires sp.cutoff == Some(cutoff) && cutoff <= now && forall k :: Consistent(dbAt(k), log, cutoff)
    requires UniqueIds(log) && |log| <= MAX_PAGE_OFFSET && 1 <= page && 1 <= limit <= 100
    requires forall i, j :: 0 <= i < j < |raw| ==> raw[i] != raw[j]
    requires Window(Elements(raw), sp.GapStart(), sp.end) == Window(log, sp.GapStart(), sp.end)
    ensures IsServed(r, log, sp, totalClamp, rowsClamp, f, page, limit, sort)
  {
    hide Consistent, Matching, UniqueIds, StrictOrder, Lists, Listing, MessageLess, Slice, SeeRows, RequestedRows, Order,
         SplitPeriod, ResolveQuery, NothingLost, ServedRows, LostRows, CachedRows, ListFrom, MergedFrom, PageOf,
         PageOffset, StatementOffset, IsServed, Remaining, Sees;
    ghost var cached := Matching(CachedRows(log, sp), SelectAll(f));
    ghost var served := Matching(ServedRows(log, sp, rowsClamp), SelectAll(f));
    ghost var countedRows := Matching(ServedRows(log, sp, totalClamp), SelectAll(f));
    ClampedHalf(log, sp, rowsClamp, f, pq, now);
    ClampedHalf(log, sp, totalClamp, f, pq, now);
    var span := CachedWindow(After(dbAt, FIRST), sp, now, rowsClamp, pq, cutoff, log);
    SpanSeesRows(dbAt, FIRST, span, f, log, sp, rowsClamp);
    var gap := FilterGap(raw, f, sp.GapStart(), sp.end);
    GapIsLate(Elements(raw), f, sp.GapStart(), sp.end, gap);
    var counted := CachedWindow(After(dbAt, SECOND), sp, now, totalClamp, pq, cutoff, log);
    SpanSeesRows(dbAt, SECOND, counted, f, log, sp, totalClamp);
    MergedHalves(log, sp, f, pq, cutoff, now, Elements(raw), Elements(gap), served, rowsClamp, totalClamp);
    r := MergeMessages(After(dbAt, READING), counted, span, f, gap, page, limit, sort, countedRows, served, cutoff);
    MergedPageIsServed(r, log, sp, totalClamp, rowsClamp, f, page, limit, sort, served, countedRows, cached, Elements(gap));
  }

  /** The request's rows are those of both halves, and so are the rows that a clamp leaves. */
  lemma MergedHalves(log: set<Message>, sp: SplitWindows, f: ModelFilter, pq: PeriodQuery, cutoff: int, now: int,
                     raw: set<Message>, gap: set<Message>, served: set<Message>, rowsClamp: Option<int>, totalClamp: Option<int>)
    requires SplitPeriod(pq, Some(cutoff), now) == Ok(sp) && sp.hasCache && sp.hasLive && sp.cutoff == Some(cutoff)
    requires UniqueIds(log) && Window(raw, sp.GapStart(), sp.end) == Window(log, sp.GapStart(), sp.end)
    requires gap == Matching(Window(raw, sp.GapStart(), sp.end), SelectAll(f)) && forall m :: m in gap ==> cutoff <= m.time
    requires served <= Matching(CachedRows(log, sp), SelectAll(f))
    ensures var cached, requested := Matching(CachedRows(log, sp), SelectAll(f)), RequestedRows(log, sp.start, sp.end, f);
            && requested == cached + gap && |requested| <= |log| && cached !! gap && |served + gap| <= |log|
            && UniqueIds(cached + gap) && UniqueIds(served + gap)
    ensures Remaining(log, sp, rowsClamp, f) == Matching(ServedRows(log, sp, rowsClamp), SelectAll(f)) + gap
    ensures Remaining(log, sp, totalClamp, f) == Matching(ServedRows(log, sp, totalClamp), SelectAll(f)) + gap
  {
    hide UniqueIds, SplitPeriod, CachedRows, ServedRows, Remaining, RequestedRows, Matching;
    var cached := Matching(CachedRows(log, sp), SelectAll(f));
    RequestedIsBothHalves(pq, cutoff, now, log, raw, f);
    SplitWindowIsTheQuerys(pq, Some(cutoff), now);
    RequestedAreUnique(log, (sp.start, sp.end), f);
    RequestedAreFewer(log, (sp.start, sp.end), f);
    CacheEndsByTheCutoff(sp, pq, cutoff, now);
    HalvesAreApart(log, sp, f, cutoff, gap);
    FewerAreUnique(served + gap, cached + gap);
    SubsetIsSmaller(served + gap, cached + gap);
    RemainingIs(log, sp, rowsClamp, f, pq, cutoff, now, gap);
    RemainingIs(log, sp, totalClamp, f, pq, cutoff, now, gap);
  }

  /** All that is said of the page of a request. */
  ghost predicate IsServed(r: Served, log: set<Message>, sp: SplitWindows, totalClamp: Option<int>, rowsClamp: Option<int>,
                           f: ModelFilter, page: int, limit: int, sort: MessageSort)
    requires 1 <= page && 1 <= limit
  {
    var rows := RequestedRows(log, sp.start, sp.end, f);
    && (r.Page? ==>
          (r.list.total == |rows| <==> NothingLost(log, sp, if sp.hasLive then totalClamp else rowsClamp, f)))
    && ReadsWhatRemains(r, log, sp, totalClamp, rowsClamp, f, page, limit, sort)
    && (NothingLost(log, sp, totalClamp, f) && NothingLost(log, sp, rowsClamp, f) ==> r == PageRead(rows, sp, page, limit, sort))
  }

  lemma StoredPageIsServed(r: Served, log: set<Message>, sp: SplitWindows, totalClamp: Option<int>, rowsClamp: Option<int>,
                           f: ModelFilter, page: int, limit: int, sort: MessageSort, served: set<Message>, cached: set<Message>)
    requires sp.hasCache && !sp.hasLive && 1 <= page && 1 <= limit && served <= cached
    requires r == Page(ListFrom(served, StatementOffset(page, limit), limit, sort)) && r.list.total == |served|
    requires RequestedRows(log, sp.start, sp.end, f) == cached && Remaining(log, sp, rowsClamp, f) == served
    requires served == cached <==> NothingLost(log, sp, rowsClamp, f)
    ensures IsServed(r, log, sp, totalClamp, rowsClamp, f, page, limit, sort)
  {
    hide RequestedRows, Remaining, NothingLost, ListFrom, StatementOffset;
    assert cached + {} == cached;
    SameSize(served, cached, {});
  }

  lemma MergedPageIsServed(r: Served, log: set<Message>, sp: SplitWindows, totalClamp: Option<int>, rowsClamp: Option<int>,
                           f: ModelFilter, page: int, limit: int, sort: MessageSort,
                           served: set<Message>, counted: set<Message>, cached: set<Message>, gap: set<Message>)
    requires sp.hasCache && sp.hasLive && 1 <= page && 1 <= limit && served <= cached && counted <= cached && cached !! gap
    requires r.Page? ==> r.list.total == |counted| + |gap|
    requires (GoesByTheTotal(sort) ==> |counted| == |served|) ==>
               r == Counting(MergedFrom(served + gap, PageOffset(page, limit), limit, sort), |counted| + |gap|)
    requires RequestedRows(log, sp.start, sp.end, f) == cached + gap && UniqueIds(cached + gap)
    requires Remaining(log, sp, rowsClamp, f) == served + gap && Remaining(log, sp, totalClamp, f) == counted + gap
    requires served == cached <==> NothingLost(log, sp, rowsClamp, f)
    requires counted == cached <==> NothingLost(log, sp, totalClamp, f)
    requires served == Matching(ServedRows(log, sp, rowsClamp), SelectAll(f))
    requires counted == Matching(ServedRows(log, sp, totalClamp), SelectAll(f))
    requires sp.cutoff.Some? && gap == Matching(Window(log, sp.GapStart(), sp.end), SelectAll(f))
    requires GoesByTheTotal(sort) ==> ReadsByACount(r, served, gap, |counted|, PageOffset(page, limit), limit, sort)
    ensures IsServed(r, log, sp, totalClamp, rowsClamp, f, page, limit, sort)
  {
    hide RequestedRows, Remaining, NothingLost, ListFrom, PageOffset, UniqueIds, Matching, ServedRows, Window, ReadsByACount;
    SameSize(counted, cached, gap);
    UnionSizes(served, counted, cached, gap);
    ListTotal(cached + gap, PageOffset(page, limit), limit, sort);
  }

  lemma AllRemain(log: set<Message>, sp: SplitWindows, clamp: Option<int>, f: ModelFilter)
    requires !sp.hasCache
    ensures Remaining(log, sp, clamp, f) == RequestedRows(log, sp.start, sp.end, f)
  {
  }

  lemma RemainingIs(log: set<Message>, sp: SplitWindows, clamp: Option<int>, f: ModelFilter, pq: PeriodQuery, cutoff: int,
                    now: int, gap: set<Message>)
    requires SplitPeriod(pq, Some(cutoff), now) == Ok(sp) && sp.hasCache
    requires RequestedRows(log, sp.start, sp.end, f) == Matching(CachedRows(log, sp), SelectAll(f)) + gap
    requires forall m :: m in gap ==> cutoff <= m.time
    ensures Remaining(log, sp, clamp, f) == Matching(ServedRows(log, sp, clamp), SelectAll(f)) + gap
  {
    CacheEndsByTheCutoff(sp, pq, cutoff, now);
    hide SplitPeriod, SplitWindows.CacheWindow, RequestedRows;
  }

  /** Whatever is served, the live rows come on top. */
  lemma UnionSizes(served: set<Message>, counted: set<Message>, cached: set<Message>, gap: set<Message>)
    requires served <= cached && counted <= cached && cached !! gap
    ensures |served + gap| == |served| + |gap| && |counted + gap| == |counted| + |gap| && |served + gap| <= |cached + gap|
  {
    SubsetIsSmaller(served + gap, cached + gap);
  }

  /** What a clamp leaves of the cached half is early, part of it, and all of it exactly when nothing is lost. */
  lemma ClampedHalf(log: set<Message>, sp: SplitWindows, clamp: Option<int>, f: ModelFilter, pq: PeriodQuery, now: int)
    requires SplitPeriod(pq, sp.cutoff, now) == Ok(sp) && sp.hasCache && sp.cutoff.Some?
    ensures var served := Matching(ServedRows(log, sp, clamp), SelectAll(f));
            var cached := Matching(CachedRows(log, sp), SelectAll(f));
            && served <= cached && (served == cached <==> NothingLost(log, sp, clamp, f))
            && sp.cutoff.value <= sp.GapStart() && forall m :: m in cached ==> m.time < sp.cutoff.value
  {
    hide ServedRows, CachedRows, NothingLost, Matching;
    WhenAClampLosesNothing(log, sp, clamp, f, pq, now);
    ServedAreCached(log, sp, clamp, f);
    CachedIsEarly(sp, pq, sp.cutoff.value, now, log, f);
  }

  lemma SplitWindowIsTheQuerys(pq: PeriodQuery, cutoff: Option<int>, now: int)
    requires SplitPeriod(pq, cutoff, now).Ok?
    ensures ResolveQuery(pq, now) == Ok((SplitPeriod(pq, cutoff, now).value.start, SplitPeriod(pq, cutoff, now).value.end))
  {
  }

  lemma FewerAreUnique(some: set<Message>, all: set<Message>)
    requires some <= all && UniqueIds(all)
    ensures UniqueIds(some)
  {
  }

  /** The total of a list is the number of its rows. */
  lemma ListTotal(rows: set<Message>, offset: nat, limit: nat, sort: MessageSort)
    requires UniqueIds(rows)
    ensures ListFrom(rows, offset, limit, sort).total == |rows|
  {
    hide UniqueIds;
    assert rows + {} == rows;
    PartsAreOrdered(rows, {}, sort);
  }

  lemma PageTotal(rows: set<Message>, page: int, limit: int, sort: MessageSort)
    requires UniqueIds(rows) && 1 <= page && 1 <= limit
    ensures PageOf(rows, page, limit, sort).total == |rows|
  {
    hide UniqueIds;
    assert rows + {} == rows;
    PartsAreOrdered(rows, {}, sort);
  }

  lemma SameSize(some: set<Message>, all: set<Message>, others: set<Message>)
    requires some <= all && all !! others
    ensures |some| + |others| == |all + others| <==> some == all
  {
    assert |all + others| == |all| + |others|;
    if |some| == |all| {
      EqualSizes(some, all);
    }
  }

  lemma RequestedAreFewer(log: set<Message>, window: (Option<int>, int), f: ModelFilter)
    ensures |RequestedRows(log, window.0, window.1, f)| <= |log|
  {
    SubsetIsSmaller(RequestedRows(log, window.0, window.1, f), log);
  }

  // ---- when the page read is the page asked for ----

  /**
   A page of the rows that remain is that page of all rows exactly when the listing of
   all ends before it, or every row left out comes after as many others as reach to its end.
   */
  lemma WhenALossIsNotSeen(some: set<Message>, all: set<Message>, offset: nat, limit: nat, sort: MessageSort)
    requires some <= all && UniqueIds(all) && 1 <= limit
    ensures ListFrom(some, offset, limit, sort).messages == ListFrom(all, offset, limit, sort).messages
            <==> |all| <= offset || forall m :: m in all - some ==> Preceded(Order(sort), some, m, offset + limit)
  {
    hide StrictOrder, Lists, Listing, Order, Preceded, UniqueIds, MessageLess;
    var less := Order(sort);
    FewerAreUnique(some, all);
    MessagesAreOrdered(all, sort);
    MessagesAreOrdered(some, sort);
    ListingLists(less, all);
    ListingLists(less, some);
    ListedIs(less, Listing(less, all), all);
    WhenThePageIsExact(less, all, Listing(less, all), some, Listing(less, some), offset, offset + limit);
  }

  /**
   The rows from an offset are the rows of the page exactly when the page's product
   fits 64 bits or the offset it wrapped to is past the end.
   */
  lemma WhenTheListIsThePage(rows: set<Message>, offset: nat, page: int, limit: int, sort: MessageSort)
    requires UniqueIds(rows) && |rows| <= MAX_PAGE_OFFSET && 1 <= page && 1 <= limit <= 100
    requires (page - 1) * limit <= MAX_INT ==> offset == (page - 1) * limit
    ensures ListFrom(rows, offset, limit, sort) == PageOf(rows, page, limit, sort)
            <==> (page - 1) * limit <= MAX_INT || |rows| <= offset
  {
    hide UniqueIds, Listing, Order;
    assert rows + {} == rows;
    PartsAreOrdered(rows, {}, sort);
    WhenThePageOffsetIsExact(page, limit);
    var full := Listing(Order(sort), rows);
    if MAX_INT < (page - 1) * limit {
      assert Slice(full, (page - 1) * limit, page * limit) == [];
      assert |Slice(full, offset, offset + limit)| == Least(offset + limit, |full|) - Least(offset, |full|);
    }
  }

  /**
   A request serves the page asked for exactly when its offset is the page's own, or lies
   past the end anyway, and a merged page reaches to its end.
   */
  lemma WhenTheServedPageIsTheAskedOne(rows: set<Message>, sp: SplitWindows, page: int, limit: int, sort: MessageSort)
    requires UniqueIds(rows) && |rows| <= MAX_PAGE_OFFSET && 1 <= page && 1 <= limit <= 100
    ensures var product := (page - 1) * limit;
            var offset := if sp.hasLive then PageOffset(page, limit) else StatementOffset(page, limit);
            PageRead(rows, sp, page, limit, sort) == Page(PageOf(rows, page, limit, sort))
            <==> !sp.hasCache
                 || ((product <= MAX_INT || |rows| <= offset)
                     && (sp.hasLive ==> Reaches(offset + limit, sort)))
  {
    hide UniqueIds, ListFrom, PageOf, PageOffset, StatementOffset;
    WhenThePageOffsetIsExact(page, limit);
    WhenTheListIsThePage(rows, PageOffset(page, limit), page, limit, sort);
    WhenTheListIsThePage(rows, StatementOffset(page, limit), page, limit, sort);
  }

  const MAX_PAGE_QUERY: nat := 100000

  /** Every page a web request can ask for is the page it gets. */
  lemma WebPagesAreExact(rows: set<Message>, sp: SplitWindows, page: int, limit: int, sort: MessageSort)
    requires UniqueIds(rows) && |rows| <= MAX_PAGE_OFFSET
    requires 1 <= page <= MAX_PAGE_QUERY && 1 <= limit <= 100
    ensures PageRead(rows, sp, page, limit, sort) == Page(PageOf(rows, page, limit, sort))
  {
    hide UniqueIds, PageRead, PageOf, PageOffset, StatementOffset;
    WebProduct(page, limit);
    WhenThePageOffsetIsExact(page, limit);
    WhenTheServedPageIsTheAskedOne(rows, sp, page, limit, sort);
  }

  lemma WebProduct(page: int, limit: int)
    requires 1 <= page <= MAX_PAGE_QUERY && 1 <= limit <= 100
    ensures 0 <= (page - 1) * limit <= MAX_PAGE_QUERY * 100 && (page - 1) * limit + limit <= MAX_RESERVED
  {
    var before, room := page - 1, 100 - limit;
    assert before * room >= 0;
    assert before * limit == before * (100 - room) == before * 100 - before * room;
  }

  /** A caller that passes larger pages may be served the first one under another number, by either offset. */
  lemma AnOverflowedPageCanReadAsTheFirst(rows: set<Message>, sort: MessageSort)
    ensures MergedFrom(rows, PageOffset(0x4000_0000_0000_0001, 4), 4, sort) == MergedFrom(rows, PageOffset(1, 4), 4, sort)
    ensures ListFrom(rows, StatementOffset(0x2000_0000_0000_0001, 4), 4, sort) == ListFrom(rows, StatementOffset(1, 4), 4, sort)
  {
    assert (0x4000_0000_0000_0001 - 1) * 4 == 0x1_0000_0000_0000_0000;
    assert (0x2000_0000_0000_0001 - 1) * 4 == 0x8000_0000_0000_0000;
  }

  /** Or crash the read: the page's offset still fits, and its end does not. */
  lemma APageCanCrash(rows: set<Message>, sort: MessageSort)
    requires sort.field != ByTime || !sort.ascending
    ensures PageOffset(92233720368547759, 100) == (92233720368547759 - 1) * 100
    ensures MergedFrom(rows, PageOffset(92233720368547759, 100), 100, sort) == Crashed
  {
  }

  /**
   A product that wraps negative is replaced by an offset past every list, so that the page
   comes back empty; under a sort other than by time that offset crashes the read instead.
   */
  lemma TheSentinelCrashesOtherSorts(rows: set<Message>, page: int, limit: int, sort: MessageSort)
    requires 1 <= page && 1 <= limit <= 100 && Wrap64((page - 1) * limit) < 0
    ensures PageOffset(page, limit) == MAX_PAGE_OFFSET
    ensures MergedFrom(rows, PageOffset(page, limit), limit, sort)
            == if sort.field == ByTime then Page(ListFrom(rows, MAX_PAGE_OFFSET, limit, sort)) else Crashed
  {
  }

  /** One such page: under a sort by cost it crashes the read. */
  lemma APageOfWrappedProductCrashes(rows: set<Message>, ascending: bool)
    ensures MergedFrom(rows, PageOffset(0x2000_0000_0000_0001, 4), 4, MessageSort(ByCost, ascending)) == Crashed
  {
  }

  lemma RequestedAreUnique(log: set<Message>, window: (Option<int>, int), f: ModelFilter)
    requires UniqueIds(log)
    ensures UniqueIds(RequestedRows(log, window.0, window.1, f))
  {
  }

  lemma CachedIsEarly(sp: SplitWindows, pq: PeriodQuery, cutoff: int, now: int, log: set<Message>, f: ModelFilter)
    requires SplitPeriod(pq, Some(cutoff), now) == Ok(sp)
    ensures forall m :: m in Matching(CachedRows(log, sp), SelectAll(f)) ==> m.time < cutoff
    ensures cutoff <= sp.GapStart()
  {
    CacheEndsByTheCutoff(sp, pq, cutoff, now);
  }
}
