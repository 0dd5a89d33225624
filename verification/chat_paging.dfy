/** Cursor pagination of a conversation's messages. */
module ChatPaging {
  import opened Money

  type Id = nat

  datatype Message = Message(id: Id, conversation: nat, createdAt: int)

  // ---------------------------------------------------------------------------------------------
  // The queries
  // ---------------------------------------------------------------------------------------------

  /** Rows of one conversation, in table order. */
  function InConversation(table: seq<Message>, conversation: nat): seq<Message> {
    if table == [] then []
    else
      var rest := InConversation(table[1..], conversation);
      if table[0].conversation == conversation then [table[0]] + rest else rest
  }

  /** Rows created strictly before a time. */
  function Older(rows: seq<Message>, time: int): (older: seq<Message>)
    ensures |older| <= |rows|
    ensures forall m | m in older :: m in rows && m.createdAt < time
    ensures forall m | m in rows && m.createdAt < time :: m in older
  {
    if rows == [] then []
    else
      var rest := Older(rows[1..], time);
      if rows[0].createdAt < time then [rows[0]] + rest else rest
  }

  function Insert(m: Message, sorted: seq<Message>): seq<Message> {
    if sorted == [] || sorted[0].createdAt <= m.createdAt then [m] + sorted
    else [sorted[0]] + Insert(m, sorted[1..])
  }

  /** `ORDER BY "createdAt" DESC`, messages of one time in the table's order. */
  function NewestFirst(rows: seq<Message>): seq<Message> {
    if rows == [] then [] else Insert(rows[0], NewestFirst(rows[1..]))
  }

  function Limit(rows: seq<Message>, n: nat): seq<Message> {
    if |rows| <= n then rows else rows[..n]
  }

  /** The row with an identifier, looked up within one conversation. */
  function Find(table: seq<Message>, conversation: nat, id: Id): (found: Option<Message>)
    ensures found.Some? ==>
      found.value in table && found.value.id == id && found.value.conversation == conversation
    ensures found.None? ==> forall m | m in table :: m.id != id || m.conversation != conversation
  {
    if table == [] then None
    else if table[0].id == id && table[0].conversation == conversation then Some(table[0])
    else Find(table[1..], conversation, id)
  }

  /** The rows a cursor leaves to show; none when it names no message of the conversation. */
  function Matching(table: seq<Message>, conversation: nat, cursor: Option<Id>): seq<Message> {
    match cursor
    case None => InConversation(table, conversation)
    case Some(id) =>
      match Find(table, conversation, id)
      case None => []
      case Some(at) => Older(InConversation(table, conversation), at.createdAt)
  }

  datatype Page = Page(messages: seq<Message>, nextCursor: Option<Id>, hasMore: bool)

  /** What `getMessages` makes of the rows, of which it asked for one more than a page holds. */
  function PageOf(messages: seq<Message>, limit: nat): Page
    requires 1 <= limit
  {
    var hasMore := |messages| > limit;
    var results := if hasMore then messages[..limit] else messages;
    Page(results, if hasMore then Some(results[|results| - 1].id) else None, hasMore)
  }

  predicate Descending(rows: seq<Message>) {
    forall i, j | 0 <= i < j < |rows| :: rows[i].createdAt >= rows[j].createdAt
  }

  /** An order the database may give the rows: by time, messages of one time in any order. */
  ghost predicate IsOrdered(rows: seq<Message>, source: seq<Message>) {
    Descending(rows) && multiset(rows) == multiset(source)
  }

  /** A page `getMessages` may return: each query breaks ties as it likes. */
  ghost predicate MayReturn(table: seq<Message>, conversation: nat, cursor: Option<Id>, limit: nat, page: Page)
    requires 1 <= limit
  {
    exists ordered :: IsOrdered(ordered, Matching(table, conversation, cursor))
                      && page == PageOf(Limit(ordered, limit + 1), limit)
  }

  /** The page when ties keep the table's order. */
  function GetMessages(table: seq<Message>, conversation: nat, cursor: Option<Id>, limit: nat): Page
    requires 1 <= limit
  {
    PageOf(Limit(NewestFirst(Matching(table, conversation, cursor)), limit + 1), limit)
  }

  // ---------------------------------------------------------------------------------------------
  // Sorting and filtering
  // ---------------------------------------------------------------------------------------------

  lemma {:induction false} InsertCounts(m: Message, sorted: seq<Message>)
    ensures multiset(Insert(m, sorted)) == multiset(sorted) + multiset{m}
  {
    if sorted != [] && sorted[0].createdAt > m.createdAt {
      InsertCounts(m, sorted[1..]);
      assert sorted == [sorted[0]] + sorted[1..];
    }
  }

  lemma {:induction false} InsertDescends(m: Message, sorted: seq<Message>)
    requires Descending(sorted)
    ensures Descending(Insert(m, sorted))
  {
    if sorted != [] && sorted[0].createdAt > m.createdAt {
      var first, inserted := sorted[0], Insert(m, sorted[1..]);
      InsertDescends(m, sorted[1..]);
      InsertCounts(m, sorted[1..]);
      forall i | 0 <= i < |inserted| ensures inserted[i].createdAt <= first.createdAt {
        assert inserted[i] in multiset(inserted);
        assert inserted[i] == m || inserted[i] in sorted[1..];
      }
    }
  }

  /** The query's order is descending and neither drops nor repeats a row. */
  lemma {:induction false} NewestFirstSorts(rows: seq<Message>)
    ensures Descending(NewestFirst(rows)) && multiset(NewestFirst(rows)) == multiset(rows)
  {
    if rows != [] {
      NewestFirstSorts(rows[1..]);
      InsertCounts(rows[0], NewestFirst(rows[1..]));
      InsertDescends(rows[0], NewestFirst(rows[1..]));
      assert rows == [rows[0]] + rows[1..];
    }
  }

  lemma {:induction false} OlderCounts(rows: seq<Message>, time: int, m: Message)
    ensures multiset(Older(rows, time))[m] == if m.createdAt < time then multiset(rows)[m] else 0
  {
    if rows != [] {
      OlderCounts(rows[1..], time, m);
      assert rows == [rows[0]] + rows[1..];
    }
  }

  /** Which rows are older does not depend on their order. */
  lemma OlderOfOrdered(ordered: seq<Message>, source: seq<Message>, time: int)
    requires multiset(ordered) == multiset(source)
    ensures multiset(Older(ordered, time)) == multiset(Older(source, time))
  {
    forall m ensures multiset(Older(ordered, time))[m] == multiset(Older(source, time))[m] {
      OlderCounts(ordered, time, m);
      OlderCounts(source, time, m);
    }
  }

  lemma SameSize(a: seq<Message>, b: seq<Message>)
    requires multiset(a) == multiset(b)
    ensures |a| == |b|
  {
    assert |multiset(a)| == |a| && |multiset(b)| == |b|;
  }

  /** In descending rows the older ones are a suffix. */
  lemma {:induction false} OlderIsSuffix(rows: seq<Message>, time: int, from: nat)
    requires Descending(rows) && from <= |rows|
    requires forall i | 0 <= i < from :: rows[i].createdAt >= time
    requires from < |rows| ==> rows[from].createdAt < time
    ensures Older(rows, time) == rows[from..]
  {
    if from > 0 {
      OlderIsSuffix(rows[1..], time, from - 1);
      assert rows[1..][from - 1..] == rows[from..];
    } else if rows != [] {
      AllOlder(rows, time);
      assert rows[0..] == rows;
    }
  }

  lemma {:induction false} AllOlder(rows: seq<Message>, time: int)
    requires forall m | m in rows :: m.createdAt < time
    ensures Older(rows, time) == rows
  {
    if rows != [] {
      AllOlder(rows[1..], time);
      assert rows == [rows[0]] + rows[1..];
    }
  }

  lemma {:induction false} InConversationMembers(table: seq<Message>, conversation: nat)
    ensures forall m :: m in InConversation(table, conversation) <==> m in table && m.conversation == conversation
  {
    if table != [] {
      InConversationMembers(table[1..], conversation);
      assert table == [table[0]] + table[1..];
    }
  }

  // ---------------------------------------------------------------------------------------------
  // Following the cursor
  // ---------------------------------------------------------------------------------------------

  predicate DistinctIds(table: seq<Message>) {
    forall i, j | 0 <= i < j < |table| :: table[i].id != table[j].id
  }

  predicate DistinctTimes(rows: seq<Message>) {
    forall i, j | 0 <= i < j < |rows| :: rows[i].createdAt != rows[j].createdAt
  }

  /** The first row below the last one of the page. */
  function NextStart(rows: seq<Message>, limit: nat, from: nat): (start: nat)
    requires 1 <= limit <= from <= |rows| && Descending(rows)
    requires forall i | 0 <= i < from :: rows[i].createdAt >= rows[limit - 1].createdAt
    ensures from <= start <= |rows|
    ensures forall i | 0 <= i < start :: rows[i].createdAt >= rows[limit - 1].createdAt
    ensures start < |rows| ==> rows[start].createdAt < rows[limit - 1].createdAt
    ensures from < |rows| && rows[from].createdAt >= rows[limit - 1].createdAt ==> from < start
    decreases |rows| - from
  {
    if from == |rows| || rows[from].createdAt < rows[limit - 1].createdAt then from
    else NextStart(rows, limit, from + 1)
  }

  /** What lies below a full page is a suffix, the one behind the page exactly when no tie is cut. */
  lemma BelowThePage(rows: seq<Message>, limit: nat)
    requires 1 <= limit < |rows| && Descending(rows)
    ensures
      var below := Older(rows, rows[limit - 1].createdAt);
      && Descending(below) && |below| <= |rows| - limit
      && (if rows[limit].createdAt == rows[limit - 1].createdAt then |below| < |rows| - limit
          else below == rows[limit..])
  {
    var start := NextStart(rows, limit, limit);
    OlderIsSuffix(rows, rows[limit - 1].createdAt, start);
  }

  lemma CursorFinds(table: seq<Message>, conversation: nat, m: Message)
    requires DistinctIds(table) && m in table && m.conversation == conversation
    ensures Find(table, conversation, m.id) == Some(m)
  {
  }

  lemma MatchingMembers(table: seq<Message>, conversation: nat, cursor: Option<Id>, m: Message)
    requires m in Matching(table, conversation, cursor)
    ensures m in table && m.conversation == conversation && m in InConversation(table, conversation)
    ensures cursor.Some? ==>
      var at := Find(table, conversation, cursor.value);
      at.Some? && m.createdAt < at.value.createdAt
  {
    InConversationMembers(table, conversation);
  }

  lemma {:induction false} OlderTwice(rows: seq<Message>, later: int, earlier: int)
    requires earlier <= later
    ensures Older(Older(rows, later), earlier) == Older(rows, earlier)
  {
    if rows != [] {
      OlderTwice(rows[1..], later, earlier);
      if rows[0].createdAt < later {
        assert ([rows[0]] + Older(rows[1..], later))[1..] == Older(rows[1..], later);
      }
    }
  }

  /** What a message shown leaves as the next cursor: what the current one leaves, strictly below it. */
  lemma NextMatching(table: seq<Message>, conversation: nat, cursor: Option<Id>, last: Message)
    requires DistinctIds(table) && last in Matching(table, conversation, cursor)
    ensures Matching(table, conversation, Some(last.id))
         == Older(Matching(table, conversation, cursor), last.createdAt)
  {
    MatchingMembers(table, conversation, cursor, last);
    CursorFinds(table, conversation, last);
    if cursor.Some? {
      var at := Find(table, conversation, cursor.value).value.createdAt;
      OlderTwice(InConversation(table, conversation), at, last.createdAt);
    }
  }

  /** A client follows `nextCursor` until `hasMore` is false; every query may break ties differently. */
  ghost predicate IsFollowing(
    table: seq<Message>, conversation: nat, cursor: Option<Id>, limit: nat, pages: seq<Page>)
    requires 1 <= limit
    decreases |pages|
  {
    && pages != [] && MayReturn(table, conversation, cursor, limit, pages[0])
    && (if pages[0].hasMore then IsFollowing(table, conversation, pages[0].nextCursor, limit, pages[1..])
        else |pages| == 1)
  }

  function Shown(pages: seq<Page>): seq<Message> {
    if pages == [] then [] else pages[0].messages + Shown(pages[1..])
  }

  lemma FullPage(ordered: seq<Message>, limit: nat)
    requires 1 <= limit < |ordered|
    ensures PageOf(Limit(ordered, limit + 1), limit) == Page(ordered[..limit], Some(ordered[limit - 1].id), true)
  {
    assert ordered[..limit + 1][..limit] == ordered[..limit];
  }

  /** What the cursor of a full page leaves. */
  lemma BehindFullPage(
    table: seq<Message>, conversation: nat, cursor: Option<Id>, limit: nat, ordered: seq<Message>)
    requires DistinctIds(table) && 1 <= limit < |ordered|
    requires IsOrdered(ordered, Matching(table, conversation, cursor))
    ensures
      var last := ordered[limit - 1];
      var next := Matching(table, conversation, Some(last.id));
      IsOrdered(Older(ordered, last.createdAt), next) && |next| < |Matching(table, conversation, cursor)|
  {
    var source, last := Matching(table, conversation, cursor), ordered[limit - 1];
    assert last in source by { assert last in multiset(ordered); }
    NextMatching(table, conversation, cursor, last);
    BelowThePage(ordered, limit);
    OlderOfOrdered(ordered, source, last.createdAt);
    SameSize(ordered, source);
    SameSize(Older(ordered, last.createdAt), Older(source, last.createdAt));
  }

  /** The pages when ties keep the table's order: following always ends. */
  function Follow(table: seq<Message>, conversation: nat, cursor: Option<Id>, limit: nat): seq<Page>
    requires DistinctIds(table) && 1 <= limit
    decreases |Matching(table, conversation, cursor)|
  {
    var source := Matching(table, conversation, cursor);
    var ordered := NewestFirst(source);
    var page := GetMessages(table, conversation, cursor, limit);
    if |ordered| <= limit then [page]
    else
      NewestFirstSorts(source);
      FullPage(ordered, limit);
      BehindFullPage(table, conversation, cursor, limit, ordered);
      [page] + Follow(table, conversation, page.nextCursor, limit)
  }

  lemma {:induction false} FollowIsFollowing(table: seq<Message>, conversation: nat, cursor: Option<Id>, limit: nat)
    requires DistinctIds(table) && 1 <= limit
    ensures IsFollowing(table, conversation, cursor, limit, Follow(table, conversation, cursor, limit))
    decreases |Matching(table, conversation, cursor)|
  {
    var source := Matching(table, conversation, cursor);
    var ordered := NewestFirst(source);
    NewestFirstSorts(source);
    assert IsOrdered(ordered, source);
    if |ordered| > limit {
      FullPage(ordered, limit);
      BehindFullPage(table, conversation, cursor, limit, ordered);
      FollowIsFollowing(table, conversation, Some(ordered[limit - 1].id), limit);
      assert Follow(table, conversation, cursor, limit)[1..]
          == Follow(table, conversation, Some(ordered[limit - 1].id), limit);
    }
  }

  /** No two messages of the same time are split between pages. */
  predicate NoTieSplit(rows: seq<Message>, limit: nat)
    requires 1 <= limit
  {
    forall i | 0 < i < |rows| && i % limit == 0 :: rows[i - 1].createdAt != rows[i].createdAt
  }

  lemma ShiftMultiple(i: int, limit: nat)
    requires 1 <= limit
    ensures (i + limit) % limit == i % limit
  {
    var q, r := i / limit, i % limit;
    assert i + limit == (q + 1) * limit + r;
    UniqueRemainder(i + limit, limit, q + 1, r);
  }

  lemma UniqueRemainder(n: int, d: nat, q: int, r: nat)
    requires 1 <= d && n == q * d + r && r < d
    ensures n % d == r
  {
    var k := n / d - q;
    assert k * d == r - n % d;
  }

  lemma SplitTail(rows: seq<Message>, limit: nat)
    requires 1 <= limit < |rows|
    ensures NoTieSplit(rows, limit)
       <==> rows[limit - 1].createdAt != rows[limit].createdAt && NoTieSplit(rows[limit..], limit)
  {
    var tail := rows[limit..];
    UniqueRemainder(limit, limit, 1, 0);
    if NoTieSplit(rows, limit) {
      forall i | 0 < i < |tail| && i % limit == 0 ensures tail[i - 1].createdAt != tail[i].createdAt {
        ShiftMultiple(i, limit);
        assert rows[i + limit - 1].createdAt != rows[i + limit].createdAt;
      }
    }
    if rows[limit - 1].createdAt != rows[limit].createdAt && NoTieSplit(tail, limit) {
      forall i | 0 < i < |rows| && i % limit == 0 ensures rows[i - 1].createdAt != rows[i].createdAt {
        ShiftMultiple(i - limit, limit);
        if i < limit {
          UniqueRemainder(i, limit, 0, i);
        } else if i > limit {
          assert tail[i - limit - 1].createdAt != tail[i - limit].createdAt;
        }
      }
    }
  }

  lemma OnePage(rows: seq<Message>, limit: nat)
    requires 1 <= limit && |rows| <= limit
    ensures NoTieSplit(rows, limit)
  {
    forall i | 0 < i < |rows| ensures i % limit != 0 {
      UniqueRemainder(i, limit, 0, i);
    }
  }

  /** The same, page by page. */
  predicate CleanCuts(rows: seq<Message>, limit: nat)
    requires 1 <= limit
    decreases |rows|
  {
    |rows| <= limit || (rows[limit - 1].createdAt != rows[limit].createdAt && CleanCuts(rows[limit..], limit))
  }

  lemma {:induction false} CleanCutsIff(rows: seq<Message>, limit: nat)
    requires 1 <= limit
    ensures CleanCuts(rows, limit) <==> NoTieSplit(rows, limit)
    decreases |rows|
  {
    if |rows| <= limit {
      OnePage(rows, limit);
    } else {
      CleanCutsIff(rows[limit..], limit);
      SplitTail(rows, limit);
    }
  }

  /** Two orderings of the same rows have the same times, place by place. */
  lemma SameTimes(a: seq<Message>, b: seq<Message>, i: nat)
    requires Descending(a) && Descending(b) && multiset(a) == multiset(b) && i < |a|
    ensures |a| == |b| && a[i].createdAt == b[i].createdAt
  {
    SameSize(a, b);
    NotLater(a, b, i);
    NotLater(b, a, i);
  }

  lemma NotLater(a: seq<Message>, b: seq<Message>, i: nat)
    requires Descending(a) && Descending(b) && multiset(a) == multiset(b) && i < |a| == |b|
    ensures a[i].createdAt <= b[i].createdAt
  {
    var time := a[i].createdAt;
    if b[i].createdAt < time {
      OlderOfOrdered(a, b, time);
      SameSize(Older(a, time), Older(b, time));
      OlderFrom(a, time, i + 1);
      OlderAtLeast(b, time, i);
    }
  }

  /** Rows before `from` are not older, so at most the others are. */
  lemma {:induction false} OlderFrom(rows: seq<Message>, time: int, from: nat)
    requires from <= |rows| && forall i | 0 <= i < from :: rows[i].createdAt >= time
    ensures |Older(rows, time)| <= |rows| - from
  {
    if from > 0 {
      OlderFrom(rows[1..], time, from - 1);
    }
  }

  /** Rows from `from` on are older, so at least they are. */
  lemma {:induction false} OlderAtLeast(rows: seq<Message>, time: int, from: nat)
    requires from <= |rows| && forall i | from <= i < |rows| :: rows[i].createdAt < time
    ensures |Older(rows, time)| >= |rows| - from
  {
    if rows != [] {
      OlderAtLeast(rows[1..], time, if from > 0 then from - 1 else 0);
    }
  }

  lemma {:induction false} CleanCutsSame(a: seq<Message>, b: seq<Message>, limit: nat)
    requires 1 <= limit && |a| == |b| && forall i | 0 <= i < |a| :: a[i].createdAt == b[i].createdAt
    ensures CleanCuts(a, limit) <==> CleanCuts(b, limit)
    decreases |a|
  {
    if |a| > limit {
      CleanCutsSame(a[limit..], b[limit..], limit);
    }
  }

  lemma OrderingsCutAlike(a: seq<Message>, b: seq<Message>, source: seq<Message>, limit: nat)
    requires 1 <= limit && IsOrdered(a, source) && IsOrdered(b, source)
    ensures |a| == |b| == |source| && (CleanCuts(a, limit) <==> CleanCuts(b, limit))
  {
    SameSize(a, b);
    SameSize(a, source);
    forall i | 0 <= i < |a| ensures a[i].createdAt == b[i].createdAt {
      SameTimes(a, b, i);
    }
    CleanCutsSame(a, b, limit);
  }

  /** What following a cursor shows: ordered rows of the source, all of them exactly when no tie is cut. */
  ghost predicate Shows(shown: seq<Message>, source: seq<Message>, clean: bool) {
    && Descending(shown) && multiset(shown) <= multiset(source)
    && (multiset(shown) == multiset(source) <==> clean)
  }

  lemma Joined(a: seq<Message>, b: seq<Message>, time: int)
    requires Descending(a) && Descending(b)
    requires (forall i | 0 <= i < |a| :: a[i].createdAt >= time) && forall i | 0 <= i < |b| :: b[i].createdAt < time
    ensures Descending(a + b)
  {
  }

  lemma MembersOf(some: seq<Message>, source: seq<Message>, i: nat)
    requires multiset(some) <= multiset(source) && i < |some|
    ensures some[i] in source
  {
    assert some[i] in multiset(some);
    assert some[i] in multiset(source);
  }

  lemma PageThenRestDescends(ordered: seq<Message>, rest: seq<Message>, limit: nat)
    requires 1 <= limit < |ordered| && Descending(ordered) && Descending(rest)
    requires multiset(rest) <= multiset(Older(ordered, ordered[limit - 1].createdAt))
    ensures Descending(ordered[..limit] + rest)
  {
    var time := ordered[limit - 1].createdAt;
    forall i | 0 <= i < |rest| ensures rest[i].createdAt < time {
      MembersOf(rest, Older(ordered, time), i);
    }
    Joined(ordered[..limit], rest, time);
  }

  /** What the rest shows are all the rows behind the page exactly when no tie was cut and it shows all it was left. */
  lemma RestIsAllIff(ordered: seq<Message>, rest: seq<Message>, limit: nat)
    requires 1 <= limit < |ordered| && Descending(ordered)
    requires
      var below := Older(ordered, ordered[limit - 1].createdAt);
      Shows(rest, below, CleanCuts(below, limit))
    ensures multiset(rest) <= multiset(ordered[limit..])
    ensures multiset(rest) == multiset(ordered[limit..]) <==> CleanCuts(ordered, limit)
  {
    var below := Older(ordered, ordered[limit - 1].createdAt);
    BelowThePage(ordered, limit);
    BelowIsBehind(ordered, limit);
    if ordered[limit].createdAt == ordered[limit - 1].createdAt {
      SubsetSize(rest, below);
      if multiset(rest) == multiset(ordered[limit..]) {
        SameSize(rest, ordered[limit..]);
      }
    }
  }

  lemma InFrontOf(
    whole: seq<Message>, page: seq<Message>, rest: seq<Message>, behind: seq<Message>, clean: bool)
    requires whole == page + behind && multiset(rest) <= multiset(behind)
    requires multiset(rest) == multiset(behind) <==> clean
    ensures multiset(page + rest) <= multiset(whole)
    ensures multiset(page + rest) == multiset(whole) <==> clean
  {
    SplitEqual(multiset(page), multiset(rest), multiset(behind));
  }

  /** One full page in front of what the rest shows. */
  lemma PageAndRestCount(ordered: seq<Message>, rest: seq<Message>, limit: nat)
    requires 1 <= limit < |ordered| && Descending(ordered)
    requires
      var below := Older(ordered, ordered[limit - 1].createdAt);
      Shows(rest, below, CleanCuts(below, limit))
    ensures multiset(ordered[..limit] + rest) <= multiset(ordered)
    ensures multiset(ordered[..limit] + rest) == multiset(ordered) <==> CleanCuts(ordered, limit)
  {
    RestIsAllIff(ordered, rest, limit);
    Rejoined(ordered, limit);
    InFrontOf(ordered, ordered[..limit], rest, ordered[limit..], CleanCuts(ordered, limit));
  }

  lemma Rejoined(rows: seq<Message>, n: nat)
    requires n <= |rows|
    ensures rows == rows[..n] + rows[n..]
  {
  }

  lemma SplitEqual(a: multiset<Message>, b: multiset<Message>, c: multiset<Message>)
    ensures a + b == a + c <==> b == c
    ensures b <= c ==> a + b <= a + c
  {
    if a + b == a + c {
      forall m ensures b[m] == c[m] {
        assert (a + b)[m] == a[m] + b[m] && (a + c)[m] == a[m] + c[m];
      }
    }
  }

  lemma SubsetSize(a: seq<Message>, b: seq<Message>)
    requires multiset(a) <= multiset(b)
    ensures |a| <= |b|
  {
    var more := multiset(b) - multiset(a);
    assert multiset(b) == multiset(a) + more;
    assert |multiset(a)| == |a| && |multiset(b)| == |b|;
  }

  lemma BelowIsBehind(ordered: seq<Message>, limit: nat)
    requires 1 <= limit < |ordered| && Descending(ordered)
    ensures multiset(Older(ordered, ordered[limit - 1].createdAt)) <= multiset(ordered[limit..])
  {
    var time, start := ordered[limit - 1].createdAt, NextStart(ordered, limit, limit);
    OlderIsSuffix(ordered, time, start);
    var behind := ordered[limit..];
    assert behind == behind[..start - limit] + behind[start - limit..];
    assert behind[start - limit..] == ordered[start..];
    assert multiset(behind) == multiset(behind[..start - limit]) + multiset(ordered[start..]);
  }

  lemma {:induction false} FollowingShows(
    table: seq<Message>, conversation: nat, cursor: Option<Id>, limit: nat, pages: seq<Page>, ordering: seq<Message>)
    requires DistinctIds(table) && 1 <= limit && IsFollowing(table, conversation, cursor, limit, pages)
    requires IsOrdered(ordering, Matching(table, conversation, cursor))
    ensures Shows(Shown(pages), Matching(table, conversation, cursor), CleanCuts(ordering, limit))
    ensures |pages| <= Max(1, |Matching(table, conversation, cursor)|)
    decreases |pages|
  {
    var source := Matching(table, conversation, cursor);
    var ordered: seq<Message> :| IsOrdered(ordered, source) && pages[0] == PageOf(Limit(ordered, limit + 1), limit);
    OrderingsCutAlike(ordered, ordering, source, limit);
    if |ordered| <= limit {
      assert Shown(pages) == ordered;
    } else {
      var last := ordered[limit - 1];
      var below, next := Older(ordered, last.createdAt), Matching(table, conversation, Some(last.id));
      FullPage(ordered, limit);
      BehindFullPage(table, conversation, cursor, limit, ordered);
      FollowingShows(table, conversation, Some(last.id), limit, pages[1..], below);
      var rest := Shown(pages[1..]);
      assert Shown(pages) == ordered[..limit] + rest;
      PageThenRestDescends(ordered, rest, limit);
      PageAndRestCount(ordered, rest, limit);
    }
  }

  lemma OnlyOneOrder(a: seq<Message>, b: seq<Message>)
    requires Descending(a) && Descending(b) && multiset(a) == multiset(b) && DistinctTimes(b)
    ensures a == b
  {
    SameSize(a, b);
    forall i | 0 <= i < |a| ensures a[i] == b[i] {
      SameTimes(a, b, i);
      assert a[i] in multiset(a);
      assert a[i] in multiset(b);
      var j :| 0 <= j < |b| && b[j] == a[i];
      assert j == i;
    }
  }

  lemma DistinctIsNeverSplit(rows: seq<Message>, limit: nat)
    requires 1 <= limit && DistinctTimes(rows)
    ensures NoTieSplit(rows, limit)
  {
  }

  /**
   * Following the cursor shows messages of the conversation in descending order, none of them twice,
   * in at most as many pages as it has messages, however each query orders messages of one time. They
   * are all shown when and only when no two messages of one time are split between pages; distinct
   * times never are, and then the order is the only one.
   */
  lemma PagingIsCompleteIff(
    table: seq<Message>, conversation: nat, limit: nat, pages: seq<Page>)
    requires DistinctIds(table) && 1 <= limit && IsFollowing(table, conversation, None, limit, pages)
    ensures
      var rows, shown := InConversation(table, conversation), Shown(pages);
      var all := NewestFirst(rows);
      && IsOrdered(all, rows) && |pages| <= Max(1, |rows|)
      && Descending(shown) && multiset(shown) <= multiset(rows)
      && (multiset(shown) == multiset(rows) <==> NoTieSplit(all, limit))
      && (DistinctTimes(all) ==> shown == all)
  {
    var rows, shown := InConversation(table, conversation), Shown(pages);
    var all := NewestFirst(rows);
    NewestFirstSorts(rows);
    assert Shows(shown, rows, CleanCuts(all, limit)) && |pages| <= Max(1, |rows|) by {
      FollowingShows(table, conversation, None, limit, pages, all);
    }
    CleanCutsIff(all, limit);
    if DistinctTimes(all) {
      DistinctIsNeverSplit(all, limit);
      OnlyOneOrder(shown, all);
    }
  }

  /** Two messages of one time, a page each: the second page is empty. */
  lemma TieLosesAMessage()
    ensures
      var first, second := Message(1, 0, 5), Message(2, 0, 5);
      && DistinctIds([first, second])
      && GetMessages([first, second], 0, None, 1) == Page([first], Some(1), true)
      && GetMessages([first, second], 0, Some(1), 1) == Page([], None, false)
  {
    var first, second := Message(1, 0, 5), Message(2, 0, 5);
    var table := [first, second];
    assert table[1..] == [second] && [second][1..] == [];
    assert InConversation([second], 0) == [second];
    assert InConversation(table, 0) == table;
    assert NewestFirst([second]) == [second];
    assert NewestFirst(table) == table;
    assert Older([second], 5) == [];
    assert Older(table, 5) == [];
    assert Find(table, 0, 1) == Some(first);
  }

  // ---------------------------------------------------------------------------------------------
  // Messages that arrive meanwhile
  // ---------------------------------------------------------------------------------------------

  lemma {:induction false} InConversationAppend(table: seq<Message>, m: Message, conversation: nat)
    ensures InConversation(table + [m], conversation)
         == InConversation(table, conversation) + if m.conversation == conversation then [m] else []
  {
    if table == [] {
      assert table + [m] == [m];
    } else {
      InConversationAppend(table[1..], m, conversation);
      assert (table + [m])[1..] == table[1..] + [m];
    }
  }

  lemma {:induction false} OlderAppend(rows: seq<Message>, m: Message, time: int)
    requires m.createdAt >= time
    ensures Older(rows + [m], time) == Older(rows, time)
  {
    if rows == [] {
      assert rows + [m] == [m];
    } else {
      OlderAppend(rows[1..], m, time);
      assert (rows + [m])[1..] == rows[1..] + [m];
    }
  }

  lemma {:induction false} FindAppend(table: seq<Message>, m: Message, conversation: nat, id: Id)
    requires m.id != id
    ensures Find(table + [m], conversation, id) == Find(table, conversation, id)
  {
    if table == [] {
      assert table + [m] == [m];
    } else {
      FindAppend(table[1..], m, conversation, id);
      assert (table + [m])[1..] == table[1..] + [m];
    }
  }

  lemma PrefixIsDistinct(table: seq<Message>, m: Message)
    requires DistinctIds(table + [m])
    ensures DistinctIds(table) && forall x | x in table :: x.id != m.id
  {
    forall i, j | 0 <= i < j < |table| ensures table[i].id != table[j].id {
      assert (table + [m])[i].id != (table + [m])[j].id;
    }
    forall x | x in table ensures x.id != m.id {
      var k :| 0 <= k < |table| && table[k] == x;
      assert (table + [m])[k].id != (table + [m])[|table|].id;
    }
  }

  /** A message no older than the cursor's leaves the rows behind that cursor, and so its pages, as they were. */
  lemma NewMessagesDoNotDisturb(
    table: seq<Message>, conversation: nat, at: Message, m: Message, limit: nat, page: Page)
    requires DistinctIds(table + [m]) && 1 <= limit
    requires at in table && at.conversation == conversation && m.createdAt >= at.createdAt
    ensures Matching(table + [m], conversation, Some(at.id)) == Matching(table, conversation, Some(at.id))
    ensures MayReturn(table + [m], conversation, Some(at.id), limit, page)
       <==> MayReturn(table, conversation, Some(at.id), limit, page)
  {
    PrefixIsDistinct(table, m);
    CursorFinds(table, conversation, at);
    FindAppend(table, m, conversation, at.id);
    InConversationAppend(table, m, conversation);
    var rows := InConversation(table, conversation);
    if m.conversation == conversation {
      OlderAppend(rows, m, at.createdAt);
    } else {
      assert rows + [] == rows;
    }
  }
}
