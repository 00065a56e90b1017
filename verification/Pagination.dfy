/** Cursor pagination of message history: the keyset query and the page envelope. */
module Pagination {
  import opened DmIdentity
  import opened CursorCodec

  const DEFAULT_LIMIT: nat := 50
  const MAX_LIMIT: nat := 100

  datatype Page = Page(items: seq<Key>, nextCursor: Option<string>)

  /** A message row; `home` is its channel or its sender and recipient. */
  datatype Message = Message(createdAt: Micros, home: Subject, deleted: bool)

  /** Committed message rows by primary key. */
  type Table = map<Uuid, Message>

  /** The history query's partition and soft-delete clauses. */
  predicate Selects(conversation: Subject, m: Message) {
    && !m.deleted
    && (conversation.Channel? ==> m.home == conversation)
    && (conversation.Dm? ==> m.home.Dm? && InDmHistory(m.home.a, m.home.b, conversation.a, conversation.b))
    && (conversation.Channel? || conversation.Dm?)
  }

  function Visible(t: Table, conversation: Subject): set<Key> {
    set id | id in t && Selects(conversation, t[id]) :: Key(t[id].createdAt, id)
  }

  /** A conversation's history holds exactly the live messages published on its topic. */
  lemma SelectsByTopic(conversation: Subject, m: Message)
    requires conversation.Channel? || conversation.Dm?
    ensures Selects(conversation, m) <==> !m.deleted && Topic(m.home) == Topic(conversation)
  {
    TopicsNeverCollide(m.home, conversation);
    if conversation.Dm? && m.home.Dm? {
      HistoryIsTheTopic(m.home.a, m.home.b, conversation.a, conversation.b);
    }
  }

  // ---- Keyset order ----

  /** `(created_at, id) < (created_at, id)`, as a row comparison. */
  predicate Below(k: Key, l: Key) {
    k.createdAt < l.createdAt || (k.createdAt == l.createdAt && k.id < l.id)
  }

  predicate Past(k: Key, cursor: Option<Key>) {
    cursor.Some? ==> Below(k, cursor.value)
  }

  ghost predicate Descending(s: seq<Key>) {
    forall i, j | 0 <= i < j < |s| :: Below(s[j], s[i])
  }

  ghost predicate IsGreatest(vis: set<Key>, top: Key) {
    top in vis && forall k | k in vis :: k == top || Below(k, top)
  }

  lemma {:induction false} GreatestExists(vis: set<Key>)
    requires vis != {}
    ensures exists top :: IsGreatest(vis, top)
  {
    var k :| k in vis;
    if vis == {k} {
      assert IsGreatest(vis, k);
    } else {
      GreatestExists(vis - {k});
      var top :| IsGreatest(vis - {k}, top);
      var best := if Below(top, k) then k else top;
      forall l | l in vis ensures l == best || Below(l, best) {
        assert l == k || l in vis - {k};
      }
      assert IsGreatest(vis, best);
    }
  }

  /** Descending, and exactly the keys of the set. */
  ghost predicate IsSorting(s: seq<Key>, vis: set<Key>) {
    Descending(s) && |s| == |vis| && forall k :: k in s <==> k in vis
  }

  lemma {:induction false} SortingExists(vis: set<Key>)
    ensures exists s :: IsSorting(s, vis)
  {
    if vis == {} {
      assert IsSorting([], vis);
    } else {
      GreatestExists(vis);
      var top :| IsGreatest(vis, top);
      SortingExists(vis - {top});
      var rest :| IsSorting(rest, vis - {top});
      forall j | 0 <= j < |rest| ensures Below(rest[j], top) {
        assert rest[j] in vis - {top};
      }
      assert IsSorting([top] + rest, vis);
    }
  }

  /** `ORDER BY created_at DESC, id DESC`: the whole set, greatest key first; there is one such sequence. */
  ghost function Sorted(vis: set<Key>): seq<Key> {
    SortingExists(vis);
    var s :| IsSorting(s, vis);
    s
  }

  lemma SortedHolds(vis: set<Key>)
    ensures Descending(Sorted(vis)) && |Sorted(vis)| == |vis|
    ensures forall k :: k in Sorted(vis) <==> k in vis
  {
    assert IsSorting(Sorted(vis), vis);
  }

  /** A descending sequence is determined by its elements. */
  lemma {:induction false} DescendingIsUnique(s: seq<Key>, t: seq<Key>)
    requires Descending(s) && Descending(t)
    requires forall k :: k in s <==> k in t
    ensures s == t
  {
    if t != [] {
      assert t[0] in t;
    }
    if s != [] {
      assert s[0] in t && t[0] in s;
      FirstIsGreatest(s);
      FirstIsGreatest(t);
      assert s[0] == t[0];
      forall k ensures k in s[1..] <==> k in t[1..] {
        TailElements(s, k);
        TailElements(t, k);
      }
      DescendingIsUnique(s[1..], t[1..]);
    }
  }

  lemma FirstIsGreatest(s: seq<Key>)
    requires s != [] && Descending(s)
    ensures forall k | k in s :: k == s[0] || Below(k, s[0])
  {
  }

  lemma TailElements(s: seq<Key>, k: Key)
    requires s != [] && Descending(s)
    ensures k in s[1..] <==> k in s && k != s[0]
  {
  }

  // ---- One page ----

  function ResolveLimit(raw: Option<int>): (r: Result<nat>)
    ensures r.Ok? <==> raw.None? || raw.value >= 1
    ensures raw.None? ==> r == Ok(50)
    ensures raw.Some? && 1 <= raw.value <= 100 ==> r == Ok(raw.value)
    ensures raw.Some? && raw.value > 100 ==> r == Ok(100)
    ensures r.Err? ==> r.error.field == "limit"
  {
    if raw.None? then Ok(DEFAULT_LIMIT)
    else if raw.value < 1 then Err(PaginationError("limit", "limit must be a positive integer"))
    else Ok(if raw.value < MAX_LIMIT then raw.value else MAX_LIMIT)
  }

  function Remaining(vis: set<Key>, cursor: Option<Key>): set<Key> {
    set k | k in vis && Past(k, cursor)
  }

  /** The keyset query: `WHERE` past the cursor, ordered, at most `n` rows. */
  ghost function Fetch(vis: set<Key>, cursor: Option<Key>, n: nat): seq<Key> {
    var rows := Sorted(Remaining(vis, cursor));
    if |rows| <= n then rows else rows[..n]
  }

  function SplitKeysetPage(rows: seq<Key>, limit: nat): (seq<Key>, bool) {
    (if |rows| <= limit then rows else rows[..limit], |rows| > limit)
  }

  function BuildPage(items: seq<Key>, hasMore: bool): Page {
    Page(items, if hasMore && items != [] then Some(EncodeCursor(items[|items| - 1])) else None)
  }

  function PaginateRows(rows: seq<Key>, limit: nat): Page {
    var (items, hasMore) := SplitKeysetPage(rows, limit);
    BuildPage(items, hasMore)
  }

  function ParseCursor(raw: Option<string>): Result<Option<Key>> {
    match raw
    case None => Ok(None)
    case Some(s) => match DecodeCursor(s)
      case Ok(key) => Ok(Some(key))
      case Err(e) => Err(e)
  }

  /** One history request, as the channel and DM endpoints answer it. */
  ghost function HistoryPage(t: Table, conversation: Subject, limit: Option<int>, cursor: Option<string>): Result<Page> {
    match ResolveLimit(limit)
    case Err(e) => Err(e)
    case Ok(n) => match ParseCursor(cursor)
      case Err(e) => Err(e)
      case Ok(position) => Ok(PaginateRows(Fetch(Visible(t, conversation), position, n + 1), n))
  }

  /** Nothing that remains comes before the end of `items` without being among them. */
  ghost predicate LeavesOnlyBelow(items: seq<Key>, rest: set<Key>)
  {
    items != [] && forall k | k in rest :: k in items || Below(k, items[|items| - 1])
  }

  /** What one page is: the greatest of the rows that remain, all of them unless there are more. */
  ghost predicate IsBlock(items: seq<Key>, more: bool, rest: set<Key>, limit: nat) {
    && Descending(items)
    && (forall k | k in items :: k in rest)
    && (if more then |items| == limit && limit < |rest| && LeavesOnlyBelow(items, rest)
        else |items| == |rest| <= limit && forall k | k in rest :: k in items)
  }

  lemma PrefixLeavesBelow(all: seq<Key>, rest: set<Key>, n: nat)
    requires Descending(all) && (forall k :: k in all <==> k in rest) && 1 <= n <= |all|
    ensures LeavesOnlyBelow(all[..n], rest)
  {
  }

  lemma SplitFetch(rows: seq<Key>, fetched: seq<Key>, limit: nat)
    requires fetched == if |rows| <= limit + 1 then rows else rows[..limit + 1]
    ensures SplitKeysetPage(fetched, limit) == (if |rows| <= limit then rows else rows[..limit], |rows| > limit)
  {
    if |rows| > limit + 1 {
      assert rows[..limit + 1][..limit] == rows[..limit];
    }
  }

  lemma FetchIsBlock(vis: set<Key>, cursor: Option<Key>, limit: nat)
    requires limit >= 1
    ensures var (items, more) := SplitKeysetPage(Fetch(vis, cursor, limit + 1), limit);
      IsBlock(items, more, Remaining(vis, cursor), limit)
  {
    var rest := Remaining(vis, cursor);
    var all := Sorted(rest);
    SortedHolds(rest);
    SplitFetch(all, Fetch(vis, cursor, limit + 1), limit);
    if |all| > limit {
      PrefixLeavesBelow(all, rest, limit);
    }
  }
}
