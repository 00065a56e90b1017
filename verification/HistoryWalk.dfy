/**
  A client that walks a conversation's history by `next_cursor`, while messages are inserted and
  soft-deleted between its requests.
*/
module HistoryWalk {
  import opened DmIdentity
  import opened CursorCodec
  import opened Pagination

  datatype Walked = Walked(items: seq<Key>, pages: nat, ended: bool)

  /** Request pages, each on the table of its moment, until `next_cursor` is null or no request is left. */
  ghost function Walk(tables: seq<Table>, i: nat, conversation: Subject, limit: Option<int>, cursor: Option<string>): Result<Walked>
    requires i <= |tables|
    decreases |tables| - i
  {
    if i == |tables| then Ok(Walked([], 0, false))
    else match HistoryPage(tables[i], conversation, limit, cursor)
      case Err(e) => Err(e)
      case Ok(page) =>
        if page.nextCursor.None? then Ok(Walked(page.items, 1, true))
        else match Walk(tables, i + 1, conversation, limit, page.nextCursor)
          case Err(e) => Err(e)
          case Ok(rest) => Ok(Prefixed(page.items, rest))
  }

  /** The same walk on key sets and key positions, without strings, envelopes or errors. */
  ghost function KeyWalk(vis: seq<set<Key>>, i: nat, limit: nat, cursor: Option<Key>): Walked
    requires i <= |vis| && limit >= 1
    decreases |vis| - i
  {
    if i == |vis| then Walked([], 0, false)
    else
      var (items, more) := PageKeys(vis[i], limit, cursor);
      if !more then Walked(items, 1, true)
      else Prefixed(items, KeyWalk(vis, i + 1, limit, Some(items[|items| - 1])))
  }

  function Prefixed(items: seq<Key>, rest: Walked): Walked {
    Walked(items + rest.items, rest.pages + 1, rest.ended)
  }

  ghost function PageKeys(vis: set<Key>, limit: nat, cursor: Option<Key>): (page: (seq<Key>, bool))
    requires limit >= 1
    ensures page.1 ==> page.0 != []
  {
    FetchIsBlock(vis, cursor, limit);
    SplitKeysetPage(Fetch(vis, cursor, limit + 1), limit)
  }

  lemma PageIsBlock(vis: set<Key>, limit: nat, cursor: Option<Key>)
    requires limit >= 1
    ensures var page := PageKeys(vis, limit, cursor); IsBlock(page.0, page.1, Remaining(vis, cursor), limit)
  {
    FetchIsBlock(vis, cursor, limit);
  }

  /** The walk from page `i` taken apart: its first page, and the walk after it if there are more. */
  lemma Turn(vis: seq<set<Key>>, i: nat, limit: nat, cursor: Option<Key>) returns (items: seq<Key>, more: bool, rest: Walked)
    requires i < |vis| && limit >= 1
    ensures (items, more) == PageKeys(vis[i], limit, cursor)
    ensures !more ==> KeyWalk(vis, i, limit, cursor) == Walked(items, 1, true)
    ensures more ==> items != [] && rest == KeyWalk(vis, i + 1, limit, Some(items[|items| - 1]))
    ensures more ==> KeyWalk(vis, i, limit, cursor) == Prefixed(items, rest)
  {
    items, more := PageKeys(vis[i], limit, cursor).0, PageKeys(vis[i], limit, cursor).1;
    rest := if more then KeyWalk(vis, i + 1, limit, Some(items[|items| - 1])) else Walked([], 0, true);
  }

  lemma Apart(vis: seq<set<Key>>, i: nat, limit: nat, cursor: Option<Key>) returns (items: seq<Key>, more: bool, rest: Walked)
    requires i < |vis| && limit >= 1
    ensures (items, more) == PageKeys(vis[i], limit, cursor)
    ensures IsBlock(items, more, Remaining(vis[i], cursor), limit)
    ensures !more ==> KeyWalk(vis, i, limit, cursor) == Walked(items, 1, true)
    ensures more ==> items != [] && rest == KeyWalk(vis, i + 1, limit, Some(items[|items| - 1]))
    ensures more ==> KeyWalk(vis, i, limit, cursor) == Prefixed(items, rest)
  {
    items, more, rest := Turn(vis, i, limit, cursor);
    PageIsBlock(vis[i], limit, cursor);
  }

  lemma PageFollowsKeys(t: Table, conversation: Subject, limit: Option<int>, cursor: Option<string>)
    requires ResolveLimit(limit).Ok? && ParseCursor(cursor).Ok?
    ensures var (items, more) := PageKeys(Visible(t, conversation), ResolveLimit(limit).value, ParseCursor(cursor).value);
      HistoryPage(t, conversation, limit, cursor) == Ok(Page(items, if more then Some(EncodeCursor(items[|items| - 1])) else None))
  {
  }

  lemma PositionReadBack(key: Key)
    ensures ParseCursor(Some(EncodeCursor(key))) == Ok(Some(key))
  {
    RoundTrip(key);
  }

  /** From request `i` on, asking by cursor string is asking by position. */
  ghost predicate Follows(tables: seq<Table>, vis: seq<set<Key>>, i: nat, conversation: Subject, limit: Option<int>, cursor: Option<string>,
                          n: nat, position: Option<Key>)
    requires i <= |tables| == |vis| && n >= 1
  {
    Walk(tables, i, conversation, limit, cursor) == Ok(KeyWalk(vis, i, n, position))
  }

  /** One request: the page, and a next cursor that reads back as the position of its last row. */
  lemma NextPage(t: Table, conversation: Subject, limit: Option<int>, cursor: Option<string>, n: nat, position: Option<Key>)
    returns (items: seq<Key>, more: bool, next: Option<string>)
    requires ResolveLimit(limit) == Ok(n) && ParseCursor(cursor) == Ok(position)
    ensures (items, more) == PageKeys(Visible(t, conversation), n, position)
    ensures HistoryPage(t, conversation, limit, cursor) == Ok(Page(items, next))
    ensures next.Some? <==> more
    ensures more ==> items != [] && ParseCursor(next) == Ok(Some(items[|items| - 1]))
  {
    var page := PageKeys(Visible(t, conversation), n, position);
    items, more := page.0, page.1;
    PageFollowsKeys(t, conversation, limit, cursor);
    next := if more then Some(EncodeCursor(items[|items| - 1])) else None;
    if more {
      PositionReadBack(items[|items| - 1]);
    }
  }

  lemma FollowsOn(tables: seq<Table>, vis: seq<set<Key>>, i: nat, conversation: Subject, limit: Option<int>, cursor: Option<string>,
                  n: nat, position: Option<Key>, items: seq<Key>, more: bool, next: Option<string>)
    requires i < |tables| == |vis| && n >= 1 && (items, more) == PageKeys(vis[i], n, position)
    requires HistoryPage(tables[i], conversation, limit, cursor) == Ok(Page(items, next)) && (next.Some? <==> more)
    requires more ==> Follows(tables, vis, i + 1, conversation, limit, next, n, Some(items[|items| - 1]))
    ensures Follows(tables, vis, i, conversation, limit, cursor, n, position)
  {
  }

  lemma {:induction false} WalkFollows(tables: seq<Table>, vis: seq<set<Key>>, i: nat, conversation: Subject, limit: Option<int>,
                                       cursor: Option<string>, n: nat, position: Option<Key>)
    requires i <= |tables| && vis == History(tables, conversation)
    requires ResolveLimit(limit) == Ok(n) && ParseCursor(cursor) == Ok(position)
    ensures Follows(tables, vis, i, conversation, limit, cursor, n, position)
    decreases |tables| - i
  {
    if i < |tables| {
      var items, more, next := NextPage(tables[i], conversation, limit, cursor, n, position);
      if more {
        WalkFollows(tables, vis, i + 1, conversation, limit, next, n, Some(items[|items| - 1]));
      }
      FollowsOn(tables, vis, i, conversation, limit, cursor, n, position, items, more, next);
    }
  }

  /** The cursors a walk is handed always decode: it follows the positions exactly and never fails. */
  lemma WalkFollowsKeys(tables: seq<Table>, conversation: Subject, limit: Option<int>, cursor: Option<string>, n: nat, position: Option<Key>)
    requires ResolveLimit(limit) == Ok(n) && ParseCursor(cursor) == Ok(position)
    ensures Walk(tables, 0, conversation, limit, cursor) == Ok(KeyWalk(History(tables, conversation), 0, n, position))
  {
    WalkFollows(tables, History(tables, conversation), 0, conversation, limit, cursor, n, position);
  }

  /** What the conversation shows at the moment of each request. */
  function History(tables: seq<Table>, conversation: Subject): (vis: seq<set<Key>>)
    ensures |vis| == |tables|
  {
    seq(|tables|, j requires 0 <= j < |tables| => Visible(tables[j], conversation))
  }

  // ---- What a walk returns ----

  ghost predicate AllPast(items: seq<Key>, cursor: Option<Key>) {
    forall k | k in items :: Past(k, cursor)
  }

  /** Joining a page to what follows it keeps the order. */
  lemma PagesJoin(items: seq<Key>, rest: seq<Key>, cursor: Option<Key>)
    requires items != [] && Descending(items) && AllPast(items, cursor)
    requires Descending(rest) && AllPast(rest, Some(items[|items| - 1]))
    ensures Descending(items + rest) && AllPast(items + rest, cursor)
  {
    var all, n := items + rest, |items|;
    assert items[n - 1] in items;
    forall j | 0 <= j < |rest| ensures Below(rest[j], items[n - 1]) && Past(rest[j], cursor) {
      assert rest[j] in rest;
    }
    forall i, j | 0 <= i < j < |all| ensures Below(all[j], all[i]) {
      if i < n <= j {
        assert i == n - 1 || Below(items[n - 1], items[i]);
        assert Below(rest[j - n], items[n - 1]);
      }
    }
  }

  lemma BlockPast(items: seq<Key>, more: bool, vis: set<Key>, cursor: Option<Key>, limit: nat)
    requires IsBlock(items, more, Remaining(vis, cursor), limit)
    ensures Descending(items) && AllPast(items, cursor)
  {
  }

  lemma {:induction false} KeyWalkDescends(vis: seq<set<Key>>, i: nat, limit: nat, cursor: Option<Key>)
    requires i <= |vis| && limit >= 1
    ensures var w := KeyWalk(vis, i, limit, cursor); Descending(w.items) && AllPast(w.items, cursor)
    decreases |vis| - i
  {
    if i < |vis| {
      var items, more, rest := Apart(vis, i, limit, cursor);
      BlockPast(items, more, vis[i], cursor, limit);
      if more {
        KeyWalkDescends(vis, i + 1, limit, Some(items[|items| - 1]));
        PagesJoin(items, rest.items, cursor);
      }
    }
  }

  /** Rows in that many full pages. */
  function Room(requests: nat, limit: nat): nat {
    if requests == 0 then 0 else limit + Room(requests - 1, limit)
  }

  lemma {:induction false} RoomIsProduct(requests: nat, limit: nat)
    ensures Room(requests, limit) == requests * limit
  {
    if requests > 0 {
      RoomIsProduct(requests - 1, limit);
      assert requests * limit == (requests - 1) * limit + limit;
    }
  }

  /** Full pages until the last one, which is the only one that may be short or empty. */
  ghost predicate FullPages(w: Walked, limit: nat, left: nat) {
    if w.ended then 1 <= w.pages <= left && Room(w.pages - 1, limit) <= |w.items| <= Room(w.pages, limit)
    else w.pages == left && |w.items| == Room(left, limit)
  }

  /** From request `i` on the pages are full until the last one. */
  ghost predicate PagesFrom(vis: seq<set<Key>>, i: nat, limit: nat, cursor: Option<Key>)
    requires i <= |vis| && limit >= 1
  {
    FullPages(KeyWalk(vis, i, limit, cursor), limit, |vis| - i)
  }

  lemma PagesOn(vis: seq<set<Key>>, i: nat, limit: nat, cursor: Option<Key>, items: seq<Key>, more: bool)
    requires i < |vis| && limit >= 1 && (items, more) == PageKeys(vis[i], limit, cursor)
    requires more ==> PagesFrom(vis, i + 1, limit, Some(items[|items| - 1]))
    ensures PagesFrom(vis, i, limit, cursor)
  {
  }

  lemma {:induction false} KeyWalkPages(vis: seq<set<Key>>, i: nat, limit: nat, cursor: Option<Key>)
    requires i <= |vis| && limit >= 1
    ensures PagesFrom(vis, i, limit, cursor)
    decreases |vis| - i
  {
    if i < |vis| {
      var (items, more) := PageKeys(vis[i], limit, cursor);
      if more {
        KeyWalkPages(vis, i + 1, limit, Some(items[|items| - 1]));
      }
      PagesOn(vis, i, limit, cursor, items, more);
    }
  }

  ghost predicate SeenAt(vis: seq<set<Key>>, from: nat, to: nat, k: Key) {
    exists j :: from <= j < to <= |vis| && k in vis[j]
  }

  ghost predicate AlwaysThere(vis: seq<set<Key>>, from: nat, to: nat, k: Key) {
    to <= |vis| && forall j | from <= j < to :: k in vis[j]
  }

  lemma SeenLater(vis: seq<set<Key>>, from: nat, to: nat, k: Key)
    requires SeenAt(vis, from + 1, to, k)
    ensures SeenAt(vis, from, to, k)
  {
  }

  /** Every returned row was visible when some page was fetched. */
  lemma {:induction false} KeyWalkReturnsVisible(vis: seq<set<Key>>, i: nat, limit: nat, cursor: Option<Key>, k: Key)
    requires i <= |vis| && limit >= 1 && k in KeyWalk(vis, i, limit, cursor).items
    ensures SeenAt(vis, i, i + KeyWalk(vis, i, limit, cursor).pages, k)
    decreases |vis| - i
  {
    KeyWalkPages(vis, i, limit, cursor);
    var items, more, rest := Apart(vis, i, limit, cursor);
    if k in items {
      assert k in vis[i];
    } else {
      KeyWalkReturnsVisible(vis, i + 1, limit, Some(items[|items| - 1]), k);
      SeenLater(vis, i, i + 1 + rest.pages, k);
    }
  }

  /** A finished walk returns every row past its start that was there for each of its pages. */
  lemma {:induction false} KeyWalkMissesNothing(vis: seq<set<Key>>, i: nat, limit: nat, cursor: Option<Key>, k: Key)
    requires i <= |vis| && limit >= 1 && KeyWalk(vis, i, limit, cursor).ended
    requires Past(k, cursor) && AlwaysThere(vis, i, i + KeyWalk(vis, i, limit, cursor).pages, k)
    ensures k in KeyWalk(vis, i, limit, cursor).items
    decreases |vis| - i
  {
    var items, more, rest := Apart(vis, i, limit, cursor);
    KeyWalkPages(vis, i, limit, cursor);
    assert k in vis[i];
    assert k in Remaining(vis[i], cursor);
    if k !in items {
      KeyWalkMissesNothing(vis, i + 1, limit, Some(items[|items| - 1]), k);
    }
  }

  // ---- A table that does not change ----

  function First(s: seq<Key>, n: nat): seq<Key> {
    if |s| <= n then s else s[..n]
  }

  /** What remains past the last key of a full page is the rest of the sorted history. */
  lemma RestOfHistory(vis: set<Key>, cursor: Option<Key>, limit: nat)
    requires 1 <= limit < |Remaining(vis, cursor)|
    ensures var all := Sorted(Remaining(vis, cursor));
      limit < |all| && Sorted(Remaining(vis, Some(all[limit - 1]))) == all[limit..]
  {
    var rest := Remaining(vis, cursor);
    SortedHolds(rest);
    var all := Sorted(rest);
    var later := Remaining(vis, Some(all[limit - 1]));
    SortedHolds(later);
    PrefixLeavesBelow(all, rest, limit);
    forall k ensures k in all[limit..] <==> k in Sorted(later) {
      AfterPage(all, limit, k);
      assert all[limit - 1] in all;
      assert k in later <==> k in all && Below(k, all[limit - 1]);
    }
    DescendingIsUnique(all[limit..], Sorted(later));
  }

  lemma AfterPage(all: seq<Key>, n: nat, k: Key)
    requires Descending(all) && 1 <= n <= |all|
    ensures k in all[n..] <==> k in all && Below(k, all[n - 1])
  {
  }

  lemma FirstPage(vis: set<Key>, limit: nat, cursor: Option<Key>)
    requires limit >= 1
    ensures var all := Sorted(Remaining(vis, cursor)); PageKeys(vis, limit, cursor) == (First(all, limit), |all| > limit)
  {
    SplitFetch(Sorted(Remaining(vis, cursor)), Fetch(vis, cursor, limit + 1), limit);
  }

  /** The pages are the sorted history as far as they have room for it; the walk ends when it all fits. */
  ghost predicate Unrolls(w: Walked, all: seq<Key>, requests: nat, room: nat) {
    && w.items == First(all, room)
    && (w.ended <==> requests > 0 && |all| <= room)
  }

  lemma UnrollsOneMore(w: Walked, items: seq<Key>, rest: Walked, all: seq<Key>, later: seq<Key>, limit: nat, requests: nat)
    requires w == Prefixed(items, rest) && limit < |all| && items == First(all, limit) && later == all[limit..]
    requires Unrolls(rest, later, requests, Room(requests, limit))
    ensures Unrolls(w, all, requests + 1, Room(requests + 1, limit))
  {
    assert Room(requests + 1, limit) == limit + Room(requests, limit);
  }

  lemma PageOfFixed(shown: set<Key>, limit: nat, cursor: Option<Key>, items: seq<Key>, more: bool)
    requires limit >= 1 && (items, more) == PageKeys(shown, limit, cursor)
    ensures var all := Sorted(Remaining(shown, cursor));
      && items == First(all, limit) && (more <==> limit < |all|)
      && (more ==> items != [] && Sorted(Remaining(shown, Some(items[|items| - 1]))) == all[limit..])
  {
    FirstPage(shown, limit, cursor);
    SortedHolds(Remaining(shown, cursor));
    if more {
      RestOfHistory(shown, cursor, limit);
    }
  }

  /** Walking on from request `i` of a fixed table unrolls what remains past the cursor. */
  ghost predicate FixedFrom(vis: seq<set<Key>>, shown: set<Key>, i: nat, limit: nat, cursor: Option<Key>)
    requires i <= |vis| && limit >= 1
  {
    Unrolls(KeyWalk(vis, i, limit, cursor), Sorted(Remaining(shown, cursor)), |vis| - i, Room(|vis| - i, limit))
  }

  lemma FixedEnd(vis: seq<set<Key>>, shown: set<Key>, i: nat, limit: nat, cursor: Option<Key>, items: seq<Key>)
    requires i < |vis| && limit >= 1 && vis[i] == shown && (items, false) == PageKeys(shown, limit, cursor)
    ensures FixedFrom(vis, shown, i, limit, cursor)
  {
  }

  lemma FixedTurn(vis: seq<set<Key>>, shown: set<Key>, i: nat, limit: nat, cursor: Option<Key>, items: seq<Key>)
    requires i < |vis| && limit >= 1 && vis[i] == shown && (items, true) == PageKeys(shown, limit, cursor)
    requires FixedFrom(vis, shown, i + 1, limit, Some(items[|items| - 1]))
    ensures FixedFrom(vis, shown, i, limit, cursor)
  {
    var _, _, rest := Turn(vis, i, limit, cursor);
    PageOfFixed(shown, limit, cursor, items, true);
    UnrollsOneMore(KeyWalk(vis, i, limit, cursor), items, rest, Sorted(Remaining(shown, cursor)),
                   Sorted(Remaining(shown, Some(items[|items| - 1]))), limit, |vis| - i - 1);
  }

  lemma {:induction false} KeyWalkOfFixed(vis: seq<set<Key>>, shown: set<Key>, i: nat, limit: nat, cursor: Option<Key>)
    requires i <= |vis| && limit >= 1 && forall j | i <= j < |vis| :: vis[j] == shown
    ensures FixedFrom(vis, shown, i, limit, cursor)
    decreases |vis| - i
  {
    if i < |vis| {
      var (items, more) := PageKeys(shown, limit, cursor);
      if more {
        KeyWalkOfFixed(vis, shown, i + 1, limit, Some(items[|items| - 1]));
        FixedTurn(vis, shown, i, limit, cursor, items);
      } else {
        FixedEnd(vis, shown, i, limit, cursor, items);
      }
    }
  }

  // ---- Main results: walking by cursor strings over tables that change ----

  /** Newest first; among rows of one instant, greatest id first. */
  ghost predicate NewestFirst(items: seq<Key>) {
    forall i, j | 0 <= i < j < |items| ::
      items[j].createdAt < items[i].createdAt || (items[j].createdAt == items[i].createdAt && items[j].id < items[i].id)
  }

  lemma DescendingIsNewestFirst(items: seq<Key>)
    requires Descending(items)
    ensures NewestFirst(items)
  {
  }

  /** Strictly descending, so nothing twice; past the cursor; every row visible when some page was fetched. */
  ghost predicate SoundWalk(w: Walked, vis: seq<set<Key>>, position: Option<Key>) {
    && Descending(w.items) && AllPast(w.items, position)
    && forall k | k in w.items :: SeenAt(vis, 0, w.pages, k)
  }

  lemma KeyWalkIsSound(vis: seq<set<Key>>, n: nat, position: Option<Key>) returns (w: Walked)
    requires n >= 1
    ensures w == KeyWalk(vis, 0, n, position) && SoundWalk(w, vis, position) && FullPages(w, n, |vis|)
  {
    w := KeyWalk(vis, 0, n, position);
    KeyWalkDescends(vis, 0, n, position);
    KeyWalkPages(vis, 0, n, position);
    forall k | k in w.items ensures SeenAt(vis, 0, w.pages, k) {
      KeyWalkReturnsVisible(vis, 0, n, position, k);
    }
  }

  /** Whatever is inserted or deleted between requests. */
  lemma WalkIsSound(tables: seq<Table>, conversation: Subject, limit: Option<int>, cursor: Option<string>, n: nat, position: Option<Key>)
    returns (w: Walked)
    requires ResolveLimit(limit) == Ok(n) && ParseCursor(cursor) == Ok(position)
    ensures Walk(tables, 0, conversation, limit, cursor) == Ok(w)
    ensures SoundWalk(w, History(tables, conversation), position) && FullPages(w, n, |tables|)
    ensures NewestFirst(w.items)
  {
    w := KeyWalkIsSound(History(tables, conversation), n, position);
    DescendingIsNewestFirst(w.items);
    WalkFollowsKeys(tables, conversation, limit, cursor, n, position);
  }

  /** A walk is refused only at its first request, and exactly for a limit below 1 or a string that is no cursor. */
  lemma RefusedIff(tables: seq<Table>, conversation: Subject, limit: Option<int>, cursor: Option<string>)
    requires tables != []
    ensures Walk(tables, 0, conversation, limit, cursor).Ok? <==>
      (limit.Some? ==> limit.value >= 1) && (cursor.Some? ==> IsCursor(cursor.value))
  {
    if cursor.Some? {
      AcceptedIffCursor(cursor.value);
    }
    var n, position := ResolveLimit(limit), ParseCursor(cursor);
    if n.Ok? && position.Ok? {
      WalkFollowsKeys(tables, conversation, limit, cursor, n.value, position.value);
    }
  }

  /** A walk that has ended returned every row past its start that stayed visible while it lasted. */
  lemma WalkMissesNothing(tables: seq<Table>, conversation: Subject, limit: Option<int>, cursor: Option<string>, n: nat, position: Option<Key>,
                          k: Key)
    returns (w: Walked)
    requires ResolveLimit(limit) == Ok(n) && ParseCursor(cursor) == Ok(position)
    ensures Walk(tables, 0, conversation, limit, cursor) == Ok(w)
    ensures w.ended && Past(k, position) && AlwaysThere(History(tables, conversation), 0, w.pages, k) ==> k in w.items
  {
    var vis := History(tables, conversation);
    WalkFollowsKeys(tables, conversation, limit, cursor, n, position);
    w := KeyWalk(vis, 0, n, position);
    if w.ended && Past(k, position) && AlwaysThere(vis, 0, w.pages, k) {
      KeyWalkMissesNothing(vis, 0, n, position, k);
    }
  }

  lemma {:induction false} DescendingFits(items: seq<Key>, all: set<Key>)
    requires Descending(items) && forall k | k in items :: k in all
    ensures |items| <= |all|
  {
    if items != [] {
      var top := items[0];
      assert top in all;
      forall k | k in items[1..] ensures k in all - {top} {
        TailElements(items, k);
      }
      DescendingFits(items[1..], all - {top});
    }
  }

  /** However the table changes, a walk over finitely many messages ends: full pages cannot go on. */
  lemma EveryWalkEnds(tables: seq<Table>, conversation: Subject, limit: Option<int>, cursor: Option<string>, n: nat, position: Option<Key>,
                      ever: set<Key>)
    returns (w: Walked)
    requires ResolveLimit(limit) == Ok(n) && ParseCursor(cursor) == Ok(position)
    requires forall j | 0 <= j < |tables| :: Visible(tables[j], conversation) <= ever
    requires |tables| * n > |ever|
    ensures Walk(tables, 0, conversation, limit, cursor) == Ok(w) && w.ended
  {
    w := WalkIsSound(tables, conversation, limit, cursor, n, position);
    var vis := History(tables, conversation);
    forall k | k in w.items ensures k in ever {
      assert SeenAt(vis, 0, w.pages, k);
      var j :| 0 <= j < w.pages <= |vis| && k in vis[j];
      assert vis[j] == Visible(tables[j], conversation);
    }
    DescendingFits(w.items, ever);
    RoomIsProduct(|tables|, n);
  }

  /** On a table that does not change, the pages concatenate to the sorted history, ending when it is all out. */
  lemma WalkOfFixedTable(tables: seq<Table>, conversation: Subject, limit: Option<int>, cursor: Option<string>, n: nat, position: Option<Key>,
                         shown: set<Key>)
    returns (w: Walked)
    requires ResolveLimit(limit) == Ok(n) && ParseCursor(cursor) == Ok(position)
    requires forall j | 0 <= j < |tables| :: Visible(tables[j], conversation) == shown
    ensures Walk(tables, 0, conversation, limit, cursor) == Ok(w)
    ensures Unrolls(w, Sorted(Remaining(shown, position)), |tables|, Room(|tables|, n))
  {
    var vis := History(tables, conversation);
    WalkFollowsKeys(tables, conversation, limit, cursor, n, position);
    KeyWalkOfFixed(vis, shown, 0, n, position);
    w := KeyWalk(vis, 0, n, position);
  }
}
