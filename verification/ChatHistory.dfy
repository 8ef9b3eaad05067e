/**
 Chat history by cursor: the server's page over one session's rows, and the client loop that walks all pages
 while other rows keep committing. A row is its auto-increment id here; rows never change once stored.
 */
module ChatHistory {
  import opened Prelude
  import ChatStore

  /** The rows of a session that a query can see. */
  function SessionIds(db: ChatStore.Db, session: nat): set<nat> {
    set k | k in db.messages && k.session == session :: db.messages[k].id
  }

  predicate StrictlyAscending(s: seq<nat>) {
    forall i, j :: 0 <= i < j < |s| ==> s[i] < s[j]
  }

  predicate IsLeast(m: nat, s: set<nat>) {
    m in s && forall x <- s :: m <= x
  }

  lemma {:induction false} LeastExists(s: set<nat>)
    requires s != {}
    ensures exists m <- s :: IsLeast(m, s)
  {
    var y :| y in s;
    if s == {y} {
      assert IsLeast(y, s);
    } else {
      LeastExists(s - {y});
      var m :| m in s - {y} && IsLeast(m, s - {y});
      var least: nat := if m <= y then m else y;
      assert IsLeast(least, s) by {
        forall x <- s
          ensures least <= x
        {
          assert x == y || x in s - {y};
        }
      }
    }
  }

  /** ORDER BY id ASC. */
  function Ascending(s: set<nat>): (r: seq<nat>)
    ensures StrictlyAscending(r)
    ensures forall x: nat :: x in r <==> x in s
    ensures |r| == |s|
  {
    if s == {} then [] else
      LeastExists(s);
      var m :| m in s && IsLeast(m, s);
      Prepended(m, Ascending(s - {m}));
      [m] + Ascending(s - {m})
  }

  lemma Prepended(m: nat, rest: seq<nat>)
    ensures StrictlyAscending(rest) && (forall x <- rest :: m < x) ==> StrictlyAscending([m] + rest)
    ensures forall x: nat :: x in [m] + rest <==> x == m || x in rest
  {
    assert forall i :: 0 < i < |[m] + rest| ==> ([m] + rest)[i] == rest[i - 1] && rest[i - 1] in rest;
  }

  /** A strictly ascending listing is determined by what it lists. */
  lemma {:induction false} AscendingUnique(a: seq<nat>, b: seq<nat>)
    requires StrictlyAscending(a) && StrictlyAscending(b)
    requires forall x: nat :: x in a <==> x in b
    ensures a == b
  {
    HeadIsIn(a);
    HeadIsIn(b);
    if a != [] && b != [] {
      assert forall x: nat :: x in a[1..] <==> x in a && x != a[0];
      assert forall x: nat :: x in b[1..] <==> x in b && x != b[0];
      AscendingUnique(a[1..], b[1..]);
    }
  }

  /** In an ascending listing the first m entries are those up to the m-th. */
  lemma PrefixIsBelow(all: seq<nat>, m: nat)
    requires StrictlyAscending(all) && 0 < m <= |all|
    ensures StrictlyAscending(all[..m])
    ensures forall x: nat :: x in all[..m] <==> x in all && x <= all[m - 1]
  {
    forall x: nat | x in all && x <= all[m - 1]
      ensures x in all[..m]
    {
      var i :| 0 <= i < |all| && all[i] == x;
      assert i < m;
      assert all[..m][i] == x;
    }
  }

  function Above(ids: set<nat>, cursor: nat): set<nat> {
    set x | x in ids && x > cursor
  }

  function Take(s: seq<nat>, n: nat): seq<nat> {
    if |s| <= n then s else s[..n]
  }

  function TakeLast(s: seq<nat>, n: nat): seq<nat> {
    if |s| <= n then s else s[|s| - n..]
  }

  function ListAfter(ids: set<nat>, cursor: nat, limit: nat): seq<nat> {
    Take(Ascending(Above(ids, cursor)), limit)
  }

  function ListLatest(ids: set<nat>, limit: nat): seq<nat> {
    TakeLast(Ascending(ids), limit)
  }

  function Reversed(s: seq<nat>): (r: seq<nat>)
    ensures |r| == |s| && forall k :: 0 <= k < |s| ==> r[k] == s[|s| - 1 - k]
  {
    if s == [] then [] else Reversed(s[1..]) + [s[0]]
  }

  predicate StrictlyDescending(s: seq<nat>) {
    forall i, j :: 0 <= i < j < |s| ==> s[i] > s[j]
  }

  predicate IsGreatest(m: nat, s: set<nat>) {
    m in s && forall x <- s :: x <= m
  }

  lemma {:induction false} GreatestExists(s: set<nat>)
    requires s != {}
    ensures exists m <- s :: IsGreatest(m, s)
  {
    var y :| y in s;
    if s == {y} {
      assert IsGreatest(y, s);
    } else {
      GreatestExists(s - {y});
      var m :| m in s - {y} && IsGreatest(m, s - {y});
      var greatest: nat := if m >= y then m else y;
      assert IsGreatest(greatest, s) by {
        forall x <- s
          ensures x <= greatest
        {
          assert x == y || x in s - {y};
        }
      }
    }
  }

  /** ORDER BY id DESC. */
  function Descending(s: set<nat>): (r: seq<nat>)
    ensures StrictlyDescending(r)
    ensures forall x: nat :: x in r <==> x in s
    ensures |r| == |s|
  {
    if s == {} then [] else
      GreatestExists(s);
      var m :| m in s && IsGreatest(m, s);
      Preceded(m, Descending(s - {m}));
      [m] + Descending(s - {m})
  }

  lemma Preceded(m: nat, rest: seq<nat>)
    ensures StrictlyDescending(rest) && (forall x <- rest :: x < m) ==> StrictlyDescending([m] + rest)
    ensures forall x: nat :: x in [m] + rest <==> x == m || x in rest
  {
    assert forall i :: 0 < i < |[m] + rest| ==> ([m] + rest)[i] == rest[i - 1] && rest[i - 1] in rest;
  }

  /** The newest rows, newest first, as the query returns them. */
  function NewestFirst(ids: set<nat>, limit: nat): seq<nat> {
    Take(Descending(ids), limit)
  }

  /** Reversing the newest rows gives the last rows of the ascending listing. */
  lemma NewestReversed(ids: set<nat>, limit: nat)
    ensures Reversed(NewestFirst(ids, limit)) == ListLatest(ids, limit)
  {
    DescendingReversed(ids);
    ReversedTake(Descending(ids), limit);
    hide Descending, Ascending, Reversed, Take, TakeLast;
  }

  lemma DescendingReversed(ids: set<nat>)
    ensures Reversed(Descending(ids)) == Ascending(ids)
  {
    var d, a := Descending(ids), Ascending(ids);
    hide Descending, Ascending;
    var r := Reversed(d);
    assert StrictlyAscending(r);
    forall x: nat
      ensures x in r <==> x in a
    {
      if x in d {
        var i :| 0 <= i < |d| && d[i] == x;
        assert r[|d| - 1 - i] == x;
      }
    }
    hide Reversed, StrictlyDescending;
    AscendingUnique(r, a);
  }

  lemma ReversedTake(s: seq<nat>, limit: nat)
    ensures Reversed(Take(s, limit)) == TakeLast(Reversed(s), limit)
  {
    var t, u := Reversed(Take(s, limit)), TakeLast(Reversed(s), limit);
    assert |t| == |u| && forall k :: 0 <= k < |t| ==> t[k] == u[k];
  }

  /** Reverses a slice in place by swapping from both ends. */
  method ReverseInPlace(messages: array<nat>)
    modifies messages
    ensures messages[..] == Reversed(old(messages[..]))
  {
    ghost var was := messages[..];
    var left, right := 0, messages.Length - 1;
    while left < right
      invariant 0 <= left <= messages.Length && right == messages.Length - 1 - left
      invariant forall k :: 0 <= k < left ==> messages[k] == was[messages.Length - 1 - k]
      invariant forall k :: right < k < messages.Length ==> messages[k] == was[messages.Length - 1 - k]
      invariant forall k :: left <= k <= right ==> messages[k] == was[k]
    {
      messages[left], messages[right] := messages[right], messages[left];
      left, right := left + 1, right - 1;
    }
    assert messages[..] == Reversed(was);
  }

  /** The query returns the newest rows first; reversing puts them in ascending order. */
  method QueryLatest(ids: set<nat>, limit: nat) returns (messages: array<nat>)
    ensures messages[..] == ListLatest(ids, limit)
  {
    var newestFirst := NewestFirst(ids, limit);
    messages := new nat[|newestFirst|](i requires 0 <= i < |newestFirst| => newestFirst[i]);
    assert messages[..] == newestFirst;
    ReverseInPlace(messages);
    NewestReversed(ids, limit);
  }

  // ---- The service ----

  const DEFAULT_LIMIT := 50
  const MAX_LIMIT := 100

  datatype Page = Page(messages: seq<nat>, nextCursor: nat, hasMore: bool)

  datatype HistoryError = InvalidLimit | SessionNotFound

  function Last(s: seq<nat>, otherwise: nat): nat {
    if s == [] then otherwise else s[|s| - 1]
  }

  /** One row more than the limit is read to learn whether there is another page. */
  function History(known: bool, ids: set<nat>, afterId: Option<nat>, requested: int): Result<Page, HistoryError> {
    var limit := if requested == 0 then DEFAULT_LIMIT else requested;
    if limit < 1 || limit > MAX_LIMIT then Err(InvalidLimit)
    else if !known then Err(SessionNotFound)
    else match afterId
      case None =>
        var messages := ListLatest(ids, limit);
        Ok(Page(messages, Last(messages, 0), false))
      case Some(cursor) =>
        var read := ListAfter(ids, cursor, limit + 1);
        var hasMore := |read| > limit;
        var messages := if hasMore then read[..limit] else read;
        Ok(Page(messages, Last(messages, cursor), hasMore))
  }

  /**
   A page lists, in order and without gaps, the visible rows from just above the cursor up to its next
   cursor; there is more exactly when a visible row lies beyond, and then the page is full.
   */
  lemma PageIsContiguous(ids: set<nat>, cursor: nat, limit: nat)
    requires 1 <= limit <= MAX_LIMIT
    ensures var r := History(true, ids, Some(cursor), limit);
      && r.Ok?
      && StrictlyAscending(r.value.messages)
      && (forall x: nat :: x in r.value.messages <==> x in ids && cursor < x <= r.value.nextCursor)
      && (r.value.hasMore <==> exists x <- ids :: x > r.value.nextCursor)
      && r.value.nextCursor >= cursor
      && (r.value.hasMore ==> |r.value.messages| == limit && r.value.nextCursor > cursor)
  {
    var all := Ascending(Above(ids, cursor));
    assert forall x: nat :: x in all <==> x in ids && x > cursor;
    if |all| > limit {
      FullPage(all, ids, cursor, limit);
    } else {
      LastPage(all, ids, cursor, limit);
    }
  }

  lemma FullPage(all: seq<nat>, ids: set<nat>, cursor: nat, limit: nat)
    requires 1 <= limit <= MAX_LIMIT && all == Ascending(Above(ids, cursor)) && |all| > limit
    ensures var page := History(true, ids, Some(cursor), limit).value;
      && page == Page(all[..limit], all[limit - 1], true)
      && StrictlyAscending(page.messages) && page.nextCursor > cursor
      && (forall x: nat :: x in page.messages <==> x in ids && cursor < x <= page.nextCursor)
      && (exists x <- ids :: x > page.nextCursor)
  {
    hide Ascending;
    assert Take(all, limit + 1)[..limit] == all[..limit];
    assert History(true, ids, Some(cursor), limit).value == Page(all[..limit], all[limit - 1], true);
    hide History, Take, StrictlyAscending;
    PrefixIsBelow(all, limit);
    NextBeyond(all, limit);
    assert all[limit] in ids;
  }

  lemma NextBeyond(all: seq<nat>, limit: nat)
    requires StrictlyAscending(all) && 1 <= limit < |all|
    ensures all[limit] in all && all[limit - 1] in all && all[limit - 1] < all[limit]
  {
  }

  lemma LastPage(all: seq<nat>, ids: set<nat>, cursor: nat, limit: nat)
    requires 1 <= limit <= MAX_LIMIT && all == Ascending(Above(ids, cursor)) && |all| <= limit
    ensures var page := History(true, ids, Some(cursor), limit).value;
      && page == Page(all, Last(all, cursor), false)
      && StrictlyAscending(all) && page.nextCursor >= cursor
      && (forall x: nat :: x in all <==> x in ids && cursor < x <= page.nextCursor)
      && (forall x <- ids :: x <= page.nextCursor)
  {
    hide Ascending;
    if all != [] {
      PrefixIsBelow(all, |all|);
      assert all[..|all|] == all;
      assert all[|all| - 1] in all;
    }
    forall x <- ids
      ensures x <= Last(all, cursor)
    {
      assert x > cursor ==> x in all;
    }
  }

  // ---- The client loop ----

  datatype ScanError = RequestFailed | DidNotAdvance

  /** view(n) is what the n-th request can see: rows only ever appear, at any id, and there are finitely many in all. */
  ghost predicate Growing(view: nat -> set<nat>, final: set<nat>) {
    && (forall n: nat :: view(n) <= view(n + 1) && view(n) <= final)
    && 0 !in final
  }

  lemma {:induction false} GrowsFrom(view: nat -> set<nat>, final: set<nat>, n: nat)
    requires Growing(view, final)
    ensures view(0) <= view(n) <= final && 0 !in final
  {
    if n > 0 {
      GrowsFrom(view, final, n - 1);
    }
  }

  /** Where the walk stands: everything up to the cursor that was visible at the start, in order, and nothing made up. */
  ghost predicate Walked(messages: seq<nat>, cursor: nat, initial: set<nat>, final: set<nat>) {
    && StrictlyAscending(messages)
    && (forall x: nat :: x in messages ==> x <= cursor && x in final)
    && (forall x: nat :: x in initial && x <= cursor ==> x in messages)
  }

  lemma WalkOn(messages: seq<nat>, cursor: nat, page: Page, initial: set<nat>, visible: set<nat>, final: set<nat>)
    requires Walked(messages, cursor, initial, final) && initial <= visible <= final
    requires History(true, visible, Some(cursor), MAX_LIMIT) == Ok(page)
    ensures Walked(messages + page.messages, page.nextCursor, initial, final)
    ensures page.hasMore ==> page.nextCursor > cursor && |Above(final, page.nextCursor)| < |Above(final, cursor)|
    ensures !page.hasMore ==> forall x <- initial :: x in messages + page.messages
  {
    PageIsContiguous(visible, cursor, MAX_LIMIT);
    hide History, StrictlyAscending;
    AppendPage(messages, page.messages, cursor);
    if page.hasMore {
      FullPageEnds(visible, cursor);
      Shrinks(final, cursor, page.nextCursor, page.messages);
    }
  }

  /**
   Walks the history from cursor 0. Whatever commits during the scan and whatever gaps the ids have,
   every row visible when it began comes out exactly once and in ascending order, the cursor always
   advances, and the loop ends.
   */
  method AllHistory(view: nat -> set<nat>, ghost final: set<nat>, fails: nat -> bool) returns (result: Result<seq<nat>, ScanError>)
    requires Growing(view, final)
    ensures result != Err(DidNotAdvance)
    ensures (forall n: nat :: !fails(n)) ==> result.Ok?
    ensures result.Ok? ==>
      && StrictlyAscending(result.value)
      && (forall x <- view(0) :: x in result.value)
      && (forall x <- result.value :: x in final)
  {
    var messages: seq<nat> := [];
    GrowsFrom(view, final, 0);
    var cursor: nat := 0;
    var n: nat := 0;
    assert Walked(messages, cursor, view(0), final);
    hide History, StrictlyAscending, Growing, Above;
    while true
      invariant Walked(messages, cursor, view(0), final)
      decreases |Above(final, cursor)|
    {
      if fails(n) {
        return Err(RequestFailed);
      }
      var response := History(true, view(n), Some(cursor), MAX_LIMIT);
      PageIsContiguous(view(n), cursor, MAX_LIMIT);
      GrowsFrom(view, final, n);
      var page := response.value;
      WalkOn(messages, cursor, page, view(0), view(n), final);
      messages := messages + page.messages;
      if !page.hasMore {
        return Ok(messages);
      }
      if page.nextCursor <= cursor {
        return Err(DidNotAdvance);
      }
      cursor, n := page.nextCursor, n + 1;
    }
  }

  lemma FullPageEnds(ids: set<nat>, cursor: nat)
    requires History(true, ids, Some(cursor), MAX_LIMIT).Ok? && History(true, ids, Some(cursor), MAX_LIMIT).value.hasMore
    ensures var page := History(true, ids, Some(cursor), MAX_LIMIT).value;
      page.messages != [] && page.messages[|page.messages| - 1] == page.nextCursor && page.nextCursor in ids
  {
    var all := Ascending(Above(ids, cursor));
    hide Ascending;
    if |all| > MAX_LIMIT {
      NextBeyond(all, MAX_LIMIT);
    }
  }

  lemma AppendPage(before: seq<nat>, page: seq<nat>, cursor: nat)
    requires StrictlyAscending(before) && StrictlyAscending(page)
    requires (forall x: nat :: x in before ==> x <= cursor) && forall x: nat :: x in page ==> x > cursor
    ensures StrictlyAscending(before + page)
    ensures forall x: nat :: x in before + page <==> x in before || x in page
  {
    forall i, j | 0 <= i < j < |before + page|
      ensures (before + page)[i] < (before + page)[j]
    {
      if i < |before| <= j {
        assert before[i] in before && page[j - |before|] in page;
      }
    }
  }

  lemma Shrinks(final: set<nat>, cursor: nat, next: nat, page: seq<nat>)
    requires cursor < next && page != [] && page[|page| - 1] == next && next in final
    ensures |Above(final, next)| < |Above(final, cursor)|
  {
    assert Above(final, next) <= Above(final, cursor) - {next};
    SubsetSize(Above(final, next), Above(final, cursor) - {next});
  }

  /** On a table that stands still the scan is the table, in order. */
  lemma ScanOfFixedTable(ids: set<nat>, scanned: seq<nat>)
    requires StrictlyAscending(scanned)
    requires (forall x <- ids :: x in scanned) && forall x <- scanned :: x in ids
    ensures scanned == Ascending(ids)
  {
    AscendingUnique(scanned, Ascending(ids));
  }

  predicate IsSuffix(part: seq<nat>, whole: seq<nat>) {
    |part| <= |whole| && part == whole[|whole| - |part|..]
  }

  /**
   Opening a room: the latest page, then everything after its cursor. On a fixed table that is a contiguous
   suffix of the history, up to and including its newest row.
   */
  lemma LatestThenForward(ids: set<nat>, requested: int)
    requires 0 <= requested <= MAX_LIMIT
    ensures var page := History(true, ids, None, requested).value;
      && IsSuffix(page.messages + Ascending(Above(ids, page.nextCursor)), Ascending(ids))
      && |page.messages| == Min(|ids|, if requested == 0 then DEFAULT_LIMIT else requested)
  {
    hide Ascending, ListLatest, Above;
    LatestPage(ids, requested);
    NothingAboveLatest(ids, requested);
    AppendNothing(History(true, ids, None, requested).value.messages);
  }

  lemma AppendNothing(s: seq<nat>)
    ensures s + [] == s
  {
  }

  lemma LatestPage(ids: set<nat>, requested: int)
    requires 0 <= requested <= MAX_LIMIT
    ensures var messages := History(true, ids, None, requested).value.messages;
      && IsSuffix(messages, Ascending(ids))
      && |messages| == Min(|ids|, if requested == 0 then DEFAULT_LIMIT else requested)
  {
    var whole := Ascending(ids);
    hide Ascending;
    var limit := if requested == 0 then DEFAULT_LIMIT else requested;
    assert History(true, ids, None, requested).value.messages == TakeLast(whole, limit);
  }

  lemma NothingAboveLatest(ids: set<nat>, requested: int)
    requires 0 <= requested <= MAX_LIMIT
    ensures Ascending(Above(ids, History(true, ids, None, requested).value.nextCursor)) == []
  {
    var whole := Ascending(ids);
    if whole != [] {
      PrefixIsBelow(whole, |whole|);
      assert whole[..|whole|] == whole;
      assert History(true, ids, None, requested).value.nextCursor == whole[|whole| - 1];
    }
    assert forall x <- ids :: x in whole;
    assert Above(ids, History(true, ids, None, requested).value.nextCursor) == {};
  }

  /** Which requests are refused, and that a missing limit means fifty. */
  lemma HistoryAnswers(known: bool, ids: set<nat>, afterId: Option<nat>, requested: int)
    ensures var answer := History(known, ids, afterId, requested);
      && (answer == Err(InvalidLimit) <==> requested < 0 || requested > 100)
      && (answer == Err(SessionNotFound) <==> 0 <= requested <= 100 && !known)
      && (answer.Ok? <==> 0 <= requested <= 100 && known)
      && (requested == 0 ==> answer == History(known, ids, afterId, 50))
      && (answer.Ok? ==> |answer.value.messages| <= if requested == 0 then 50 else requested)
  {
    hide Ascending;
  }

  /** Without a cursor a page holds the newest rows, ascending; its cursor is the newest row, and it never promises more. */
  lemma LatestPageIsNewest(ids: set<nat>, requested: int)
    requires 0 <= requested <= 100
    ensures var page := History(true, ids, None, requested).value;
      && StrictlyAscending(page.messages)
      && |page.messages| == Min(|ids|, if requested == 0 then 50 else requested)
      && (forall x <- page.messages :: x in ids)
      && (forall x <- ids, y <- page.messages :: x !in page.messages ==> x < y)
      && (if ids == {} then page.nextCursor == 0 else IsGreatest(page.nextCursor, ids))
      && !page.hasMore
  {
    var limit: nat := if requested == 0 then 50 else requested;
    var part := ListLatest(ids, limit);
    assert History(true, ids, None, requested).value == Page(part, Last(part, 0), false) by { hide ListLatest; }
    SuffixIsNewest(Ascending(ids), limit);
    hide History, TakeLast, StrictlyAscending, Ascending;
    assert forall x: nat :: x in Ascending(ids) <==> x in ids;
    if ids != {} {
      var x :| x in ids;
      assert x in Ascending(ids);
    }
  }

  lemma SuffixIsNewest(all: seq<nat>, limit: nat)
    requires StrictlyAscending(all) && limit > 0
    ensures var part := TakeLast(all, limit);
      && StrictlyAscending(part) && |part| == Min(|all|, limit)
      && (forall x <- part :: x in all)
      && (forall x <- all, y <- part :: x !in part ==> x < y)
      && (all != [] ==> part != [] && part[|part| - 1] in all && forall x <- all :: x <= part[|part| - 1])
  {
    var part := TakeLast(all, limit);
    var from := |all| - |part|;
    assert forall k :: 0 <= k < |part| ==> part[k] == all[from + k];
    forall x <- all, y <- part | x !in part
      ensures x < y
    {
      var i :| 0 <= i < |all| && all[i] == x;
      var j :| 0 <= j < |part| && part[j] == y;
      assert forall k :: from <= k < |all| ==> all[k] == part[k - from] && all[k] in part;
      assert i < from;
    }
  }

  /** Persisting only ever adds to what a session's queries can see. */
  lemma PersistingGrowsTheView(db: ChatStore.Db, consumer: string, e: ChatStore.Event, session: nat)
    requires ChatStore.IdsOk(db)
    ensures SessionIds(db, session) <= SessionIds(ChatStore.Transact(db, consumer, e).0, session)
  {
    ChatStore.PersistKeepsIds(db, consumer, e);
    var after := ChatStore.Transact(db, consumer, e).0;
    forall x <- SessionIds(db, session)
      ensures x in SessionIds(after, session)
    {
      var k :| k in db.messages && k.session == session && db.messages[k].id == x;
      assert k in after.messages && after.messages[k].id == x;
    }
  }
}
