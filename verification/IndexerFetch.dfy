/** Paginated reads and the candidate merge of indexer.service.ts. */
module IndexerFetch {
  import opened JsBasics
  import opened JsText

  const PAGE_SIZE := 500
  const MAX_ITEMS: nat := 5_000

  datatype Page<T> = Page(items: seq<T>, limit: int, hasMore: bool)

  /** The server's answer to read number `call` at an offset; the answers are arbitrary unless said otherwise. */
  type Server<T> = (nat, int, int) -> Page<T>

  /** What the reading loop goes on to collect, with `items` in hand. */
  function Collected<T>(fetchPage: Server<T>, call: nat, offset: int, items: seq<T>, pageSize: int, maxItems: int)
    : seq<T>
    decreases maxItems - |items|
  {
    if |items| >= maxItems then items
    else
      var page := fetchPage(call, offset, pageSize);
      var more := items + page.items;
      if !page.hasMore || page.items == [] then more
      else Collected(fetchPage, call + 1, offset + page.limit, more, pageSize, maxItems)
  }

  /** It ends for every server, since a page that brings nothing ends it. */
  method FetchAllPages<T>(fetchPage: Server<T>, pageSize: int, maxItems: nat) returns (result: seq<T>)
    ensures |result| <= maxItems
    ensures var items := Collected(fetchPage, 0, 0, [], pageSize, maxItems);
            result == items[..Min(|items|, maxItems)]
  {
    var items: seq<T> := [];
    var offset := 0;
    var call: nat := 0;
    while |items| < maxItems
      invariant Collected(fetchPage, 0, 0, [], pageSize, maxItems)
             == Collected(fetchPage, call, offset, items, pageSize, maxItems)
      decreases maxItems - |items|
    {
      var page := fetchPage(call, offset, pageSize);
      if !page.hasMore || |page.items| == 0 {
        items := items + page.items;
        return items[..Min(|items|, maxItems)];
      }
      items := items + page.items;
      offset := offset + page.limit;
      call := call + 1;
    }
    result := items[..Min(|items|, maxItems)];
  }

  /**
   A page cut from `list` at `offset`: some items, as few as the server likes, more to come told truly, and the
   reported limit equal to what was sent while more is to come.
   */
  ghost predicate HonestPage<T>(page: Page<T>, list: seq<T>, offset: int) {
    && 0 <= offset <= |list| && offset + |page.items| <= |list|
    && page.items == list[offset..offset + |page.items|]
    && (offset < |list| ==> page.items != [])
    && (page.hasMore <==> offset + |page.items| < |list|)
    && (page.hasMore ==> page.limit == |page.items|)
  }

  ghost predicate ListBacked<T>(server: Server<T>, list: seq<T>) {
    forall call: nat, offset: int, limit: int :: 0 <= offset <= |list| ==>
      HonestPage(server(call, offset, limit), list, offset)
  }

  /** The indexer's own paging: the asked limit clamped to `cap`, at least one item a page. */
  function ClampingServer<T>(list: seq<T>, cap: int): Server<T>
    requires cap >= 1
  {
    (call: nat, offset: int, limit: int) =>
      var size := Max(1, Min(limit, cap));
      if 0 <= offset <= |list| then
        Page(list[offset..Min(|list|, offset + size)], size, offset + size < |list|)
      else Page([], size, false)
  }

  lemma ClampingServerIsListBacked<T>(list: seq<T>, cap: int)
    requires cap >= 1
    ensures ListBacked(ClampingServer(list, cap), list)
  {
    forall call: nat, offset: int, limit: int | 0 <= offset <= |list|
      ensures HonestPage(ClampingServer(list, cap)(call, offset, limit), list, offset)
    {
      var size := Max(1, Min(limit, cap));
      assert |list[offset..Min(|list|, offset + size)]| == Min(|list| - offset, size);
    }
  }

  lemma {:induction false} CollectsList<T>(server: Server<T>, list: seq<T>, call: nat, offset: int, pageSize: int,
                                           maxItems: nat)
    requires ListBacked(server, list) && 0 <= offset <= |list|
    ensures var items := Collected(server, call, offset, list[..offset], pageSize, maxItems);
            items <= list && (|items| == |list| || |items| >= maxItems)
    decreases maxItems - offset
  {
    if offset < maxItems {
      var page := server(call, offset, pageSize);
      assert HonestPage(page, list, offset);
      var upto := offset + |page.items|;
      assert list[..offset] + list[offset..upto] == list[..upto];
      if page.hasMore && page.items != [] {
        CollectsList(server, list, call + 1, upto, pageSize, maxItems);
      }
    }
  }

  /** Over an honest server of any page sizes, exactly the first maxItems items of the list come back. */
  lemma FetchesPrefix<T>(server: Server<T>, list: seq<T>, pageSize: int, maxItems: nat)
    requires ListBacked(server, list)
    ensures var items := Collected(server, 0, 0, [], pageSize, maxItems);
            items[..Min(|items|, maxItems)] == list[..Min(|list|, maxItems)]
  {
    assert list[..0] == [];
    CollectsList(server, list, 0, 0, pageSize, maxItems);
  }

  // ---- merging candidates --------------------------------------------------

  datatype Position = Position(accountId: string, positionKey: string, source: string)

  function MergeKey(p: Position): string { p.accountId + ":" + p.positionKey }

  function Keys(positions: seq<Position>): set<string> { set p | p in positions :: MergeKey(p) }

  /** No earlier position has the key of `all[i]`. */
  ghost predicate IsFirst(all: seq<Position>, i: nat) {
    i < |all| && forall j :: 0 <= j < i ==> MergeKey(all[j]) != MergeKey(all[i])
  }

  /** `picked` lists, in order, exactly the indices of first occurrences. */
  ghost predicate PicksFirsts(all: seq<Position>, picked: seq<nat>) {
    && (forall m :: 0 <= m < |picked| ==> IsFirst(all, picked[m]))
    && (forall m, n :: 0 <= m < n < |picked| ==> picked[m] < picked[n])
    && forall i: nat :: IsFirst(all, i) ==> i in picked
  }

  /** The stable first-occurrence merge; `picked` are the indices it keeps. */
  method MergeCandidates(withMargin: seq<Position>, withBorrow: seq<Position>)
    returns (merged: seq<Position>, ghost picked: seq<nat>)
    ensures PicksFirsts(withMargin + withBorrow, picked)
    ensures |merged| == |picked| && forall m :: 0 <= m < |picked| ==> merged[m] == (withMargin + withBorrow)[picked[m]]
    ensures Keys(merged) == Keys(withMargin + withBorrow)
  {
    hide PicksFirsts, Keys, MergeKey;
    var all := withMargin + withBorrow;
    StartsEmpty(all);
    var seen: set<string> := {};
    merged, picked := [], [];
    for i := 0 to |all|
      invariant seen == Keys(all[..i]) == Keys(merged)
      invariant PicksFirsts(all[..i], picked)
      invariant |merged| == |picked| && forall m :: 0 <= m < |picked| ==> picked[m] < i && merged[m] == all[picked[m]]
    {
      var key := MergeKey(all[i]);
      KeysOneMore(all[..i], all[i]);
      KeysOneMore(merged, all[i]);
      PickOneMore(all, i, picked);
      assert all[..i] + [all[i]] == all[..i + 1];
      if key in seen {
        continue;
      }
      seen := seen + {key};
      merged := merged + [all[i]];
      picked := picked + [i];
    }
    assert all[..|all|] == all;
  }

  lemma StartsEmpty(all: seq<Position>)
    ensures Keys([]) == {} && PicksFirsts(all[..0], [])
  {}

  lemma KeysOneMore(positions: seq<Position>, p: Position)
    ensures Keys(positions + [p]) == Keys(positions) + {MergeKey(p)}
  {
    assert forall q :: q in positions + [p] <==> q in positions || q == p;
  }

  lemma PickOneMore(all: seq<Position>, i: nat, picked: seq<nat>)
    requires i < |all| && PicksFirsts(all[..i], picked)
    requires forall m :: 0 <= m < |picked| ==> picked[m] < i
    ensures PicksFirsts(all[..i + 1], if MergeKey(all[i]) in Keys(all[..i]) then picked else picked + [i])
  {
    var longer := all[..i + 1];
    forall j: nat | j < i ensures IsFirst(longer, j) <==> IsFirst(all[..i], j) {
      assert forall k :: 0 <= k <= j ==> longer[k] == all[..i][k];
    }
    assert IsFirst(longer, i) <==> MergeKey(all[i]) !in Keys(all[..i]) by {
      if MergeKey(all[i]) in Keys(all[..i]) {
        var p :| p in all[..i] && MergeKey(p) == MergeKey(all[i]);
        var j :| 0 <= j < i && all[..i][j] == p;
        assert longer[j] == p && longer[i] == all[i];
      } else {
        forall j | 0 <= j < i ensures MergeKey(longer[j]) != MergeKey(longer[i]) {
          assert longer[j] == all[..i][j] && all[..i][j] in all[..i];
        }
      }
    }
  }

  lemma FirstColon(a: string, x: string)
    requires ':' !in a
    ensures var whole := a + ":" + x;
            IndexOf(whole, ':') == |a| && whole[..|a|] == a && whole[|a| + 1..] == x
  {
    var whole := a + ":" + x;
    assert whole[|a|] == ':';
    assert forall j :: 0 <= j < |a| ==> whole[j] == a[j];
  }

  /** For object ids as accounts, the merge key tells accounts and position keys apart. */
  lemma MergeKeyIsInjective(p: Position, q: Position)
    requires IsHexId(p.accountId) && IsHexId(q.accountId) && MergeKey(p) == MergeKey(q)
    ensures p.accountId == q.accountId && p.positionKey == q.positionKey
  {
    FirstColon(p.accountId, p.positionKey);
    FirstColon(q.accountId, q.positionKey);
  }

  /**
   The liquidation candidates: up to 5000 open positions with margin, then up to 5000 with a borrow, in pages of 500,
   merged. Over honest servers these are the first of each list.
   */
  method FetchLiquidationCandidates(margins: Server<Position>, borrows: Server<Position>,
                                    ghost withMargin: seq<Position>, ghost withBorrow: seq<Position>)
    returns (merged: seq<Position>, ghost picked: seq<nat>)
    requires ListBacked(margins, withMargin) && ListBacked(borrows, withBorrow)
    ensures var all := withMargin[..Min(|withMargin|, 5_000)] + withBorrow[..Min(|withBorrow|, 5_000)];
            && PicksFirsts(all, picked) && |merged| == |picked|
            && (forall m :: 0 <= m < |picked| ==> merged[m] == all[picked[m]])
            && Keys(merged) == Keys(all)
  {
    FetchesPrefix(margins, withMargin, PAGE_SIZE, MAX_ITEMS);
    FetchesPrefix(borrows, withBorrow, PAGE_SIZE, MAX_ITEMS);
    var first := FetchAllPages(margins, PAGE_SIZE, MAX_ITEMS);
    var second := FetchAllPages(borrows, PAGE_SIZE, MAX_ITEMS);
    merged, picked := MergeCandidates(first, second);
  }

  /** The key of a position is its account, a colon and its position key. */
  lemma MergeKeySample()
    ensures MergeKey(Position("0xa1", "btc-up", "margin")) == "0xa1:btc-up"
  {}
}
