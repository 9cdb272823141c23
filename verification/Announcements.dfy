/** Announcements, the server that holds them, and what a crawl of it can return.

    The server truncates, repeats and omits.  It is an arbitrary function from
    (request number, query, page) to a reply, restricted only by `Truthful`:
    the total it states is exact and every entry it lists matches the query. */
module Announcements {
  import opened Wrappers

  const MAX_ITEMS: nat := 2970
  const PAGE_LIMIT: nat := 100
  const QUERY_REQUESTS: nat := 102

  const PLATES: seq<string> := ["szmb", "szcy", "shmb", "shkcp", "bj"]

  const TRADES: seq<string> :=
    ["农、林、牧、渔业", "采矿业", "制造业", "电力、热力、燃气及水生产和供应业", "建筑业", "批发和零售业",
     "交通运输、仓储和邮政业", "住宿和餐饮业", "信息传输、软件和信息技术服务业", "金融业", "房地产业",
     "租赁和商务服务业", "科学研究和技术服务业", "水利、环境和公共设施管理业", "居民服务、修理和其他服务业",
     "教育", "卫生和社会工作", "文化、体育和娱乐业", "综合"]

  const CATEGORIES: seq<string> :=
    ["category_ndbg_szsh", "category_bndbg_szsh", "category_yjdbg_szsh", "category_sjdbg_szsh",
     "category_yjygjxz_szsh", "category_qyfpxzcs_szsh", "category_dshgg_szsh", "category_jshgg_szsh",
     "category_gddh_szsh", "category_rcjy_szsh", "category_gszl_szsh", "category_zj_szsh",
     "category_sf_szsh", "category_zf_szsh", "category_gqjl_szsh", "category_pg_szsh", "category_jj_szsh",
     "category_gszq_szsh", "category_kzzq_szsh", "category_qtrz_szsh", "category_gqbd_szsh",
     "category_bcgz_szsh", "category_cqdq_szsh", "category_fxts_szsh", "category_tbclts_szsh",
     "category_tszlq_szsh"]

  const CATEGORY_SPLIT_REQUESTS: nat := 26 * (2 * QUERY_REQUESTS)
  const TRADE_SPLIT_REQUESTS: nat := 19 * (QUERY_REQUESTS + CATEGORY_SPLIT_REQUESTS)
  const DAY_REQUESTS: nat := 5 * (QUERY_REQUESTS + TRADE_SPLIT_REQUESTS)

  /** A joint announcement carries one id under several stocks, so the key is the pair. */
  datatype Announcement = Announcement(id: string, code: string, day: int, title: string,
                                       plates: set<string>, trades: set<string>, categories: set<string>)
  {
    function Key(): (string, string) { (id, code) }
  }

  /** An empty string means "no restriction", as in the request payload. */
  datatype Query = Query(stock: string, searchkey: string, first: int, last: int,
                         plate: string, category: string, trade: string)

  /** What the server holds.  How it reads the stock and keyword fields is left open. */
  datatype Site = Site(held: set<Announcement>, selects: (string, string, Announcement) -> bool)
  {
    predicate Matches(q: Query, a: Announcement) {
      && q.first <= a.day <= q.last
      && selects(q.stock, q.searchkey, a)
      && (q.plate == "" || q.plate in a.plates)
      && (q.category == "" || q.category in a.categories)
      && (q.trade == "" || q.trade in a.trades)
    }

    function Matching(q: Query): set<Announcement> {
      set a | a in held && Matches(q, a)
    }

    ghost predicate KeysUnique() {
      forall a, b :: a in held && b in held && a.Key() == b.Key() ==> a == b
    }

    /** The documented contract of the boards: disjoint, and together the whole market. */
    ghost predicate BoardsPartition() {
      && (forall a :: a in held ==> exists i :: 0 <= i < |PLATES| && PLATES[i] in a.plates)
      && (forall a, i, j :: a in held && 0 <= i < j < |PLATES| && PLATES[i] in a.plates ==> PLATES[j] !in a.plates)
    }
  }

  datatype Reply = Down | Page(total: Option<int>, entries: seq<Announcement>, more: bool)

  ghost predicate Truthful(site: Site, reply: (nat, Query, nat) -> Reply) {
    forall n: nat, q: Query, p: nat :: Honest(site, q, reply(n, q, p))
  }

  ghost predicate Honest(site: Site, q: Query, r: Reply) {
    r.Page? ==>
      && (r.total.Some? ==> r.total.value == |site.Matching(q)|)
      && forall i :: 0 <= i < |r.entries| ==> r.entries[i] in site.Matching(q)
  }

  /** A server at its best: at every moment a query's pages list each of its matches exactly once. */
  ghost predicate ServesAll(site: Site, reply: (nat, Query, nat) -> Reply) {
    exists pages: Query -> seq<seq<Announcement>> :: ServesBy(site, reply, pages)
  }

  ghost predicate ServesBy(site: Site, reply: (nat, Query, nat) -> Reply, pages: Query -> seq<seq<Announcement>>) {
    && (forall q: Query :: Divided(pages(q), site.Matching(q)))
    && (forall n: nat, q: Query, p: nat :: 1 <= p <= |pages(q)| ==>
          reply(n, q, p) == Page(Some(|site.Matching(q)|), pages(q)[p - 1], p < |pages(q)|))
  }

  /** Non-empty pages (but for a single empty one) that hold every match once; a query that fits has at most 100. */
  ghost predicate Divided(pages: seq<seq<Announcement>>, want: set<Announcement>) {
    && pages != [] && (|pages| > 1 ==> forall p :: 0 <= p < |pages| ==> pages[p] != [])
    && (|want| <= MAX_ITEMS ==> |pages| <= PAGE_LIMIT)
    && (forall a :: a in want ==> ListedBefore(pages, |pages|, a))
    && (forall p, r, a :: 0 <= p < r < |pages| && a in pages[p] ==> a !in pages[r])
  }

  ghost predicate ListedBefore(pages: seq<seq<Announcement>>, n: nat, a: Announcement)
    requires n <= |pages|
  {
    exists p :: 0 <= p < n && a in pages[p]
  }

  /** One query suffices, or one query per industry does and the industries cover everything. */
  ghost predicate BoardFits(site: Site, q: Query) {
    |site.Matching(q)| <= MAX_ITEMS || TradesFit(site, q)
  }

  ghost predicate TradesFit(site: Site, q: Query) {
    && FirstTradesFit(site, q, |TRADES|)
    && (forall a :: a in site.Matching(q) ==> InTrades(a, |TRADES|))
  }

  ghost predicate FirstTradesFit(site: Site, q: Query, n: nat)
    requires n <= |TRADES|
  {
    forall i :: 0 <= i < n ==> |site.Matching(q.(trade := TRADES[i]))| <= MAX_ITEMS
  }

  ghost predicate InTrades(a: Announcement, n: nat)
    requires n <= |TRADES|
  {
    exists i :: 0 <= i < n && TRADES[i] in a.trades
  }

  ghost predicate InCategories(a: Announcement, n: nat)
    requires n <= |CATEGORIES|
  {
    exists i :: 0 <= i < n && CATEGORIES[i] in a.categories
  }

  ghost predicate CategoriesFit(site: Site, q: Query) {
    forall i :: 0 <= i < |CATEGORIES| ==> |site.Matching(q.(category := CATEGORIES[i]))| <= MAX_ITEMS
  }

  /** Every single day fits, board by board when no board is asked for. */
  ghost predicate Fits(site: Site, q: Query) {
    forall d :: q.first <= d <= q.last ==> DayFits(site, q, d)
  }

  ghost predicate DayFits(site: Site, q: Query, d: int) {
    if q.plate != "" then BoardFits(site, q.(first := d, last := d))
    else forall i :: 0 <= i < |PLATES| ==> BoardFits(site, q.(first := d, last := d, plate := PLATES[i]))
  }

  /** The four ways a query ends besides success are the source's exceptions. */
  datatype Fetched =
    | Items(items: seq<Announcement>)
    | TooBig(total: int)
    | Incomplete(items: seq<Announcement>, total: int)
    | DupPage(items: seq<Announcement>, total: int)
    | Fatal

  datatype Crawled = Got(items: seq<Announcement>) | Aborted

  datatype Note =
    | CategoryTooBig(trade: string, category: string, total: int)
    | CategoryRepeats(trade: string, category: string, got: nat, total: int)
    | TradeTooBig(trade: string, total: int)
    | TradeRepeats(trade: string)

  /** `plate == ""` marks an entry about the whole day. */
  datatype Warning = Warning(day: int, plate: string, got: nat, total: int, notes: seq<Note>)
  {
    predicate Explains(a: Announcement) {
      day == a.day && (plate == "" || plate in a.plates)
    }
  }

  ghost predicate Distinct(items: seq<Announcement>) {
    forall i, j :: 0 <= i < j < |items| ==> items[i].Key() != items[j].Key()
  }

  ghost predicate Drawn(items: seq<Announcement>, from: set<Announcement>) {
    Distinct(items) && forall i :: 0 <= i < |items| ==> items[i] in from
  }

  /** Nothing of `want` is silently lost: it was returned, or some warning names its day and board. */
  ghost predicate Accounted(want: set<Announcement>, items: seq<Announcement>, warned: seq<Warning>) {
    forall a :: a in want ==> a in items || Explained(a, warned)
  }

  ghost predicate Explained(a: Announcement, warned: seq<Warning>) {
    exists w :: w in warned && w.Explains(a)
  }

  lemma {:induction false} DrawnBounded(items: seq<Announcement>, from: set<Announcement>)
    requires Drawn(items, from)
    ensures |items| <= |from|
    ensures |items| == |from| ==> forall a :: a in from ==> a in items
  {
    if items == [] {
    } else {
      var n := |items| - 1;
      var rest := from - {items[n]};
      forall i | 0 <= i < n
        ensures items[..n][i] in rest
      {
        assert items[i].Key() != items[n].Key();
      }
      DrawnBounded(items[..n], rest);
      assert |from| == |rest| + 1;
      if |items| == |from| {
        forall a | a in from
          ensures a in items
        {
          if a != items[n] {
            assert a in rest;
            assert a in items[..n];
          }
        }
      }
    }
  }

  /** The no-silent-loss reading of `Accounted`: without a warning the answer is exact. */
  lemma AccountedWithoutWarningIsExact(want: set<Announcement>, items: seq<Announcement>)
    requires Drawn(items, want) && Accounted(want, items, [])
    ensures (set a | a in items) == want && |items| == |want|
  {
    forall a | a in want
      ensures a in items
    {
      assert a in items || Explained(a, []);
    }
    DrawnBounded(items, want);
    CountOfAll(items, want);
  }

  lemma {:induction false} CountOfAll(items: seq<Announcement>, want: set<Announcement>)
    requires Distinct(items) && (forall a :: a in want ==> a in items)
    ensures |want| <= |items|
  {
    if items == [] {
      assert want == {};
    } else {
      var n := |items| - 1;
      var rest := want - {items[n]};
      forall a | a in rest
        ensures a in items[..n]
      {
        assert a in items;
      }
      CountOfAll(items[..n], rest);
      assert want <= rest + {items[n]};
      assert |want| <= |rest + {items[n]}| <= |rest| + 1;
    }
  }

  ghost function Pages(site: Site, reply: (nat, Query, nat) -> Reply, q: Query): (pages: seq<seq<Announcement>>)
    requires ServesAll(site, reply)
    ensures Divided(pages, site.Matching(q))
    ensures forall n: nat, p: nat :: 1 <= p <= |pages| ==>
              reply(n, q, p) == Page(Some(|site.Matching(q)|), pages[p - 1], p < |pages|)
  {
    var pages: Query -> seq<seq<Announcement>> :| ServesBy(site, reply, pages);
    pages(q)
  }

  lemma NothingFresh(items: seq<Announcement>, items': seq<Announcement>, got: seq<Announcement>)
    requires items <= items' && Distinct(items') && forall a :: a in items' <==> a in items || a in got
    ensures |items'| == |items| <==> forall a :: a in got ==> a in items
  {
    if |items'| == |items| {
      assert items' == items;
    } else {
      var a := items'[|items|];
      assert a in items' && a !in items;
    }
  }

  lemma FitsByHalves(site: Site, q: Query, mid: int)
    requires q.first <= mid < q.last
    ensures Fits(site, q) <==> Fits(site, q.(last := mid)) && Fits(site, q.(first := mid + 1))
  {
    SameDays(site, q, q.(last := mid));
    SameDays(site, q, q.(first := mid + 1));
  }

  lemma SameDays(site: Site, q: Query, part: Query)
    requires part == q.(first := part.first, last := part.last)
    ensures forall d :: DayFits(site, part, d) <==> DayFits(site, q, d)
  {
    forall d
      ensures DayFits(site, part, d) <==> DayFits(site, q, d)
    {
      assert part.(first := d, last := d) == q.(first := d, last := d);
      assert forall plate :: part.(first := d, last := d, plate := plate) == q.(first := d, last := d, plate := plate);
    }
  }

  lemma OneDayFits(site: Site, q: Query)
    requires q.first == q.last
    ensures Fits(site, q) <==> DayFits(site, q, q.first)
    ensures q.plate != "" ==> (Fits(site, q) <==> BoardFits(site, q))
  {
    assert q.(first := q.first, last := q.first) == q;
  }

  /** A range that one query can page through fits day by day. */
  lemma SmallRangeFits(site: Site, q: Query)
    requires |site.Matching(q)| <= MAX_ITEMS
    ensures Fits(site, q)
  {
    forall d | q.first <= d <= q.last
      ensures DayFits(site, q, d)
    {
      SmallerPart(site, q, q.(first := d, last := d));
      if q.plate == "" {
        forall i | 0 <= i < |PLATES|
          ensures |site.Matching(q.(first := d, last := d, plate := PLATES[i]))| <= MAX_ITEMS
        {
          SmallerPart(site, q, q.(first := d, last := d, plate := PLATES[i]));
        }
      }
    }
  }

  lemma SmallerPart(site: Site, q: Query, part: Query)
    requires q.first <= part.first && part.last <= q.last
    requires part == q.(first := part.first, last := part.last, plate := part.plate)
    requires q.plate == "" || q.plate == part.plate
    ensures |site.Matching(part)| <= |site.Matching(q)|
  {
    assert site.Matching(part) <= site.Matching(q);
    SubsetIsSmaller(site.Matching(part), site.Matching(q));
  }

  lemma SubsetIsSmaller<T>(a: set<T>, b: set<T>)
    requires a <= b
    ensures |a| <= |b|
  {
    assert b == a + (b - a);
  }

  /** The first n industries: entries of theirs only; against a server that lists everything there is no note if and only
      if they all fit, and then all their entries are there. */
  ghost predicate FromTrades(site: Site, q: Query, n: nat, items: seq<Announcement>, good: bool, quiet: bool)
    requires n <= |TRADES|
  {
    && (forall a :: a in items ==> InTrades(a, n))
    && (good ==> (quiet <==> FirstTradesFit(site, q, n)))
    && (good && quiet ==> forall a :: a in site.Matching(q) && InTrades(a, n) ==> a in items)
  }

  lemma OneMoreIndustry(site: Site, q: Query, n: nat, held: seq<Announcement>, items: seq<Announcement>, good: bool,
                        wasQuiet: bool, quiet: bool)
    requires n < |TRADES| && FromTrades(site, q, n, held, good, wasQuiet) && held <= items
    requires forall a :: a in items ==> a in held || TRADES[n] in a.trades
    requires var fits := |site.Matching(q.(trade := TRADES[n]))| <= MAX_ITEMS;
             && (good ==> (quiet <==> wasQuiet && fits))
             && (good && fits ==> forall a :: a in site.Matching(q) && TRADES[n] in a.trades ==> a in items)
    ensures FromTrades(site, q, n + 1, items, good, quiet)
  {
    forall a
      ensures InTrades(a, n + 1) <==> InTrades(a, n) || TRADES[n] in a.trades
    {
    }
    assert forall a :: a in held ==> a in items;
  }

  /** What is asked industry by industry adds up to the total exactly when the industries fit and cover it. */
  lemma TradesSumUp(site: Site, q: Query, items: seq<Announcement>, fit: bool)
    requires Drawn(items, site.Matching(q)) && forall a :: a in items ==> InTrades(a, |TRADES|)
    requires fit <==> FirstTradesFit(site, q, |TRADES|)
    requires fit ==> forall a :: a in site.Matching(q) && InTrades(a, |TRADES|) ==> a in items
    ensures fit && |items| == |site.Matching(q)| <==> TradesFit(site, q)
  {
    DrawnBounded(items, site.Matching(q));
    if TradesFit(site, q) {
      CountOfAll(items, site.Matching(q));
    }
  }

  /** One of the first n boards has more than one query can page through. */
  ghost predicate BoardTooBig(site: Site, q: Query, n: nat)
    requires n <= |PLATES|
  {
    exists i :: 0 <= i < n && |site.Matching(q.(plate := PLATES[i]))| > MAX_ITEMS
  }

  ghost predicate FirstBoardsFit(site: Site, q: Query, n: nat)
    requires n <= |PLATES|
  {
    forall i :: 0 <= i < n ==> BoardFits(site, q.(plate := PLATES[i]))
  }

  /** After n boards: the flag tells a board that had to be split, a quiet crawl that all of them fit. */
  ghost predicate Judged(site: Site, q: Query, n: nat, split: bool, quiet: bool)
    requires n <= |PLATES|
  {
    (split <==> BoardTooBig(site, q, n)) && (quiet <==> FirstBoardsFit(site, q, n))
  }

  /** What the first n boards gave: entries of theirs, free of repeats when the boards are disjoint, and every missing
      entry of theirs explained. */
  ghost predicate FromBoards(site: Site, q: Query, n: nat, items: seq<Announcement>, warned: seq<Warning>)
    requires n <= |PLATES|
  {
    && (forall i :: 0 <= i < |items| ==> items[i] in site.Matching(q) && OnBoards(items[i], n))
    && (site.BoardsPartition() ==> Distinct(items))
    && AccountedBoards(site.Matching(q), n, items, warned)
  }

  lemma OneMoreBoard(site: Site, q: Query, n: nat, items: seq<Announcement>, more: seq<Announcement>,
                     warned: seq<Warning>, added: seq<Warning>)
    requires site.KeysUnique() && n < |PLATES| && q.plate == "" && FromBoards(site, q, n, items, warned)
    requires Drawn(more, site.Matching(q.(plate := PLATES[n]))) && Accounted(site.Matching(q.(plate := PLATES[n])), more, added)
    ensures FromBoards(site, q, n + 1, items + more, warned + added)
  {
    AppendBoard(site, q, n, items, more);
    AccountBoard(site, q, n, items, more, warned, added);
  }

  lemma WarningsGrow(a: seq<Warning>, b: seq<Warning>, c: seq<Warning>)
    requires a <= b && b <= c
    ensures c[|a|..] == b[|a|..] + c[|b|..]
  {
  }

  lemma NextBoard(site: Site, q: Query, n: nat)
    requires n < |PLATES| && q.plate == "" && q.first == q.last
    ensures FirstBoardsFit(site, q, n + 1) <==> FirstBoardsFit(site, q, n) && BoardFits(site, q.(plate := PLATES[n]))
    ensures BoardTooBig(site, q, n + 1) <==>
              BoardTooBig(site, q, n) || |site.Matching(q.(plate := PLATES[n]))| > MAX_ITEMS
  {
  }

  lemma DayFitsByBoard(site: Site, q: Query)
    requires q.plate == "" && q.first == q.last
    ensures DayFits(site, q, q.first) <==> FirstBoardsFit(site, q, |PLATES|)
  {
    assert forall i :: 0 <= i < |PLATES| ==>
      q.(first := q.first, last := q.first, plate := PLATES[i]) == q.(plate := PLATES[i]);
  }

  lemma MoreWarnings(want: set<Announcement>, items: seq<Announcement>, warned: seq<Warning>, more: seq<Warning>)
    requires AccountedBoards(want, |PLATES|, items, warned) && warned <= more
    ensures AccountedBoards(want, |PLATES|, items, more)
  {
    forall a | a in want && OnBoards(a, |PLATES|)
      ensures a in items || Explained(a, more)
    {
      assert a in items || Explained(a, warned);
    }
  }

  lemma BoardsAreAll(site: Site, q: Query, items: seq<Announcement>, warned: seq<Warning>)
    requires site.BoardsPartition() && AccountedBoards(site.Matching(q), |PLATES|, items, warned)
    ensures Accounted(site.Matching(q), items, warned)
  {
    forall a | a in site.Matching(q)
      ensures a in items || Explained(a, warned)
    {
      assert a in site.held && OnBoards(a, |PLATES|);
    }
  }

  lemma BoardsAnswered(want: set<Announcement>, items: seq<Announcement>)
    requires AccountedBoards(want, |PLATES|, items, [])
    ensures forall a :: a in want && OnBoards(a, |PLATES|) ==> a in items
  {
    forall a | a in want && OnBoards(a, |PLATES|)
      ensures a in items
    {
      assert a in items || Explained(a, []);
    }
  }

  /** Complete board answers add up to the day's total. */
  lemma BoardsSumUp(site: Site, q: Query, items: seq<Announcement>)
    requires site.BoardsPartition() && Drawn(items, site.Matching(q))
    requires AccountedBoards(site.Matching(q), |PLATES|, items, [])
    ensures |items| == |site.Matching(q)|
  {
    forall a | a in site.Matching(q)
      ensures a in items
    {
      assert a in site.held && OnBoards(a, |PLATES|);
      assert a in items || Explained(a, []);
    }
    DrawnBounded(items, site.Matching(q));
    CountOfAll(items, site.Matching(q));
  }

  /** Every item belongs to the query.  If the boards partition the market (or one board is asked for), no key
      comes twice, whatever is missing is explained by one of the warnings, and without a warning nothing is missing. */
  ghost predicate NothingSilentlyLost(site: Site, q: Query, items: seq<Announcement>, warned: seq<Warning>) {
    && (forall i :: 0 <= i < |items| ==> items[i] in site.Matching(q))
    && (q.plate != "" || site.BoardsPartition() ==>
          && Drawn(items, site.Matching(q))
          && Accounted(site.Matching(q), items, warned)
          && (warned == [] ==> forall a :: a in site.Matching(q) ==> a in items))
  }

  lemma WholeDayWarned(site: Site, q: Query, items: seq<Announcement>, w: Warning)
    requires Drawn(items, site.Matching(q)) && w.day == q.first && q.last <= q.first
    requires w.plate == "" || w.plate == q.plate
    ensures NothingSilentlyLost(site, q, items, [w])
  {
    forall a | a in site.Matching(q)
      ensures Explained(a, [w])
    {
      assert w in [w] && w.Explains(a);
    }
  }

  lemma AllExplained(site: Site, q: Query, w: Warning, warned: seq<Warning>)
    requires w in warned && w.day == q.first == q.last && w.plate == q.plate
    ensures forall a :: a in site.Matching(q) ==> Explained(a, warned)
  {
    forall a | a in site.Matching(q)
      ensures Explained(a, warned)
    {
      assert w.Explains(a);
    }
  }

  lemma AccountedIsEnough(site: Site, q: Query, items: seq<Announcement>, warned: seq<Warning>)
    requires forall i :: 0 <= i < |items| ==> items[i] in site.Matching(q)
    requires q.plate != "" || site.BoardsPartition() ==>
               Drawn(items, site.Matching(q)) && Accounted(site.Matching(q), items, warned)
    ensures NothingSilentlyLost(site, q, items, warned)
  {
    if warned == [] && (q.plate != "" || site.BoardsPartition()) {
      forall a | a in site.Matching(q)
        ensures a in items
      {
        assert a in items || Explained(a, warned);
      }
    }
  }

  ghost predicate AccountedBoards(want: set<Announcement>, n: nat, items: seq<Announcement>, warned: seq<Warning>)
    requires n <= |PLATES|
  {
    forall a :: a in want && OnBoards(a, n) ==> a in items || Explained(a, warned)
  }

  lemma AccountBoard(site: Site, q: Query, n: nat, items: seq<Announcement>, more: seq<Announcement>,
                     warned: seq<Warning>, added: seq<Warning>)
    requires n < |PLATES| && q.plate == ""
    requires AccountedBoards(site.Matching(q), n, items, warned)
    requires Accounted(site.Matching(q.(plate := PLATES[n])), more, added)
    ensures AccountedBoards(site.Matching(q), n + 1, items + more, warned + added)
  {
    forall a | a in site.Matching(q) && OnBoards(a, n + 1)
      ensures a in items + more || Explained(a, warned + added)
    {
      if OnBoards(a, n) {
        assert a in items || Explained(a, warned);
      } else {
        assert a in site.Matching(q.(plate := PLATES[n]));
      }
    }
  }

  ghost predicate OnBoards(a: Announcement, n: nat)
    requires n <= |PLATES|
  {
    exists i :: 0 <= i < n && PLATES[i] in a.plates
  }

  lemma BoardsDisjoint(site: Site, a: Announcement, b: Announcement, n: nat)
    requires site.BoardsPartition() && n < |PLATES| && OnBoards(a, n) && PLATES[n] in b.plates
    requires a in site.held && b in site.held && site.KeysUnique()
    ensures a.Key() != b.Key()
  {
    assert OnBoards(a, n);
    var i :| 0 <= i < n && PLATES[i] in a.plates;
    assert PLATES[n] !in a.plates;
  }

  /** Entries of a further board keep the list free of repeats when the boards are disjoint. */
  lemma AppendBoard(site: Site, q: Query, n: nat, items: seq<Announcement>, more: seq<Announcement>)
    requires site.KeysUnique() && n < |PLATES| && q.plate == ""
    requires forall i :: 0 <= i < |items| ==> items[i] in site.Matching(q) && OnBoards(items[i], n)
    requires site.BoardsPartition() ==> Distinct(items)
    requires Drawn(more, site.Matching(q.(plate := PLATES[n])))
    ensures forall i :: 0 <= i < |items + more| ==>
              (items + more)[i] in site.Matching(q) && OnBoards((items + more)[i], n + 1)
    ensures site.BoardsPartition() ==> Distinct(items + more)
  {
    forall i | 0 <= i < |more|
      ensures more[i] in site.Matching(q) && PLATES[n] in more[i].plates
    {
      assert more[i] in site.Matching(q.(plate := PLATES[n]));
      assert PLATES[n] != "";
    }
    if site.BoardsPartition() {
      forall i, j | 0 <= i < |items| && 0 <= j < |more|
        ensures items[i].Key() != more[j].Key()
      {
        assert items[i] in site.held && more[j] in site.held && OnBoards(items[i], n);
        BoardsDisjoint(site, items[i], more[j], n);
      }
    }
  }

  lemma JoinHalves(site: Site, q: Query, mid: int, left: seq<Announcement>, right: seq<Announcement>,
                   warnedLeft: seq<Warning>, warnedRight: seq<Warning>)
    requires site.KeysUnique() && q.first <= mid < q.last
    requires NothingSilentlyLost(site, q.(last := mid), left, warnedLeft)
    requires NothingSilentlyLost(site, q.(first := mid + 1), right, warnedRight)
    ensures NothingSilentlyLost(site, q, left + right, warnedLeft + warnedRight)
  {
    var wantLeft, wantRight := site.Matching(q.(last := mid)), site.Matching(q.(first := mid + 1));
    assert site.Matching(q) == wantLeft + wantRight;
    if q.plate != "" || site.BoardsPartition() {
      JoinDrawn(site, wantLeft, wantRight, left, right);
      JoinAccounted(wantLeft, wantRight, left, right, warnedLeft, warnedRight);
    }
    if warnedLeft + warnedRight == [] {
      assert warnedLeft == [] && warnedRight == [];
    }
  }

  lemma JoinDrawn(site: Site, wantLeft: set<Announcement>, wantRight: set<Announcement>,
                  left: seq<Announcement>, right: seq<Announcement>)
    requires site.KeysUnique() && wantLeft + wantRight <= site.held && wantLeft !! wantRight
    requires Drawn(left, wantLeft) && Drawn(right, wantRight)
    ensures Drawn(left + right, wantLeft + wantRight)
  {
    forall i, j | 0 <= i < |left| && 0 <= j < |right|
      ensures left[i].Key() != right[j].Key()
    {
      assert left[i] in wantLeft && right[j] in wantRight;
    }
  }

  lemma JoinAccounted(wantLeft: set<Announcement>, wantRight: set<Announcement>,
                      left: seq<Announcement>, right: seq<Announcement>,
                      warnedLeft: seq<Warning>, warnedRight: seq<Warning>)
    requires Accounted(wantLeft, left, warnedLeft) && Accounted(wantRight, right, warnedRight)
    ensures Accounted(wantLeft + wantRight, left + right, warnedLeft + warnedRight)
  {
    forall a | a in wantLeft + wantRight
      ensures a in left + right || Explained(a, warnedLeft + warnedRight)
    {
      if a in wantLeft {
        assert a in left || Explained(a, warnedLeft);
      } else {
        assert a in right || Explained(a, warnedRight);
      }
    }
  }

  /** A crawl of n days makes at most 2n-1 range queries and n single-day splits. */
  function RangeRequests(first: int, last: int): nat {
    if last <= first then QUERY_REQUESTS + DAY_REQUESTS
    else QUERY_REQUESTS * (2 * (last - first) + 1) + DAY_REQUESTS * (last - first + 1)
  }

  lemma HalvesRequests(first: int, mid: int, last: int)
    requires first <= mid < last
    ensures RangeRequests(first, mid) + RangeRequests(mid + 1, last) <= RangeRequests(first, last) - QUERY_REQUESTS
  {
  }
}
