/** The announcement crawler of scripts/collect/cninfo_history.py: it bisects date ranges, then splits by board, by
    industry and by category, and leaves a warning wherever it accepts less than the total. */
module Crawler {
  import opened Wrappers
  import opened Announcements
  import opened QueryLog

  class Session {
    const site: Site
    const reply: (nat, Query, nat) -> Reply
    var requests: nat
    var warnings: seq<Warning>
    ghost var calls: seq<Call>

    ghost predicate Valid()
    {
      Truthful(site, reply) && site.KeysUnique()
    }

    constructor (site: Site, reply: (nat, Query, nat) -> Reply)
      ensures this.site == site && this.reply == reply
      ensures requests == 0 && warnings == [] && calls == []
    {
      this.site, this.reply := site, reply;
      requests, warnings, calls := 0, [], [];
    }

    /** One page request, after all its internal retries. */
    method Post(q: Query, page: nat) returns (r: Reply)
      requires Valid()
      modifies this`requests
      ensures requests == old(requests) + 1 && r == reply(old(requests), q, page)
      ensures Honest(site, q, r)
    {
      r := reply(requests, q, page);
      assert Honest(site, q, reply(requests, q, page));
      requests := requests + 1;
    }

    /** Append the entries whose key is new. */
    method Absorb(items: seq<Announcement>, seen: set<(string, string)>, got: seq<Announcement>,
                  ghost from: set<Announcement>)
      returns (items': seq<Announcement>, seen': set<(string, string)>)
      requires Valid() && from <= site.held
      requires Drawn(items, from) && seen == set a | a in items :: a.Key()
      requires forall i :: 0 <= i < |got| ==> got[i] in from
      ensures Drawn(items', from) && seen' == set a | a in items' :: a.Key()
      ensures items <= items'
      ensures forall a :: a in items' <==> a in items || a in got
      ensures |items'| == |items| <==> forall a :: a in got ==> a in items
    {
      items', seen' := items, seen;
      for n := 0 to |got|
        invariant Drawn(items', from) && seen' == set a | a in items' :: a.Key()
        invariant items <= items'
        invariant forall a :: a in items' <==> a in items || a in got[..n]
      {
        var it := got[n];
        assert forall a :: a in got[..n + 1] <==> a in got[..n] || a == it;
        if it.Key() !in seen' {
          forall i | 0 <= i < |items'|
            ensures items'[i].Key() != it.Key()
          {
            assert items'[i] in items';
          }
          seen' := seen' + {it.Key()};
          ghost var before := items';
          items' := items' + [it];
          assert forall a :: a in items' <==> a in before || a == it;
        } else {
          var a :| a in items' && a.Key() == it.Key();
          assert a in from && a in site.held;
        }
      }
      assert got[..|got|] == got;
      NothingFresh(items, items', got);
    }

    /** `query_pages`: the call is on record with its requests, their replies and its outcome. */
    method QueryPages(q: Query, allowPartial: bool) returns (r: Fetched)
      requires Valid()
      modifies this`requests, this`calls
      ensures old(requests) < requests <= old(requests) + QUERY_REQUESTS
      ensures r.Items? || r.Incomplete? || r.DupPage? ==> Drawn(r.items, site.Matching(q))
      ensures r.Items? && !allowPartial ==>
                |site.Matching(q)| <= MAX_ITEMS && forall a :: a in site.Matching(q) ==> a in r.items
      ensures r.TooBig? ==> !allowPartial && r.total == |site.Matching(q)| > MAX_ITEMS
      ensures r.Incomplete? ==> !allowPartial && |r.items| < |site.Matching(q)| == r.total
      ensures r.DupPage? ==> !allowPartial && 0 < |site.Matching(q)| == r.total
      ensures ServesAll(site, reply) ==> r.Items? || r.TooBig?
      ensures |calls| == |old(calls)| + 1 && old(calls) <= calls
      ensures var c := calls[|old(calls)|];
              && c.q == q && c.partial == allowPartial && c.outcome == r
              && Ended(site, reply, c) && Chained(calls, |old(calls)|, old(requests), requests)
    {
      ghost var start := requests;
      ghost var pages, replies;
      r, pages, replies := ReadPages(q, allowPartial);
      if r.Items? || r.Incomplete? {
        DrawnBounded(r.items, site.Matching(q));
      }
      calls := calls + [Call(q, allowPartial, r, start, pages, replies)];
      ServedCall(site, reply, calls[|old(calls)|]);
    }

    method ReadPages(q: Query, allowPartial: bool) returns (r: Fetched, ghost pages: seq<nat>, ghost replies: seq<Reply>)
      requires Valid()
      modifies this`requests
      ensures requests == old(requests) + |pages| && 0 < |pages| <= QUERY_REQUESTS
      ensures Ended(site, reply, Call(q, allowPartial, r, old(requests), pages, replies))
    {
      ghost var start := requests;
      var d := Post(q, 1);
      pages, replies := [1], [d];
      if d.Down? || d.total.None? {
        return Fatal, pages, replies;
      }
      var total := d.total.value;
      if total > MAX_ITEMS && !allowPartial {
        return TooBig(total), pages, replies;
      }
      var s := Reader([], {}, 1, 0, d);
      var end: Option<Fetched> := None;
      while end.None?
        invariant requests == start + |pages| && 0 < |pages| <= QUERY_REQUESTS
        invariant end.None? ==> Reads(site, reply, start, q, allowPartial, total, s, pages, replies)
        invariant end.Some? ==> Ended(site, reply, Call(q, allowPartial, end.value, start, pages, replies))
        decreases end.None?, QUERY_REQUESTS - |pages|
      {
        s, end, pages, replies := ReadOn(q, allowPartial, total, s, start, pages, replies);
      }
      r := end.value;
    }

    /** Take over the page at hand; then ask for it again, for the next one, or stop. */
    method ReadOn(q: Query, allowPartial: bool, total: int, s: Reader, ghost start: nat, ghost pages: seq<nat>,
                  ghost replies: seq<Reply>)
      returns (s': Reader, end: Option<Fetched>, ghost pages': seq<nat>, ghost replies': seq<Reply>)
      requires Valid() && Reads(site, reply, start, q, allowPartial, total, s, pages, replies)
      requires requests == start + |pages| && |pages| <= QUERY_REQUESTS
      modifies this`requests
      ensures requests == start + |pages'| && 0 < |pages'| <= QUERY_REQUESTS
      ensures end.None? ==>
                |pages'| == |pages| + 1 && Reads(site, reply, start, q, allowPartial, total, s', pages', replies')
      ensures end.Some? ==> Ended(site, reply, Call(q, allowPartial, end.value, start, pages', replies'))
    {
      s', pages', replies' := s, pages, replies;
      var items, seen, stale := TakePage(q, s.items, s.seen, s.reply, replies[..|replies| - 1]);
      assert replies[..|replies| - 1] + [s.reply] == replies;
      end := Verdict(s, items, stale, total, allowPartial);
      if end.Some? {
        VerdictIsRight(site, reply, start, q, allowPartial, total, s, items, seen, stale, pages, replies);
        return;
      }
      s' := Reader(items, seen, if stale then s.page else s.page + 1, if stale then s.retries + 1 else s.retries, s.reply);
      var d;
      d, pages', replies' := NextPost(q, allowPartial, s'.page, start, pages, replies, total);
      s' := s'.(reply := d);
      end := if d.Down? then Some(Fatal) else None;
      assert replies'[..|replies'| - 1] == replies;
    }

    /** Take over a page; it is stale when all its entries are known. */
    method TakePage(q: Query, items: seq<Announcement>, seen: set<(string, string)>, d: Reply, ghost earlier: seq<Reply>)
      returns (items': seq<Announcement>, seen': set<(string, string)>, stale: bool)
      requires Valid() && d.Page? && Honest(site, q, d) && Gathered(items, seen, site.Matching(q), earlier)
      ensures Gathered(items', seen', site.Matching(q), earlier + [d])
      ensures stale <==> Stale(earlier + [d], |earlier|)
      ensures stale ==> site.Matching(q) != {}
    {
      items', seen' := Absorb(items, seen, d.entries, site.Matching(q));
      stale := d.entries != [] && |items'| == |items|;
      PageAbsorbed(earlier, d, items, items');
      assert stale ==> d.entries[0] in site.Matching(q);
    }

    /** The same page again or the next one, as the last reply demands. */
    method NextPost(q: Query, ghost partial: bool, page: nat, ghost start: nat, ghost pages: seq<nat>,
                    ghost replies: seq<Reply>, ghost total: int)
      returns (d: Reply, ghost pages': seq<nat>, ghost replies': seq<Reply>)
      requires Valid() && Reading(reply, start, q, partial, pages, replies, total) && requests == start + |pages|
      requires Follows(replies, pages[|pages| - 1], |pages| - 1, page)
      modifies this`requests
      ensures requests == old(requests) + 1 && Honest(site, q, d)
      ensures pages' == pages + [page] && replies' == replies + [d]
      ensures Reading(reply, start, q, partial, pages', replies', total)
      ensures d.Down? ==> Proper(reply, Call(q, partial, Fatal, start, pages', replies'))
    {
      NextReply(reply, start, q, pages, replies, page);
      d := Post(q, page);
      pages', replies' := pages + [page], replies + [d];
    }

    method SplitByCategory(q: Query, notes: seq<Note>) returns (r: Crawled, notes': seq<Note>)
      requires Valid() && q.category == ""
      modifies this`requests, this`calls
      ensures old(calls) <= calls && Told(reply, calls, |old(calls)|, old(requests), requests, r)
      ensures NoneShort(calls, |old(calls)|)
      ensures r.Got? && q.trade != "" ==> AllPartsAsked(calls, |old(calls)|, q)
      ensures old(requests) <= requests <= old(requests) + CATEGORY_SPLIT_REQUESTS
      ensures notes <= notes'
      ensures r.Got? ==> Drawn(r.items, site.Matching(q))
      ensures ServesAll(site, reply) ==> r.Got?
      ensures ServesAll(site, reply) && CategoriesFit(site, q) ==>
                && notes' == notes
                && forall a :: a in site.Matching(q) && InCategories(a, |CATEGORIES|) ==> a in r.items
    {
      ghost var want := site.Matching(q);
      ghost var good := ServesAll(site, reply) && CategoriesFit(site, q);
      var items, seen := [], {};
      notes' := notes;
      NothingAsked(reply, calls, requests);
      for n := 0 to |CATEGORIES|
        invariant old(calls) <= calls && CategoriesTold(reply, calls, |old(calls)|, old(requests), requests, q, n, Got(items))
        invariant old(requests) <= requests <= old(requests) + n * (2 * QUERY_REQUESTS)
        invariant notes <= notes'
        invariant Drawn(items, want) && seen == set a | a in items :: a.Key()
        invariant good ==> notes' == notes && forall a :: a in want && InCategories(a, n) ==> a in items
      {
        assert CATEGORIES[n] != "";
        ghost var held := items;
        var part;
        part, items, seen, notes' := AddCategory(q, n, items, seen, notes', |old(calls)|, old(requests));
        if part.Aborted? {
          return Aborted, notes';
        }
        assert forall a :: InCategories(a, n + 1) ==> InCategories(a, n) || CATEGORIES[n] in a.categories;
      }
      CategoriesAreParts(calls, |old(calls)|, q);
      r := Got(items);
    }

    /** One more category. */
    method AddCategory(q: Query, n: nat, items: seq<Announcement>, seen: set<(string, string)>, notes: seq<Note>,
                       ghost from: nat, ghost first: nat)
      returns (part: Crawled, items': seq<Announcement>, seen': set<(string, string)>, notes': seq<Note>)
      requires Valid() && q.category == "" && n < |CATEGORIES|
      requires Drawn(items, site.Matching(q)) && seen == set a | a in items :: a.Key()
      requires CategoriesTold(reply, calls, from, first, requests, q, n, Got(items))
      modifies this`requests, this`calls
      ensures old(calls) <= calls && old(requests) <= requests <= old(requests) + 2 * QUERY_REQUESTS
      ensures CategoriesTold(reply, calls, from, first, requests, q, n + 1,
                             if part.Got? then Got(items') else Aborted)
      ensures notes <= notes'
      ensures Drawn(items', site.Matching(q)) && seen' == set a | a in items' :: a.Key()
      ensures items <= items'
      ensures ServesAll(site, reply) ==> part.Got?
      ensures ServesAll(site, reply) && |site.Matching(q.(category := CATEGORIES[n]))| <= MAX_ITEMS ==>
                && notes' == notes
                && forall a :: a in site.Matching(q) && CATEGORIES[n] in a.categories ==> a in items'
    {
      assert CATEGORIES[n] != "";
      items', seen' := items, seen;
      part, notes' := FetchCategory(q, CATEGORIES[n], notes);
      if part.Got? {
        items', seen' := Absorb(items, seen, part.items, site.Matching(q));
      }
      OneMoreCategory(reply, old(calls), calls, from, first, old(requests), requests, q, n, items, part,
                      if part.Got? then Got(items') else Aborted);
    }

    /** One category; what does not fit is taken as far as it can be paged, and noted. */
    method FetchCategory(q: Query, category: string, notes: seq<Note>) returns (r: Crawled, notes': seq<Note>)
      requires Valid() && q.category == "" && category != ""
      modifies this`requests, this`calls
      ensures old(calls) <= calls && Told(reply, calls, |old(calls)|, old(requests), requests, r)
      ensures NoneShort(calls, |old(calls)|)
      ensures Asked(calls, |old(calls)|, q.(category := category))
      ensures old(requests) <= requests <= old(requests) + 2 * QUERY_REQUESTS
      ensures notes <= notes'
      ensures r.Got? ==> forall i :: 0 <= i < |r.items| ==> r.items[i] in site.Matching(q)
      ensures ServesAll(site, reply) ==> r.Got?
      ensures ServesAll(site, reply) && |site.Matching(q.(category := category))| <= MAX_ITEMS ==>
                && notes' == notes
                && forall a :: a in site.Matching(q) && category in a.categories ==> a in r.items
    {
      var sub := q.(category := category);
      notes' := notes;
      assert site.Matching(sub) <= site.Matching(q);
      assert forall a :: a in site.Matching(q) && category in a.categories ==> a in site.Matching(sub);
      var f := QueryPages(sub, false);
      ghost var before, middle := calls, requests;
      if f.TooBig? {
        notes' := notes + [CategoryTooBig(q.trade, category, f.total)];
        var g := QueryPages(sub, true);
        r := if g.Fatal? then Aborted else Got(g.items);
        OneCall(reply, calls, middle, requests, r);
        assert calls[|before|].q == sub;
        DividedCall(reply, before, calls, old(requests), middle, requests, r);
      } else {
        if f.DupPage? {
          notes' := notes + [CategoryRepeats(q.trade, category, |f.items|, f.total)];
        }
        r := if f.Fatal? then Aborted else Got(f.items);
        OneCall(reply, calls, old(requests), requests, r);
      }
      assert calls[|old(calls)|].q == sub;
    }

    /** One more industry. */
    method AddTrade(q: Query, n: nat, items: seq<Announcement>, seen: set<(string, string)>, notes: seq<Note>,
                    ghost from: nat, ghost first: nat)
      returns (part: Crawled, items': seq<Announcement>, seen': set<(string, string)>, notes': seq<Note>)
      requires Valid() && q.category == "" && q.trade == "" && n < |TRADES|
      requires Drawn(items, site.Matching(q)) && seen == set a | a in items :: a.Key()
      requires TradesTold(reply, calls, from, first, requests, q, n, Got(items))
      modifies this`requests, this`calls
      ensures old(calls) <= calls
      ensures old(requests) <= requests <= old(requests) + QUERY_REQUESTS + CATEGORY_SPLIT_REQUESTS
      ensures TradesTold(reply, calls, from, first, requests, q, n + 1, if part.Got? then Got(items') else Aborted)
      ensures notes <= notes'
      ensures Drawn(items', site.Matching(q)) && seen' == set a | a in items' :: a.Key()
      ensures items <= items' && forall a :: a in items' ==> a in items || TRADES[n] in a.trades
      ensures ServesAll(site, reply) ==>
                part.Got? && (notes' == notes <==> |site.Matching(q.(trade := TRADES[n]))| <= MAX_ITEMS)
      ensures ServesAll(site, reply) && |site.Matching(q.(trade := TRADES[n]))| <= MAX_ITEMS ==>
                forall a :: a in site.Matching(q) && TRADES[n] in a.trades ==> a in items'
    {
      assert TRADES[n] != "";
      items', seen' := items, seen;
      part, notes' := FetchTrade(q, TRADES[n], notes);
      if part.Got? {
        items', seen' := Absorb(items, seen, part.items, site.Matching(q));
      }
      OneMoreTrade(reply, old(calls), calls, from, first, old(requests), requests, q, n, items, part,
                   if part.Got? then Got(items') else Aborted);
    }

    /** One industry of one board on one day. */
    method FetchTrade(q: Query, trade: string, notes: seq<Note>) returns (r: Crawled, notes': seq<Note>)
      requires Valid() && q.category == "" && q.trade == "" && trade != ""
      modifies this`requests, this`calls
      ensures old(calls) <= calls && Told(reply, calls, |old(calls)|, old(requests), requests, r)
      ensures NoneShort(calls, |old(calls)|)
      ensures Asked(calls, |old(calls)|, q.(trade := trade))
      ensures old(requests) <= requests <= old(requests) + QUERY_REQUESTS + CATEGORY_SPLIT_REQUESTS
      ensures notes <= notes'
      ensures r.Got? ==> forall i :: 0 <= i < |r.items| ==> r.items[i] in site.Matching(q) && trade in r.items[i].trades
      ensures ServesAll(site, reply) ==>
                r.Got? && (notes' == notes <==> |site.Matching(q.(trade := trade))| <= MAX_ITEMS)
      ensures ServesAll(site, reply) && |site.Matching(q.(trade := trade))| <= MAX_ITEMS ==>
                forall a :: a in site.Matching(q) && trade in a.trades ==> a in r.items
    {
      var sub := q.(trade := trade);
      assert forall a :: a in site.Matching(q) && trade in a.trades ==> a in site.Matching(sub);
      notes' := notes;
      var f := QueryPages(sub, false);
      ghost var before, middle := calls, requests;
      if f.TooBig? || f.DupPage? {
        var note := if f.TooBig? then TradeTooBig(trade, f.total) else TradeRepeats(trade);
        r, notes' := SplitByCategory(sub, notes + [note]);
        DividedCall(reply, before, calls, old(requests), middle, requests, r);
      } else {
        r := if f.Fatal? then Aborted else Got(f.items);
        OneCall(reply, calls, old(requests), requests, r);
      }
      assert calls[|old(calls)|].q == sub;
      assert forall a :: a in site.Matching(sub) ==> a in site.Matching(q) && trade in a.trades;
    }

    /** One board on one day, industry by industry. */
    method SplitByTrade(q: Query, total: int) returns (r: Crawled)
      requires Valid() && q.category == "" && q.trade == "" && q.plate != ""
      requires total == |site.Matching(q)| && q.first == q.last
      modifies this`requests, this`warnings, this`calls
      ensures old(calls) <= calls && Told(reply, calls, |old(calls)|, old(requests), requests, r)
      ensures NoneShort(calls, |old(calls)|)
      ensures r.Got? ==> AllPartsAsked(calls, |old(calls)|, q)
      ensures r.Got? ==> TradesReported(q, r.items, total, old(warnings), warnings)
      ensures old(requests) <= requests <= old(requests) + TRADE_SPLIT_REQUESTS
      ensures old(warnings) <= warnings
      ensures r.Got? ==> Drawn(r.items, site.Matching(q))
      ensures r.Got? ==> Accounted(site.Matching(q), r.items, warnings[|old(warnings)|..])
      ensures ServesAll(site, reply) ==> r.Got? && (warnings == old(warnings) <==> TradesFit(site, q))
    {
      var notes;
      r, notes := FetchTrades(q);
      if r.Aborted? {
        return;
      }
      TradesAreParts(calls, |old(calls)|, q);
      DrawnBounded(r.items, site.Matching(q));
      if |r.items| != total || notes != [] {
        var w := Warning(q.first, q.plate, |r.items|, total, notes);
        warnings := warnings + [w];
        AllExplained(site, q, w, warnings[|old(warnings)|..]);
      }
    }

    /** The industries one after another; the notes name those that needed more than one query. */
    method FetchTrades(q: Query) returns (r: Crawled, notes: seq<Note>)
      requires Valid() && q.category == "" && q.trade == ""
      modifies this`requests, this`calls
      ensures old(calls) <= calls && Told(reply, calls, |old(calls)|, old(requests), requests, r)
      ensures NoneShort(calls, |old(calls)|)
      ensures r.Got? ==> TradesAsked(calls, |old(calls)|, q, |TRADES|)
      ensures old(requests) <= requests <= old(requests) + TRADE_SPLIT_REQUESTS
      ensures r.Got? ==> Drawn(r.items, site.Matching(q))
      ensures ServesAll(site, reply) ==>
                r.Got? && (notes == [] && |r.items| == |site.Matching(q)| <==> TradesFit(site, q))
    {
      ghost var want := site.Matching(q);
      ghost var good := ServesAll(site, reply);
      var items, seen := [], {};
      notes := [];
      NothingAsked(reply, calls, requests);
      for n := 0 to |TRADES|
        invariant old(calls) <= calls && TradesTold(reply, calls, |old(calls)|, old(requests), requests, q, n, Got(items))
        invariant old(requests) <= requests
                  <= old(requests) + n * (QUERY_REQUESTS + CATEGORY_SPLIT_REQUESTS)
        invariant Drawn(items, want) && seen == set a | a in items :: a.Key()
        invariant FromTrades(site, q, n, items, good, notes == [])
      {
        ghost var held, quiet := items, notes == [];
        var part;
        part, items, seen, notes := AddTrade(q, n, items, seen, notes, |old(calls)|, old(requests));
        if part.Aborted? {
          return Aborted, notes;
        }
        OneMoreIndustry(site, q, n, held, items, good, quiet, notes == []);
      }
      if good {
        TradesSumUp(site, q, items, notes == []);
      }
      r := Got(items);
    }

    /** One board on one day; the flag says the board had to be split. */
    method FetchBoard(q: Query) returns (r: Crawled, split: bool)
      requires Valid() && q.category == "" && q.trade == "" && q.plate != "" && q.first == q.last
      modifies this`requests, this`warnings, this`calls
      ensures RangeDone(site, reply, q, r, old(calls), calls, old(requests), requests, old(warnings), warnings)
      ensures Asked(calls, |old(calls)|, q)
      ensures r.Got? ==> (split <==> Splits(calls, |old(calls)|))
      ensures r.Got? && !split ==> UsedAsItIs(calls[|old(calls)|], q.plate, r.items, old(warnings), warnings)
      ensures ServesAll(site, reply) ==> (split <==> |site.Matching(q)| > MAX_ITEMS)
      ensures old(requests) <= requests <= old(requests) + QUERY_REQUESTS + TRADE_SPLIT_REQUESTS
    {
      var f := QueryPages(q, false);
      ghost var before, middle := calls, requests;
      split := f.TooBig? || f.DupPage?;
      if split {
        r := SplitBoard(q, f);
        assert before[|old(calls)|].MustDivide();
        DividedRange(site, reply, q, r, old(calls), before, calls, old(requests), middle, requests,
                     old(warnings), warnings);
      } else {
        r := Use(q, f, q.plate, |before| - 1, old(requests));
      }
    }

    /** A board that is too big, or whose pages repeat, which is warned of first. */
    method SplitBoard(q: Query, f: Fetched) returns (r: Crawled)
      requires Valid() && q.category == "" && q.trade == "" && q.plate != "" && q.first == q.last
      requires (f.TooBig? && f.total > MAX_ITEMS) || (f.DupPage? && !ServesAll(site, reply))
      requires f.total == |site.Matching(q)|
      modifies this`requests, this`warnings, this`calls
      ensures RangeDone(site, reply, q, r, old(calls), calls, old(requests), requests, old(warnings), warnings)
      ensures r.Got? ==> AllPartsAsked(calls, |old(calls)|, q)
      ensures f.DupPage? ==> old(warnings) + [Warning(q.first, q.plate, 0, f.total, [])] <= warnings
      ensures old(requests) <= requests <= old(requests) + TRADE_SPLIT_REQUESTS
    {
      if f.DupPage? {
        warnings := warnings + [Warning(q.first, q.plate, 0, f.total, [])];
      }
      ghost var between := warnings;
      r := SplitByTrade(q, f.total);
      OneDayFits(site, q);
      EarlierWarnings(site, q, r, old(warnings), between, warnings, calls, |old(calls)|);
    }

    /** Board by board on one day; `total` is what the unsplit query reported. */
    method SplitByBoard(q: Query, total: int) returns (r: Crawled)
      requires Valid() && q.plate == "" && q.category == "" && q.trade == ""
      requires total == |site.Matching(q)| && q.first == q.last
      modifies this`requests, this`warnings, this`calls
      ensures old(calls) <= calls && Told(reply, calls, |old(calls)|, old(requests), requests, r)
      ensures old(warnings) <= warnings
      ensures ShortsWarned(calls, |old(calls)|, warnings[|old(warnings)|..])
      ensures r.Got? ==> AllPartsAsked(calls, |old(calls)|, q)
      ensures r.Got? && !Splits(calls, |old(calls)|) && |r.items| != total ==>
                Warning(q.first, "", |r.items|, total, []) in warnings[|old(warnings)|..]
      ensures old(requests) <= requests <= old(requests) + DAY_REQUESTS
      ensures r.Got? ==> forall i :: 0 <= i < |r.items| ==> r.items[i] in site.Matching(q)
      ensures r.Got? && site.BoardsPartition() ==> Drawn(r.items, site.Matching(q))
      ensures r.Got? && site.BoardsPartition() ==>
                Accounted(site.Matching(q), r.items, warnings[|old(warnings)|..])
      ensures r.Got? ==> AccountedBoards(site.Matching(q), |PLATES|, r.items, warnings[|old(warnings)|..])
      ensures ServesAll(site, reply) ==>
                && r.Got?
                && (warnings == old(warnings) <==>
                      && DayFits(site, q, q.first)
                      && (BoardTooBig(site, q, |PLATES|) || |r.items| == |site.Matching(q)|))
      ensures ServesAll(site, reply) && DayFits(site, q, q.first) ==>
                forall a :: a in r.items <==> a in site.Matching(q) && OnBoards(a, |PLATES|)
      ensures ServesAll(site, reply) && site.BoardsPartition() ==>
                (warnings == old(warnings) <==> DayFits(site, q, q.first))
    {
      ghost var want := site.Matching(q);
      var split;
      r, split := FetchBoards(q);
      if r.Aborted? {
        return;
      }
      BoardsAreParts(calls, |old(calls)|, q);
      ghost var warned := warnings[|old(warnings)|..];
      if ServesAll(site, reply) && DayFits(site, q, q.first) {
        BoardsAnswered(want, r.items);
        if site.BoardsPartition() {
          BoardsSumUp(site, q, r.items);
        }
      }
      if |r.items| != total && !split {
        warnings := warnings + [Warning(q.first, "", |r.items|, total, [])];
        assert warnings[|old(warnings)|..] == warned + [Warning(q.first, "", |r.items|, total, [])];
      }
      MoreShorts(calls, |old(calls)|, warned, warnings[|old(warnings)|..]);
      MoreWarnings(want, r.items, warned, warnings[|old(warnings)|..]);
      if site.BoardsPartition() {
        BoardsAreAll(site, q, r.items, warnings[|old(warnings)|..]);
      }
    }

    /** The boards one after another; the flag says that one of them had to be split. */
    method FetchBoards(q: Query) returns (r: Crawled, split: bool)
      requires Valid() && q.plate == "" && q.category == "" && q.trade == "" && q.first == q.last
      modifies this`requests, this`warnings, this`calls
      ensures old(calls) <= calls && Told(reply, calls, |old(calls)|, old(requests), requests, r)
      ensures old(warnings) <= warnings
      ensures ShortsWarned(calls, |old(calls)|, warnings[|old(warnings)|..])
      ensures r.Got? ==> BoardsAsked(calls, |old(calls)|, q, |PLATES|) && (split <==> Splits(calls, |old(calls)|))
      ensures old(requests) <= requests <= old(requests) + DAY_REQUESTS
      ensures r.Got? ==> FromBoards(site, q, |PLATES|, r.items, warnings[|old(warnings)|..])
      ensures ServesAll(site, reply) ==>
                && r.Got? && (split <==> BoardTooBig(site, q, |PLATES|))
                && (warnings == old(warnings) <==> DayFits(site, q, q.first))
    {
      r, split := Got([]), false;
      NothingAsked(reply, calls, requests);
      for n := 0 to |PLATES|
        invariant old(calls) <= calls && old(warnings) <= warnings
        invariant BoardsTold(reply, calls, |old(calls)|, old(requests), requests, q, n, r, split, warnings[|old(warnings)|..])
        invariant old(requests) <= requests <= old(requests) + n * (QUERY_REQUESTS + TRADE_SPLIT_REQUESTS)
        invariant old(warnings) <= warnings
        invariant r.Got? && FromBoards(site, q, n, r.items, warnings[|old(warnings)|..])
        invariant ServesAll(site, reply) ==> Judged(site, q, n, split, warnings == old(warnings))
      {
        r, split := AddBoard(q, n, r.items, split, old(warnings), |old(calls)|, old(requests));
        if r.Aborted? {
          return;
        }
      }
      DayFitsByBoard(site, q);
    }

    /** One more board; `start` are the warnings before the first one. */
    method AddBoard(q: Query, n: nat, items: seq<Announcement>, wasSplit: bool, ghost start: seq<Warning>,
                    ghost from: nat, ghost first: nat)
      returns (r: Crawled, split: bool)
      requires Valid() && q.plate == "" && q.category == "" && q.trade == "" && q.first == q.last
      requires n < |PLATES| && start <= warnings && FromBoards(site, q, n, items, warnings[|start|..])
      requires BoardsTold(reply, calls, from, first, requests, q, n, Got(items), wasSplit, warnings[|start|..])
      modifies this`requests, this`warnings, this`calls
      ensures old(calls) <= calls && old(warnings) <= warnings
      ensures BoardsTold(reply, calls, from, first, requests, q, n + 1, r, split, warnings[|start|..])
      ensures old(requests) <= requests <= old(requests) + QUERY_REQUESTS + TRADE_SPLIT_REQUESTS
      ensures r.Got? ==> FromBoards(site, q, n + 1, r.items, warnings[|start|..])
      ensures ServesAll(site, reply) ==> r.Got?
      ensures ServesAll(site, reply) && Judged(site, q, n, wasSplit, old(warnings) == start) ==>
                Judged(site, q, n + 1, split, warnings == start)
    {
      assert PLATES[n] != "";
      OneDayFits(site, q.(plate := PLATES[n]));
      r, split := FetchBoard(q.(plate := PLATES[n]));
      split := split || wasSplit;
      WarningsGrow(start, old(warnings), warnings);
      OneMoreTold(reply, old(calls), calls, from, first, old(requests), requests, q, n, items, r, wasSplit, split,
                  old(warnings)[|start|..], warnings[|old(warnings)|..]);
      NextBoard(site, q, n);
      if r.Got? {
        OneMoreBoard(site, q, n, items, r.items, old(warnings)[|start|..], warnings[|old(warnings)|..]);
        r := Got(items + r.items);
      }
    }

    /** Everything dated `first` to `last`: halve the range, then split the single day. */
    method FetchRange(first: int, last: int, stock: string, searchkey: string, plate: string) returns (r: Crawled)
      requires Valid()
      modifies this`requests, this`warnings, this`calls
      ensures RangeDone(site, reply, Query(stock, searchkey, first, last, plate, "", ""), r,
                        old(calls), calls, old(requests), requests, old(warnings), warnings)
      ensures |calls| > |old(calls)| && calls[|old(calls)|].q == Query(stock, searchkey, first, last, plate, "", "")
      ensures r.Got? && |calls| == |old(calls)| + 1 ==> UsedAsItIs(calls[|old(calls)|], "", r.items, old(warnings), warnings)
      ensures old(requests) < requests <= old(requests) + RangeRequests(first, last)
      decreases if first < last then last - first else 0, 1
    {
      var q := Query(stock, searchkey, first, last, plate, "", "");
      var f := QueryPages(q, false);
      ghost var before, middle := calls, requests;
      NoDaysNoEntries(site, q);
      if f.Items? || f.Fatal? || (first >= last && f.Incomplete?) {
        r := Use(q, f, "", |before| - 1, old(requests));
        return;
      }
      if first < last {
        r := FetchHalves(first, last, stock, searchkey, plate);
        HalvesAreParts(calls, |before|, q);
      } else {
        r := SplitDay(q, f.total);
      }
      DividedRange(site, reply, q, r, old(calls), before, calls, old(requests), middle, requests, old(warnings), warnings);
    }

    /** The answer to one query, whole, failed, or short on a single day. */
    method Use(q: Query, f: Fetched, plate: string, ghost from: nat, ghost start: nat) returns (r: Crawled)
      requires Valid() && q.category == "" && q.trade == "" && (plate == "" || plate == q.plate)
      requires from + 1 == |calls| && Chained(calls, from, start, requests)
      requires var c := calls[from]; c.q == q && c.outcome == f && !c.MustDivide() && Ended(site, reply, c) && !c.partial
      requires f.Items? || f.Fatal? || (f.Incomplete? && q.first >= q.last)
      requires f.Fatal? ==> !ServesAll(site, reply)
      requires f.Incomplete? ==> !ServesAll(site, reply)
      modifies this`warnings
      ensures RangeDone(site, reply, q, r, calls[..from], calls, start, requests, old(warnings), warnings)
      ensures r.Got? ==> UsedAsItIs(calls[from], plate, r.items, old(warnings), warnings)
      ensures Asked(calls, from, q) && !Splits(calls, from)
    {
      OneCall(reply, calls, start, requests, if f.Fatal? then Aborted else Got(f.items));
      if f.Fatal? {
        return Aborted;
      }
      if f.Incomplete? {
        warnings := warnings + [Warning(q.first, plate, |f.items|, f.total, [])];
        UsedShort(site, reply, calls[from], calls[..from], calls, start, requests, plate, old(warnings), warnings);
      } else {
        UsedWhole(site, reply, calls[from], calls[..from], calls, start, requests, warnings);
      }
      r := Got(f.items);
    }

    method FetchHalves(first: int, last: int, stock: string, searchkey: string, plate: string) returns (r: Crawled)
      requires Valid() && first < last
      modifies this`requests, this`warnings, this`calls
      ensures RangeDone(site, reply, Query(stock, searchkey, first, last, plate, "", ""), r,
                        old(calls), calls, old(requests), requests, old(warnings), warnings)
      ensures var mid := first + (last - first) / 2;
              r.Got? ==>
                && Asked(calls, |old(calls)|, Query(stock, searchkey, first, mid, plate, "", ""))
                && Asked(calls, |old(calls)|, Query(stock, searchkey, mid + 1, last, plate, "", ""))
      ensures old(requests) < requests <= old(requests) + RangeRequests(first, last) - QUERY_REQUESTS
      decreases last - first, 0
    {
      ghost var q := Query(stock, searchkey, first, last, plate, "", "");
      var mid := first + (last - first) / 2;
      HalvesRequests(first, mid, last);
      r := FetchRange(first, mid, stock, searchkey, plate);
      if r.Aborted? {
        FirstHalfFailed(site, reply, q, old(calls), calls, old(requests), requests, old(warnings), warnings);
        return;
      }
      ghost var left, before, middle, between := r.items, calls, requests, warnings;
      var right := FetchRange(mid + 1, last, stock, searchkey, plate);
      r := if right.Aborted? then Aborted else Got(r.items + right.items);
      assert calls[|old(calls)|] == before[|old(calls)|];
      HalvesDone(site, reply, q, mid, left, right, r, old(calls), before, calls, old(requests), middle, requests,
                 old(warnings), between, warnings);
    }

    /** A single day: one board by industry, the whole market by board. */
    method SplitDay(q: Query, total: int) returns (r: Crawled)
      requires Valid() && q.category == "" && q.trade == ""
      requires total == |site.Matching(q)| && q.first == q.last
      requires ServesAll(site, reply) ==> |site.Matching(q)| > MAX_ITEMS
      modifies this`requests, this`warnings, this`calls
      ensures RangeDone(site, reply, q, r, old(calls), calls, old(requests), requests, old(warnings), warnings)
      ensures r.Got? ==> AllPartsAsked(calls, |old(calls)|, q)
      ensures old(requests) <= requests <= old(requests) + DAY_REQUESTS
    {
      OneDayFits(site, q);
      if q.plate != "" {
        r := SplitByTrade(q, total);
      } else {
        r := SplitByBoard(q, total);
      }
      if r.Got? {
        AccountedIsEnough(site, q, r.items, warnings[|old(warnings)|..]);
      }
    }
  }
}
