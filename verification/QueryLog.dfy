/** The record of a crawl: which pages each query asked for, what came back, how the query ended, and which queries
    were divided into which others. */
module QueryLog {
  import opened Wrappers
  import opened Announcements

  /** One query: its requests from number `start` on, the pages they asked for, the replies, and how it ended. */
  datatype Call = Call(q: Query, partial: bool, outcome: Fetched, start: nat, pages: seq<nat>, replies: seq<Reply>)
  {
    function Items(): seq<Announcement> {
      if outcome.TooBig? || outcome.Fatal? then [] else outcome.items
    }

    /** Too many entries, pages that repeat, or several days that fall short of their total: ask for less at a time.
        A category is the smallest part there is. */
    predicate MustDivide() {
      && !partial
      && (|| outcome.TooBig?
          || (outcome.DupPage? && q.category == "")
          || (outcome.Incomplete? && q.category == "" && q.trade == "" && q.first < q.last))
    }

    predicate Short() {
      outcome.Incomplete? && q.category == "" && q.trade == ""
    }
  }

  // ---------------------------------------------------------------- the replies to one query

  ghost predicate Listed(replies: seq<Reply>, a: Announcement) {
    exists i :: 0 <= i < |replies| && replies[i].Page? && a in replies[i].entries
  }

  /** The i-th reply lists entries, all of which earlier ones listed already. */
  ghost predicate Stale(replies: seq<Reply>, i: nat)
    requires i < |replies|
  {
    replies[i].Page? && replies[i].entries != [] && forall a :: a in replies[i].entries ==> Listed(replies[..i], a)
  }

  /** After a stale reply its page is asked for again, after any other that promises more the next page. */
  ghost predicate Follows(replies: seq<Reply>, page: nat, i: nat, next: nat)
    requires i < |replies|
  {
    && replies[i].Page?
    && (if Stale(replies, i) then next == page
        else replies[i].more && replies[i].entries != [] && next == page + 1)
  }

  ghost predicate TurnsPages(replies: seq<Reply>, pages: seq<nat>) {
    && 0 < |pages| == |replies| && pages[0] == 1
    && forall i :: 0 <= i < |pages| - 1 ==> Turned(replies, pages, i)
  }

  ghost predicate Turned(replies: seq<Reply>, pages: seq<nat>, i: nat)
    requires i < |replies| && i + 1 < |pages|
  {
    Follows(replies, pages[i], i, pages[i + 1])
  }

  lemma TurnOn(replies: seq<Reply>, pages: seq<nat>, reply: Reply, next: nat)
    requires TurnsPages(replies, pages) && Follows(replies, pages[|pages| - 1], |pages| - 1, next)
    ensures TurnsPages(replies + [reply], pages + [next])
  {
    var more, all := replies + [reply], pages + [next];
    forall i | 0 <= i < |all| - 1
      ensures Turned(more, all, i)
    {
      assert more[..i] == replies[..i];
      assert i < |pages| - 1 ==> Turned(replies, pages, i);
    }
  }

  lemma ListedInOneMore(replies: seq<Reply>, d: Reply, a: Announcement)
    ensures Listed(replies + [d], a) <==> Listed(replies, a) || (d.Page? && a in d.entries)
  {
    var more := replies + [d];
    assert more[|replies|] == d && forall i :: 0 <= i < |replies| ==> more[i] == replies[i];
  }

  /** The reasons to give up: no reply, no total on the first page, or a hundredth page that still promises more
      although the total says that it cannot be. */
  ghost predicate Trouble(c: Call)
    requires 0 < |c.pages| == |c.replies|
  {
    var d := c.replies[|c.replies| - 1];
    || d.Down?
    || (|c.replies| == 1 && d.total.None?)
    || (&& !c.partial && c.pages[|c.pages| - 1] == PAGE_LIMIT && d.more && d.entries != []
        && !Stale(c.replies, |c.replies| - 1)
        && c.replies[0].Page? && c.replies[0].total.Some? && c.replies[0].total.value <= MAX_ITEMS)
  }

  ghost predicate Numbered(reply: (nat, Query, nat) -> Reply, start: nat, q: Query, pages: seq<nat>, replies: seq<Reply>) {
    TurnsPages(replies, pages) && forall i :: 0 <= i < |pages| ==> IsReply(reply, start, q, pages, replies, i)
  }

  /** A server at its best is paged through once, page by page. */
  lemma {:induction false} ServedReply(site: Site, reply: (nat, Query, nat) -> Reply, c: Call, i: nat)
    requires ServesAll(site, reply) && Numbered(reply, c.start, c.q, c.pages, c.replies) && i < |c.pages|
    ensures var lists := Pages(site, reply, c.q);
            && c.pages[i] == i + 1 <= |lists| && !Stale(c.replies, i)
            && c.replies[i] == Page(Some(|site.Matching(c.q)|), lists[i], i + 1 < |lists|)
  {
    var lists := Pages(site, reply, c.q);
    if i > 0 {
      ServedReply(site, reply, c, i - 1);
      assert Turned(c.replies, c.pages, i - 1);
    }
    assert IsReply(reply, c.start, c.q, c.pages, c.replies, i);
    forall j | 0 <= j < i
      ensures c.replies[j].Page? && c.replies[j].entries == lists[j]
    {
      ServedReply(site, reply, c, j);
    }
    if lists[i] != [] {
      assert lists[i][0] in lists[i] && !Listed(c.replies[..i], lists[i][0]);
    }
  }

  lemma ServedCall(site: Site, reply: (nat, Query, nat) -> Reply, c: Call)
    requires Proper(reply, c)
    requires c.outcome.Incomplete? ==>
               !c.partial && Distinct(c.outcome.items) && |c.outcome.items| < |site.Matching(c.q)|
    ensures ServesAll(site, reply) ==> c.outcome.Items? || c.outcome.TooBig?
  {
    if ServesAll(site, reply) {
      var n, want, lists := |c.pages| - 1, site.Matching(c.q), Pages(site, reply, c.q);
      ServedReply(site, reply, c, n);
      ServedReply(site, reply, c, 0);
      if c.outcome.Incomplete? {
        forall a | a in want
          ensures a in c.outcome.items
        {
          ServedEntry(site, reply, c, a);
        }
        CountOfAll(c.outcome.items, want);
      }
    }
  }

  lemma ServedEntry(site: Site, reply: (nat, Query, nat) -> Reply, c: Call, a: Announcement)
    requires ServesAll(site, reply) && Numbered(reply, c.start, c.q, c.pages, c.replies) && a in site.Matching(c.q)
    requires var d := c.replies[|c.pages| - 1]; d.Page? && (!d.more || d.entries == [])
    ensures Listed(c.replies, a)
  {
    var lists := Pages(site, reply, c.q);
    ServedReply(site, reply, c, |c.pages| - 1);
    assert ListedBefore(lists, |lists|, a);
    var i :| 0 <= i < |lists| && a in lists[i];
    ServedReply(site, reply, c, i);
  }

  ghost predicate IsReply(reply: (nat, Query, nat) -> Reply, start: nat, q: Query, pages: seq<nat>, replies: seq<Reply>,
                          i: nat)
    requires i < |pages| && i < |replies|
  {
    replies[i] == reply(start + i, q, pages[i])
  }

  /** The entries and keys collected are those that the replies list. */
  ghost predicate Gathered(items: seq<Announcement>, seen: set<(string, string)>, want: set<Announcement>,
                           replies: seq<Reply>)
  {
    && Drawn(items, want) && seen == (set a | a in items :: a.Key())
    && forall a :: a in items <==> Listed(replies, a)
  }

  lemma PageAbsorbed(earlier: seq<Reply>, d: Reply, held: seq<Announcement>, items: seq<Announcement>)
    requires d.Page? && forall a :: a in held <==> Listed(earlier, a)
    requires forall a :: a in items <==> a in held || a in d.entries
    ensures forall a :: a in items <==> Listed(earlier + [d], a)
    ensures Stale(earlier + [d], |earlier|) <==> d.entries != [] && forall a :: a in d.entries ==> a in held
  {
    assert (earlier + [d])[..|earlier|] == earlier;
    assert forall a :: Listed(earlier, a) <==> a in held;
    forall a
      ensures a in items <==> Listed(earlier + [d], a)
    {
      ListedInOneMore(earlier, d, a);
    }
  }

  /** A query under way: its first reply stated a total that it may page through. */
  ghost predicate Reading(reply: (nat, Query, nat) -> Reply, start: nat, q: Query, partial: bool, pages: seq<nat>,
                          replies: seq<Reply>, total: int)
  {
    && Numbered(reply, start, q, pages, replies)
    && replies[0].Page? && replies[0].total == Some(total) && (total <= MAX_ITEMS || partial)
  }

  /** What the paging loop holds. */
  datatype Reader = Reader(items: seq<Announcement>, seen: set<(string, string)>, page: nat, retries: nat, reply: Reply)

  ghost predicate Reads(site: Site, reply: (nat, Query, nat) -> Reply, start: nat, q: Query, partial: bool, total: int,
                        s: Reader, pages: seq<nat>, replies: seq<Reply>)
  {
    && Reading(reply, start, q, partial, pages, replies, total) && total == |site.Matching(q)|
    && s.reply.Page? && Honest(site, q, s.reply) && replies[|replies| - 1] == s.reply
    && Gathered(s.items, s.seen, site.Matching(q), replies[..|replies| - 1])
    && 1 <= s.page <= PAGE_LIMIT && s.retries <= 2
    && |pages| == s.page + s.retries && pages[|pages| - 1] == s.page
  }

  /** A finished query: its outcome is the one that the replies call for, and what it says of the total is true. */
  ghost predicate Ended(site: Site, reply: (nat, Query, nat) -> Reply, c: Call) {
    && Proper(reply, c)
    && (!c.outcome.Fatal? && !c.outcome.TooBig? ==> Drawn(c.Items(), site.Matching(c.q)))
    && (c.outcome.Items? && !c.partial ==> |c.Items()| == |site.Matching(c.q)| <= MAX_ITEMS)
    && (c.outcome.TooBig? ==> !c.partial && c.outcome.total == |site.Matching(c.q)| > MAX_ITEMS)
    && (c.outcome.Incomplete? ==> !c.partial && |c.Items()| != |site.Matching(c.q)| == c.outcome.total)
    && (c.outcome.DupPage? ==> !c.partial && 0 < |site.Matching(c.q)| == c.outcome.total)
  }

  /** How the query ends with this page, if it does. */
  function Verdict(s: Reader, items: seq<Announcement>, stale: bool, total: int, partial: bool): Option<Fetched>
    requires s.reply.Page?
  {
    if stale && s.retries < 2 then None
    else if stale then Some(if partial then Items(items) else DupPage(items, total))
    else if !s.reply.more || s.reply.entries == [] then
      Some(if |items| != total && !partial then Incomplete(items, total) else Items(items))
    else if s.page < PAGE_LIMIT then None
    else Some(if partial then Items(items) else Fatal)
  }

  lemma VerdictIsRight(site: Site, reply: (nat, Query, nat) -> Reply, start: nat, q: Query, partial: bool, total: int,
                       s: Reader, items: seq<Announcement>, seen: set<(string, string)>, stale: bool,
                       pages: seq<nat>, replies: seq<Reply>)
    requires Reads(site, reply, start, q, partial, total, s, pages, replies)
    requires Gathered(items, seen, site.Matching(q), replies)
    requires stale <==> Stale(replies, |replies| - 1)
    requires stale ==> site.Matching(q) != {}
    requires Verdict(s, items, stale, total, partial).Some?
    ensures Ended(site, reply, Call(q, partial, Verdict(s, items, stale, total, partial).value, start, pages, replies))
  {
  }

  lemma NextReply(reply: (nat, Query, nat) -> Reply, start: nat, q: Query, pages: seq<nat>, replies: seq<Reply>,
                  next: nat)
    requires Numbered(reply, start, q, pages, replies)
    requires Follows(replies, pages[|pages| - 1], |pages| - 1, next)
    ensures Numbered(reply, start, q, pages + [next], replies + [reply(start + |pages|, q, next)])
  {
    var d := reply(start + |pages|, q, next);
    TurnOn(replies, pages, d, next);
    forall i | 0 <= i < |pages| + 1
      ensures IsReply(reply, start, q, pages + [next], replies + [d], i)
    {
      assert i < |pages| ==> IsReply(reply, start, q, pages, replies, i);
    }
  }

  /** The call's requests were made as the paging demands, and its outcome is the one that the replies call for. */
  ghost predicate Proper(reply: (nat, Query, nat) -> Reply, c: Call) {
    && Numbered(reply, c.start, c.q, c.pages, c.replies)
    && (c.outcome.Fatal? <==> Trouble(c))
    && (!c.outcome.Fatal? && !c.outcome.TooBig? ==>
          && (forall a :: a in c.Items() <==> Listed(c.replies, a))
          && Settles(c))
    && (c.outcome.TooBig? ==> |c.pages| == 1)
  }

  /** Paging ends at a reply that promises no more; or at a third stale reply, and then the pages repeat. */
  ghost predicate Settles(c: Call)
    requires 0 < |c.pages| == |c.replies|
  {
    var n := |c.pages| - 1;
    var d, stale := c.replies[n], Stale(c.replies, n);
    && d.Page? && (c.outcome.DupPage? <==> stale && !c.partial)
    && (stale ==> |c.pages| == c.pages[n] + 2)
    && (!stale && !c.partial ==> !d.more || d.entries == [])
  }

  // ---------------------------------------------------------------- the queries of one crawl

  /** What a query is divided into: halves of the range, boards, industries, categories; a category is asked for once
      more, as far as it can be paged. */
  ghost predicate IsPart(part: Query, q: Query) {
    if q.category != "" then part == q
    else if q.trade != "" then exists i :: 0 <= i < |CATEGORIES| && part == q.(category := CATEGORIES[i])
    else if q.first < q.last then
      var mid := q.first + (q.last - q.first) / 2;
      part == q.(last := mid) || part == q.(first := mid + 1)
    else if q.plate != "" then exists i :: 0 <= i < |TRADES| && part == q.(trade := TRADES[i])
    else exists i :: 0 <= i < |PLATES| && part == q.(plate := PLATES[i])
  }

  /** The query is asked, in call number `from` or later. */
  ghost predicate Asked(calls: seq<Call>, from: nat, q: Query) {
    exists i :: from <= i < |calls| && calls[i].q == q
  }

  ghost predicate AllPartsAsked(calls: seq<Call>, from: nat, q: Query) {
    forall part :: IsPart(part, q) ==> Asked(calls, from, part)
  }

  /** Every query that must be divided is followed by all its parts. */
  ghost predicate Divides(calls: seq<Call>, from: nat) {
    forall i :: from <= i < |calls| ==> PartsFollow(calls, i)
  }

  ghost predicate PartsFollow(calls: seq<Call>, i: nat)
    requires i < |calls|
  {
    calls[i].MustDivide() ==> AllPartsAsked(calls, i + 1, calls[i].q)
  }

  ghost predicate ProperAt(reply: (nat, Query, nat) -> Reply, calls: seq<Call>, i: nat)
    requires i < |calls|
  {
    Proper(reply, calls[i])
  }

  ghost predicate Splits(calls: seq<Call>, from: nat) {
    exists i :: from <= i < |calls| && calls[i].MustDivide()
  }

  /** The entry was paged in a query that did not have to be divided. */
  ghost predicate Yields(calls: seq<Call>, from: nat, a: Announcement) {
    exists i :: from <= i < |calls| && !calls[i].MustDivide() && a in calls[i].Items()
  }

  /** The calls use the requests from number `start` to number `end`, one call after the other. */
  ghost predicate Chained(calls: seq<Call>, from: nat, start: nat, end: nat) {
    && from <= |calls|
    && (from < |calls| ==> calls[from].start == start)
    && (from == |calls| ==> start == end)
    && forall i :: from <= i < |calls| ==> Next(calls, i, end)
  }

  ghost predicate Next(calls: seq<Call>, i: nat, end: nat)
    requires i < |calls|
  {
    calls[i].start + |calls[i].pages| == if i + 1 < |calls| then calls[i + 1].start else end
  }

  /** A crawl ends early exactly when a query has failed, and at once.  Otherwise all parts of what had to be divided were
      asked for, and it returns exactly what the undivided queries paged. */
  ghost predicate Crawls(reply: (nat, Query, nat) -> Reply, calls: seq<Call>, from: nat, r: Crawled) {
    match r
    case Aborted =>
      && from < |calls| && AllProper(reply, calls, from) && Undisturbed(calls, from, |calls| - 1)
      && calls[|calls| - 1].outcome.Fatal?
    case Got(items) =>
      && from <= |calls| && AllProper(reply, calls, from) && Undisturbed(calls, from, |calls|)
      && Divides(calls, from) && Returns(calls, from, items)
  }

  ghost predicate AllProper(reply: (nat, Query, nat) -> Reply, calls: seq<Call>, from: nat) {
    forall i :: from <= i < |calls| ==> ProperAt(reply, calls, i)
  }

  /** None of these calls failed. */
  ghost predicate Undisturbed(calls: seq<Call>, from: nat, to: nat)
    requires to <= |calls|
  {
    forall i :: from <= i < to ==> !calls[i].outcome.Fatal?
  }

  ghost predicate Returns(calls: seq<Call>, from: nat, items: seq<Announcement>) {
    forall a :: a in items <==> Yields(calls, from, a)
  }

  /** All of this, with the requests used. */
  ghost predicate Told(reply: (nat, Query, nat) -> Reply, calls: seq<Call>, from: nat, start: nat, end: nat, r: Crawled) {
    Crawls(reply, calls, from, r) && Chained(calls, from, start, end)
  }

  /** A failed crawl has its cause in the replies to its last query. */
  lemma AbortHasACause(reply: (nat, Query, nat) -> Reply, calls: seq<Call>, from: nat, start: nat, end: nat, r: Crawled)
    requires Told(reply, calls, from, start, end, r)
    ensures r.Aborted? <==> exists i :: from <= i < |calls| && Proper(reply, calls[i]) && Trouble(calls[i])
  {
    assert forall i :: from <= i < |calls| ==> ProperAt(reply, calls, i);
    if r.Aborted? {
      assert ProperAt(reply, calls, |calls| - 1);
    }
  }

  lemma NothingAsked(reply: (nat, Query, nat) -> Reply, calls: seq<Call>, start: nat)
    ensures Told(reply, calls, |calls|, start, start, Got([]))
  {
  }

  /** One query that is used as it is. */
  lemma OneCall(reply: (nat, Query, nat) -> Reply, calls: seq<Call>, start: nat, end: nat, r: Crawled)
    requires calls != [] && var c := calls[|calls| - 1];
             && Proper(reply, c) && !c.MustDivide() && Chained(calls, |calls| - 1, start, end)
             && r == if c.outcome.Fatal? then Aborted else Got(c.Items())
    ensures Told(reply, calls, |calls| - 1, start, end, r)
    ensures Asked(calls, |calls| - 1, calls[|calls| - 1].q) && !Splits(calls, |calls| - 1)
  {
  }

  /** One query that must be divided, and then its parts. */
  lemma DividedCall(reply: (nat, Query, nat) -> Reply, before: seq<Call>, calls: seq<Call>, start: nat, middle: nat, end: nat,
                    r: Crawled)
    requires before != [] && before <= calls
    requires var c := before[|before| - 1]; Proper(reply, c) && c.MustDivide() && Chained(before, |before| - 1, start, middle)
    requires Told(reply, calls, |before|, middle, end, r)
    requires r.Got? ==> AllPartsAsked(calls, |before|, before[|before| - 1].q)
    ensures Told(reply, calls, |before| - 1, start, end, r)
    ensures r.Got? ==> |calls| > |before|
  {
    var c := before[|before| - 1];
    SomePart(c.q);
    assert calls[|before| - 1] == c && !c.outcome.Fatal?;
    ChainOn(before, calls, |before| - 1, start, middle, end);
    forall a
      ensures Yields(calls, |before| - 1, a) <==> Yields(calls, |before|, a)
    {
    }
  }

  lemma SomePart(q: Query)
    ensures exists part :: IsPart(part, q)
  {
    assert IsPart(q, q) || IsPart(q.(category := CATEGORIES[0]), q) || IsPart(q.(trade := TRADES[0]), q)
           || IsPart(q.(plate := PLATES[0]), q) || IsPart(q.(last := q.first + (q.last - q.first) / 2), q);
  }

  lemma ChainOn(before: seq<Call>, calls: seq<Call>, from: nat, start: nat, middle: nat, end: nat)
    requires before <= calls && Chained(before, from, start, middle) && Chained(calls, |before|, middle, end)
    ensures Chained(calls, from, start, end)
  {
    forall i | from <= i < |calls|
      ensures Next(calls, i, end)
    {
      if i < |before| {
        assert Next(before, i, middle);
      }
    }
  }

  /** One crawl after another that has not failed. */
  lemma TwoCrawls(reply: (nat, Query, nat) -> Reply, before: seq<Call>, calls: seq<Call>, from: nat,
                  start: nat, middle: nat, end: nat, left: seq<Announcement>, right: Crawled, r: Crawled)
    requires before <= calls && Told(reply, before, from, start, middle, Got(left))
    requires Told(reply, calls, |before|, middle, end, right)
    requires r.Aborted? <==> right.Aborted?
    requires r.Got? ==> forall a :: a in r.items <==> a in left || a in right.items
    ensures Told(reply, calls, from, start, end, r)
  {
    ChainOn(before, calls, from, start, middle, end);
    TwoDivide(before, calls, from);
    TwoYield(before, calls, from);
    forall i | from <= i < |before|
      ensures calls[i] == before[i] && ProperAt(reply, calls, i)
    {
      assert ProperAt(reply, before, i);
    }
  }

  lemma TwoDivide(before: seq<Call>, calls: seq<Call>, from: nat)
    requires before <= calls && from <= |before|
    ensures Divides(before, from) && Divides(calls, |before|) ==> Divides(calls, from)
    ensures Splits(calls, from) <==> Splits(before, from) || Splits(calls, |before|)
  {
    assert forall i :: 0 <= i < |before| ==> calls[i] == before[i];
    if Divides(before, from) && Divides(calls, |before|) {
      forall i | from <= i < |calls|
        ensures PartsFollow(calls, i)
      {
        if i < |before| && calls[i].MustDivide() {
          assert PartsFollow(before, i);
          PartsStayAsked(before, calls, i + 1, before[i].q);
        }
      }
    }
  }

  lemma PartsStayAsked(before: seq<Call>, calls: seq<Call>, from: nat, q: Query)
    requires before <= calls && AllPartsAsked(before, from, q)
    ensures AllPartsAsked(calls, from, q)
  {
    forall part | IsPart(part, q)
      ensures Asked(calls, from, part)
    {
      assert Asked(before, from, part);
    }
  }

  lemma TwoYield(before: seq<Call>, calls: seq<Call>, from: nat)
    requires before <= calls && from <= |before|
    ensures forall a :: Yields(calls, from, a) <==> Yields(before, from, a) || Yields(calls, |before|, a)
  {
    forall a
      ensures Yields(calls, from, a) <==> Yields(before, from, a) || Yields(calls, |before|, a)
    {
      assert forall i :: 0 <= i < |before| ==> calls[i] == before[i];
    }
  }

  ghost predicate NoneShort(calls: seq<Call>, from: nat) {
    forall i :: from <= i < |calls| ==> !calls[i].Short()
  }

  /** A day, or a board of it, that is used although it falls short of its total. */
  ghost predicate Tells(w: Warning, c: Call) {
    c.outcome.Incomplete? && w.day == c.q.first && w.got == |c.Items()| && w.total == c.outcome.total && w.notes == []
  }

  /** Every short answer that is used has a warning with both numbers. */
  ghost predicate ShortsWarned(calls: seq<Call>, from: nat, warned: seq<Warning>) {
    forall i :: from <= i < |calls| && calls[i].Short() && !calls[i].MustDivide() ==> exists w :: w in warned && Tells(w, calls[i])
  }

  lemma TwoShorts(before: seq<Call>, calls: seq<Call>, from: nat, a: seq<Warning>, b: seq<Warning>)
    requires before <= calls && from <= |before|
    requires ShortsWarned(before, from, a) && ShortsWarned(calls, |before|, b)
    ensures ShortsWarned(calls, from, a + b)
  {
    forall i | from <= i < |calls| && calls[i].Short() && !calls[i].MustDivide()
      ensures exists w :: w in a + b && Tells(w, calls[i])
    {
      if i < |before| {
        assert before[i] == calls[i];
        var w :| w in a && Tells(w, calls[i]);
        assert w in a + b;
      } else {
        var w :| w in b && Tells(w, calls[i]);
        assert w in a + b;
      }
    }
  }

  lemma MoreShorts(calls: seq<Call>, from: nat, a: seq<Warning>, b: seq<Warning>)
    requires ShortsWarned(calls, from, a) && forall w :: w in a ==> w in b
    ensures ShortsWarned(calls, from, b)
  {
    forall i | from <= i < |calls| && calls[i].Short() && !calls[i].MustDivide()
      ensures exists w :: w in b && Tells(w, calls[i])
    {
      var w :| w in a && Tells(w, calls[i]);
      assert w in b;
    }
  }

  ghost predicate CategoriesAsked(calls: seq<Call>, from: nat, q: Query, n: nat)
    requires n <= |CATEGORIES|
  {
    forall i :: 0 <= i < n ==> Asked(calls, from, q.(category := CATEGORIES[i]))
  }

  ghost predicate TradesAsked(calls: seq<Call>, from: nat, q: Query, n: nat)
    requires n <= |TRADES|
  {
    forall i :: 0 <= i < n ==> Asked(calls, from, q.(trade := TRADES[i]))
  }

  ghost predicate BoardsAsked(calls: seq<Call>, from: nat, q: Query, n: nat)
    requires n <= |PLATES|
  {
    forall i :: 0 <= i < n ==> Asked(calls, from, q.(plate := PLATES[i]))
  }

  /** At most one warning, with both numbers; and one if the numbers differ. */
  ghost predicate TradesReported(q: Query, items: seq<Announcement>, total: int, before: seq<Warning>, after: seq<Warning>) {
    || (after == before && |items| == total)
    || exists notes :: after == before + [Warning(q.first, q.plate, |items|, total, notes)]
  }

  /** The first n boards have been asked, the flag tells whether a query had to be divided. */
  ghost predicate BoardsTold(reply: (nat, Query, nat) -> Reply, calls: seq<Call>, from: nat, start: nat, end: nat,
                             q: Query, n: nat, r: Crawled, split: bool, warned: seq<Warning>)
    requires n <= |PLATES|
  {
    && Told(reply, calls, from, start, end, r)
    && ShortsWarned(calls, from, warned)
    && (r.Got? ==> BoardsAsked(calls, from, q, n) && (split <==> Splits(calls, from)))
  }

  lemma OneMoreTold(reply: (nat, Query, nat) -> Reply, before: seq<Call>, calls: seq<Call>, from: nat,
                    start: nat, middle: nat, end: nat, q: Query, n: nat, items: seq<Announcement>, r: Crawled,
                    wasSplit: bool, split: bool, warned: seq<Warning>, added: seq<Warning>)
    requires n < |PLATES| && before <= calls
    requires BoardsTold(reply, before, from, start, middle, q, n, Got(items), wasSplit, warned)
    requires Told(reply, calls, |before|, middle, end, r) && ShortsWarned(calls, |before|, added)
    requires Asked(calls, |before|, q.(plate := PLATES[n]))
    requires r.Got? ==> (split <==> wasSplit || Splits(calls, |before|))
    ensures BoardsTold(reply, calls, from, start, end, q, n + 1, if r.Got? then Got(items + r.items) else Aborted, split,
                       warned + added)
  {
    TwoCrawls(reply, before, calls, from, start, middle, end, items, r, if r.Got? then Got(items + r.items) else Aborted);
    TwoShorts(before, calls, from, warned, added);
    TwoDivide(before, calls, from);
    MoreBoardsAsked(before, calls, from, q, n);
  }

  /** What one query paged, with one warning if that falls short of the total and none otherwise. */
  ghost predicate UsedAsItIs(c: Call, plate: string, items: seq<Announcement>, before: seq<Warning>, after: seq<Warning>) {
    && items == c.Items()
    && after == if c.outcome.Incomplete? then before + [Warning(c.q.first, plate, |items|, c.outcome.total, [])] else before
  }

  lemma HalvesAreParts(calls: seq<Call>, from: nat, q: Query)
    requires q.first < q.last && q.category == "" && q.trade == ""
    ensures var mid := q.first + (q.last - q.first) / 2;
            Asked(calls, from, q.(last := mid)) && Asked(calls, from, q.(first := mid + 1)) ==> AllPartsAsked(calls, from, q)
  {
  }

  /** The first n categories have been asked. */
  ghost predicate CategoriesTold(reply: (nat, Query, nat) -> Reply, calls: seq<Call>, from: nat, start: nat, end: nat,
                           q: Query, n: nat, r: Crawled)
    requires n <= |CATEGORIES|
  {
    Told(reply, calls, from, start, end, r) && NoneShort(calls, from) && (r.Got? ==> CategoriesAsked(calls, from, q, n))
  }

  lemma OneMoreCategory(reply: (nat, Query, nat) -> Reply, before: seq<Call>, calls: seq<Call>, from: nat,
                   start: nat, middle: nat, end: nat, q: Query, n: nat, items: seq<Announcement>, part: Crawled, r: Crawled)
    requires n < |CATEGORIES| && before <= calls
    requires CategoriesTold(reply, before, from, start, middle, q, n, Got(items))
    requires Told(reply, calls, |before|, middle, end, part) && NoneShort(calls, |before|)
    requires Asked(calls, |before|, q.(category := CATEGORIES[n]))
    requires r.Aborted? <==> part.Aborted?
    requires r.Got? ==> forall a :: a in r.items <==> a in items || a in part.items
    ensures CategoriesTold(reply, calls, from, start, end, q, n + 1, r)
  {
    TwoCrawls(reply, before, calls, from, start, middle, end, items, part, r);
    MoreCategoriesAsked(before, calls, from, q, n);
    forall i | from <= i < |calls|
      ensures !calls[i].Short()
    {
      assert i < |before| ==> calls[i] == before[i];
    }
  }

  /** The first n industries have been asked. */
  ghost predicate TradesTold(reply: (nat, Query, nat) -> Reply, calls: seq<Call>, from: nat, start: nat, end: nat,
                           q: Query, n: nat, r: Crawled)
    requires n <= |TRADES|
  {
    Told(reply, calls, from, start, end, r) && NoneShort(calls, from) && (r.Got? ==> TradesAsked(calls, from, q, n))
  }

  lemma OneMoreTrade(reply: (nat, Query, nat) -> Reply, before: seq<Call>, calls: seq<Call>, from: nat,
                   start: nat, middle: nat, end: nat, q: Query, n: nat, items: seq<Announcement>, part: Crawled, r: Crawled)
    requires n < |TRADES| && before <= calls
    requires TradesTold(reply, before, from, start, middle, q, n, Got(items))
    requires Told(reply, calls, |before|, middle, end, part) && NoneShort(calls, |before|)
    requires Asked(calls, |before|, q.(trade := TRADES[n]))
    requires r.Aborted? <==> part.Aborted?
    requires r.Got? ==> forall a :: a in r.items <==> a in items || a in part.items
    ensures TradesTold(reply, calls, from, start, end, q, n + 1, r)
  {
    TwoCrawls(reply, before, calls, from, start, middle, end, items, part, r);
    MoreTradesAsked(before, calls, from, q, n);
    forall i | from <= i < |calls|
      ensures !calls[i].Short()
    {
      assert i < |before| ==> calls[i] == before[i];
    }
  }

  lemma CategoriesAreParts(calls: seq<Call>, from: nat, q: Query)
    requires CategoriesAsked(calls, from, q, |CATEGORIES|) && q.category == ""
    ensures q.trade != "" ==> AllPartsAsked(calls, from, q)
  {
  }

  lemma TradesAreParts(calls: seq<Call>, from: nat, q: Query)
    requires TradesAsked(calls, from, q, |TRADES|)
    requires q.category == "" && q.trade == "" && q.plate != "" && q.first >= q.last
    ensures AllPartsAsked(calls, from, q)
  {
  }

  lemma BoardsAreParts(calls: seq<Call>, from: nat, q: Query)
    requires BoardsAsked(calls, from, q, |PLATES|)
    requires q.category == "" && q.trade == "" && q.plate == "" && q.first >= q.last
    ensures AllPartsAsked(calls, from, q)
  {
  }

  /** What a crawl of a range or a day promises.  It ends early only when a query fails; it asks for all parts of what it
      divides and returns exactly what the other queries paged; short days are reported with their numbers; nothing is
      silently lost.  A server at its best is crawled without a warning if and only if every day fits. */
  ghost predicate RangeDone(site: Site, reply: (nat, Query, nat) -> Reply, q: Query, r: Crawled,
                            before: seq<Call>, calls: seq<Call>, start: nat, end: nat,
                            warned: seq<Warning>, warnings: seq<Warning>)
  {
    && RangeTold(reply, r, before, calls, start, end, warned, warnings)
    && RangeKept(site, reply, q, r, warned, warnings)
  }

  ghost predicate RangeTold(reply: (nat, Query, nat) -> Reply, r: Crawled, before: seq<Call>, calls: seq<Call>,
                            start: nat, end: nat, warned: seq<Warning>, warnings: seq<Warning>)
  {
    && before <= calls && warned <= warnings
    && Told(reply, calls, |before|, start, end, r)
    && ShortsWarned(calls, |before|, warnings[|warned|..])
  }

  ghost predicate RangeKept(site: Site, reply: (nat, Query, nat) -> Reply, q: Query, r: Crawled,
                            warned: seq<Warning>, warnings: seq<Warning>)
  {
    match r
    case Aborted => warned <= warnings && !ServesAll(site, reply)
    case Got(items) =>
      && warned <= warnings && NothingSilentlyLost(site, q, items, warnings[|warned|..])
      && (ServesAll(site, reply) && (q.plate != "" || site.BoardsPartition()) ==> (warnings == warned <==> Fits(site, q)))
  }

  lemma NoDaysNoEntries(site: Site, q: Query)
    ensures q.last < q.first ==> site.Matching(q) == {}
  {
  }

  /** The call that asked for the whole range comes before its parts. */
  lemma DividedRange(site: Site, reply: (nat, Query, nat) -> Reply, q: Query, r: Crawled,
                     first: seq<Call>, before: seq<Call>, calls: seq<Call>, start: nat, middle: nat, end: nat,
                     warned: seq<Warning>, warnings: seq<Warning>)
    requires |before| == |first| + 1 && first <= before
    requires var c := before[|first|];
             c.q == q && Proper(reply, c) && c.MustDivide() && Chained(before, |first|, start, middle)
    requires q.category == "" && q.trade == ""
    requires RangeDone(site, reply, q, r, before, calls, middle, end, warned, warnings)
    requires r.Got? ==> AllPartsAsked(calls, |before|, q)
    ensures RangeDone(site, reply, q, r, first, calls, start, end, warned, warnings)
    ensures |calls| > |first| && calls[|first|].q == q && (r.Got? ==> |calls| > |first| + 1)
    ensures Asked(calls, |first|, q) && Splits(calls, |first|)
  {
    DividedCall(reply, before, calls, start, middle, end, r);
    assert calls[|first|] == before[|first|];
  }

  /** A query answered in full. */
  lemma UsedWhole(site: Site, reply: (nat, Query, nat) -> Reply, c: Call, before: seq<Call>, calls: seq<Call>, start: nat,
                  end: nat, warned: seq<Warning>)
    requires calls == before + [c] && Chained(calls, |before|, start, end) && Ended(site, reply, c)
    requires c.outcome.Items? && !c.partial
    ensures RangeDone(site, reply, c.q, Got(c.Items()), before, calls, start, end, warned, warned)
  {
    OneCall(reply, calls, start, end, Got(c.Items()));
    assert RangeTold(reply, Got(c.Items()), before, calls, start, end, warned, warned);
    WholeKept(site, reply, c.q, c.Items(), warned);
  }

  lemma WholeKept(site: Site, reply: (nat, Query, nat) -> Reply, q: Query, items: seq<Announcement>, warned: seq<Warning>)
    requires Drawn(items, site.Matching(q)) && |items| == |site.Matching(q)| <= MAX_ITEMS
    ensures RangeKept(site, reply, q, Got(items), warned, warned)
  {
    SmallRangeFits(site, q);
    DrawnBounded(items, site.Matching(q));
    AccountedIsEnough(site, q, items, []);
    assert warned[|warned|..] == [];
  }

  /** A single day, or a board of it, answered short: what was paged is used with a warning. */
  lemma UsedShort(site: Site, reply: (nat, Query, nat) -> Reply, c: Call, before: seq<Call>, calls: seq<Call>, start: nat,
                  end: nat, plate: string, warned: seq<Warning>, warnings: seq<Warning>)
    requires calls == before + [c] && Chained(calls, |before|, start, end) && Ended(site, reply, c)
    requires c.q.category == "" && c.q.trade == "" && (plate == "" || plate == c.q.plate)
    requires c.outcome.Incomplete? && c.q.first >= c.q.last && !ServesAll(site, reply)
    requires UsedAsItIs(c, plate, c.Items(), warned, warnings)
    ensures RangeDone(site, reply, c.q, Got(c.Items()), before, calls, start, end, warned, warnings)
  {
    var items, w := c.Items(), warnings[|warned|];
    OneCall(reply, calls, start, end, Got(items));
    assert warnings[|warned|..] == [w];
    WholeDayWarned(site, c.q, items, w);
    assert w in [w] && Tells(w, c);
  }

  /** Warnings given before the parts of a day were asked for stay in front. */
  lemma EarlierWarnings(site: Site, q: Query, r: Crawled, warned: seq<Warning>, between: seq<Warning>,
                        warnings: seq<Warning>, calls: seq<Call>, from: nat)
    requires warned <= between <= warnings
    requires r.Got? ==> Drawn(r.items, site.Matching(q)) && Accounted(site.Matching(q), r.items, warnings[|between|..])
    requires NoneShort(calls, from)
    ensures r.Got? ==> NothingSilentlyLost(site, q, r.items, warnings[|warned|..])
    ensures ShortsWarned(calls, from, warnings[|warned|..])
  {
    WarningsGrow(warned, between, warnings);
    if r.Got? {
      forall a | a in site.Matching(q)
        ensures a in r.items || Explained(a, warnings[|warned|..])
      {
        assert a in r.items || Explained(a, warnings[|between|..]);
      }
      AccountedIsEnough(site, q, r.items, warnings[|warned|..]);
    }
  }

  lemma FirstHalfFailed(site: Site, reply: (nat, Query, nat) -> Reply, q: Query, before: seq<Call>, calls: seq<Call>,
                        start: nat, end: nat, warned: seq<Warning>, warnings: seq<Warning>)
    requires q.first < q.last
    requires RangeDone(site, reply, q.(last := q.first + (q.last - q.first) / 2), Aborted, before, calls, start, end,
                       warned, warnings)
    ensures RangeDone(site, reply, q, Aborted, before, calls, start, end, warned, warnings)
  {
  }

  lemma HalvesDone(site: Site, reply: (nat, Query, nat) -> Reply, q: Query, mid: int,
                   left: seq<Announcement>, right: Crawled, r: Crawled,
                   first: seq<Call>, before: seq<Call>, calls: seq<Call>, start: nat, middle: nat, end: nat,
                   warned: seq<Warning>, between: seq<Warning>, warnings: seq<Warning>)
    requires site.KeysUnique() && q.first <= mid < q.last
    requires RangeDone(site, reply, q.(last := mid), Got(left), first, before, start, middle, warned, between)
    requires RangeDone(site, reply, q.(first := mid + 1), right, before, calls, middle, end, between, warnings)
    requires r == if right.Aborted? then Aborted else Got(left + right.items)
    ensures RangeDone(site, reply, q, r, first, calls, start, end, warned, warnings)
  {
    HalvesTold(reply, left, right, r, first, before, calls, start, middle, end, warned, between, warnings);
    HalvesKept(site, reply, q, mid, left, right, r, warned, between, warnings);
  }

  lemma HalvesTold(reply: (nat, Query, nat) -> Reply, left: seq<Announcement>, right: Crawled, r: Crawled,
                   first: seq<Call>, before: seq<Call>, calls: seq<Call>, start: nat, middle: nat, end: nat,
                   warned: seq<Warning>, between: seq<Warning>, warnings: seq<Warning>)
    requires RangeTold(reply, Got(left), first, before, start, middle, warned, between)
    requires RangeTold(reply, right, before, calls, middle, end, between, warnings)
    requires r == if right.Aborted? then Aborted else Got(left + right.items)
    ensures RangeTold(reply, r, first, calls, start, end, warned, warnings)
  {
    WarningsGrow(warned, between, warnings);
    TwoCrawls(reply, before, calls, |first|, start, middle, end, left, right, r);
    TwoShorts(before, calls, |first|, between[|warned|..], warnings[|between|..]);
  }

  lemma HalvesKept(site: Site, reply: (nat, Query, nat) -> Reply, q: Query, mid: int,
                   left: seq<Announcement>, right: Crawled, r: Crawled,
                   warned: seq<Warning>, between: seq<Warning>, warnings: seq<Warning>)
    requires site.KeysUnique() && q.first <= mid < q.last
    requires RangeKept(site, reply, q.(last := mid), Got(left), warned, between)
    requires RangeKept(site, reply, q.(first := mid + 1), right, between, warnings)
    requires r == if right.Aborted? then Aborted else Got(left + right.items)
    ensures RangeKept(site, reply, q, r, warned, warnings)
  {
    WarningsGrow(warned, between, warnings);
    FitsByHalves(site, q, mid);
    HalvesKeep(site, q, mid, left, right, between[|warned|..], warnings[|between|..]);
  }

  lemma HalvesKeep(site: Site, q: Query, mid: int, left: seq<Announcement>, right: Crawled,
                   warnedLeft: seq<Warning>, warnedRight: seq<Warning>)
    requires site.KeysUnique() && q.first <= mid < q.last
    requires NothingSilentlyLost(site, q.(last := mid), left, warnedLeft)
    requires right.Got? ==> NothingSilentlyLost(site, q.(first := mid + 1), right.items, warnedRight)
    ensures right.Got? ==> NothingSilentlyLost(site, q, left + right.items, warnedLeft + warnedRight)
  {
    if right.Got? {
      JoinHalves(site, q, mid, left, right.items, warnedLeft, warnedRight);
    }
  }

  lemma StillAsked(before: seq<Call>, calls: seq<Call>, from: nat, q: Query)
    requires before <= calls
    ensures Asked(before, from, q) ==> Asked(calls, from, q)
    ensures forall n :: from <= n && Asked(calls, n, q) ==> Asked(calls, from, q)
  {
    if Asked(before, from, q) {
      var i :| from <= i < |before| && before[i].q == q;
      assert calls[i].q == q;
    }
  }

  lemma MoreCategoriesAsked(before: seq<Call>, calls: seq<Call>, from: nat, q: Query, n: nat)
    requires before <= calls && from <= |before| && n < |CATEGORIES| && CategoriesAsked(before, from, q, n)
    requires Asked(calls, |before|, q.(category := CATEGORIES[n]))
    ensures CategoriesAsked(calls, from, q, n + 1)
  {
    forall i | 0 <= i < n + 1
      ensures Asked(calls, from, q.(category := CATEGORIES[i]))
    {
      StillAsked(before, calls, from, q.(category := CATEGORIES[i]));
    }
  }

  lemma MoreTradesAsked(before: seq<Call>, calls: seq<Call>, from: nat, q: Query, n: nat)
    requires before <= calls && from <= |before| && n < |TRADES| && TradesAsked(before, from, q, n)
    requires Asked(calls, |before|, q.(trade := TRADES[n]))
    ensures TradesAsked(calls, from, q, n + 1)
  {
    forall i | 0 <= i < n + 1
      ensures Asked(calls, from, q.(trade := TRADES[i]))
    {
      StillAsked(before, calls, from, q.(trade := TRADES[i]));
    }
  }

  lemma MoreBoardsAsked(before: seq<Call>, calls: seq<Call>, from: nat, q: Query, n: nat)
    requires before <= calls && from <= |before| && n < |PLATES| && BoardsAsked(before, from, q, n)
    requires Asked(calls, |before|, q.(plate := PLATES[n]))
    ensures BoardsAsked(calls, from, q, n + 1)
  {
    forall i | 0 <= i < n + 1
      ensures Asked(calls, from, q.(plate := PLATES[i]))
    {
      StillAsked(before, calls, from, q.(plate := PLATES[i]));
    }
  }
}
