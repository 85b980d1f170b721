/** Reading an account's postings page by page while new ones are being committed. */
module Paging {
  import opened Types
  import opened AtomicLedger
  import opened ProtocolInvariant
  import opened ProtocolSteps
  import opened Refinement
  import P = Protocol

  predicate Distinct(table: seq<Posting>) {
    forall i, j | 0 <= i < j < |table| :: table[i].id != table[j].id
  }

  /** The WHERE clause: a cursor of zero starts at the newest posting. */
  predicate Matches(p: Posting, account: AccountId, afterId: int) {
    p.account == account && (afterId > 0 ==> p.id < afterId)
  }

  predicate NewestFirst(page: seq<Posting>) {
    forall i, j | 0 <= i < j < |page| :: page[i].id > page[j].id
  }

  /** The page the query returns: the newest matching postings, up to the limit. */
  ghost predicate IsPage(table: seq<Posting>, account: AccountId, afterId: int, limit: nat, page: seq<Posting>) {
    && NewestFirst(page) && |page| <= limit
    && (forall p | p in page :: p in table && Matches(p, account, afterId))
    && (forall p | p in table && Matches(p, account, afterId) ::
      p in page || (|page| == limit && (page == [] || p.id < page[|page| - 1].id)))
  }

  method Newest(table: seq<Posting>, account: AccountId, afterId: int) returns (best: Option<Posting>)
    ensures best.None? ==> forall p | p in table :: !Matches(p, account, afterId)
    ensures best.Some? ==>
      && best.value in table && Matches(best.value, account, afterId)
      && forall p | p in table && Matches(p, account, afterId) :: p.id <= best.value.id
  {
    best := None;
    for i := 0 to |table|
      invariant best.None? ==> forall p | p in table[..i] :: !Matches(p, account, afterId)
      invariant best.Some? ==>
        && best.value in table && Matches(best.value, account, afterId)
        && forall p | p in table[..i] && Matches(p, account, afterId) :: p.id <= best.value.id
    {
      if Matches(table[i], account, afterId) && (best.None? || best.value.id < table[i].id) {
        best := Some(table[i]);
      }
    }
    assert table[..|table|] == table;
  }

  lemma SameId(table: seq<Posting>, p: Posting, q: Posting)
    requires Distinct(table) && p in table && q in table && p.id == q.id
    ensures p == q
  {
  }

  method GetPostings(table: seq<Posting>, account: AccountId, afterId: int, limit: nat) returns (postings: seq<Posting>)
    requires Distinct(table) && forall p | p in table :: p.id > 0
    ensures IsPage(table, account, afterId, limit, postings)
  {
    postings := [];
    var cursor := afterId;
    while |postings| < limit
      invariant |postings| <= limit && NewestFirst(postings)
      invariant forall p | p in postings :: p in table && Matches(p, account, afterId)
      invariant cursor == if postings == [] then afterId else postings[|postings| - 1].id
      invariant forall p | p in table && Matches(p, account, afterId) :: p in postings || Matches(p, account, cursor)
    {
      var best := Newest(table, account, cursor);
      if best.None? {
        break;
      }
      ghost var before := postings;
      postings := postings + [best.value];
      cursor := best.value.id;
      forall p | p in table && Matches(p, account, afterId)
        ensures p in postings || Matches(p, account, cursor)
      {
        if p !in before && p.id >= cursor {
          SameId(table, p, best.value);
        }
      }
    }
  }

  /** Committed postings stay; others, with any ids, may have been committed in between. */
  ghost predicate Grows(tables: nat -> seq<Posting>) {
    forall i: nat, j: nat, p | i <= j && p in tables(i) :: p in tables(j)
  }

  ghost predicate WellFormed(tables: nat -> seq<Posting>) {
    forall i: nat :: Distinct(tables(i)) && forall p | p in tables(i) :: p.id > 0
  }

  /** After n pages: newest first, all of the account and seen on those pages; the rest is below the cursor. */
  ghost predicate HasRead(tables: nat -> seq<Posting>, account: AccountId, n: nat, cursor: int, all: seq<Posting>) {
    && NewestFirst(all)
    && (if all == [] then cursor == 0 else cursor == all[|all| - 1].id > 0)
    && (forall p | p in all :: p.account == account && SeenOn(tables, n, p))
    && forall p | p in tables(0) && p.account == account :: p in all || Matches(p, account, cursor)
  }

  ghost predicate SeenOn(tables: nat -> seq<Posting>, n: nat, p: Posting) {
    exists i: nat :: i < n && p in tables(i)
  }

  lemma PageThen(tables: nat -> seq<Posting>, account: AccountId, n: nat, cursor: int, limit: nat,
                 all: seq<Posting>, page: seq<Posting>)
    requires WellFormed(tables) && Grows(tables) && limit > 0
    requires HasRead(tables, account, n, cursor, all) && IsPage(tables(n), account, cursor, limit, page)
    ensures page != [] ==> HasRead(tables, account, n + 1, page[|page| - 1].id, all + page)
    ensures page == [] ==> forall p | p in tables(0) && p.account == account :: p in all
  {
    forall p | p in tables(0) && p.account == account
      ensures if page == [] then p in all else p in all + page || Matches(p, account, page[|page| - 1].id)
    {
      assert p in tables(n);
    }
    forall p | p in all + page ensures p.account == account && SeenOn(tables, n + 1, p) {
      if p in page {
        assert p in tables(n);
      }
    }
    forall i, j | 0 <= i < j < |all + page| ensures (all + page)[i].id > (all + page)[j].id {
      if i < |all| <= j {
        assert page[j - |all|] in page && all[i].id >= cursor;
      }
    }
  }

  /**
   A client that passes the smallest id of each page until a page is empty. Every posting of
   the account committed before the first page is returned exactly once, newest first, whatever
   is committed between the pages.
   */
  method ReadAll(tables: nat -> seq<Posting>, account: AccountId, limit: nat) returns (all: seq<Posting>, pages: nat)
    requires WellFormed(tables) && Grows(tables) && limit > 0
    ensures NewestFirst(all)
    ensures forall p | p in tables(0) && p.account == account :: p in all
    ensures forall p | p in all :: p.account == account && SeenOn(tables, pages, p)
  {
    all, pages := [], 0;
    var cursor := 0;
    var page := GetPostings(tables(0), account, cursor, limit);
    while page != []
      invariant HasRead(tables, account, pages, cursor, all)
      invariant IsPage(tables(pages), account, cursor, limit, page)
      decreases if page == [] then 0 else page[0].id
    {
      assert page[0] in page && page[|page| - 1] in page;
      PageThen(tables, account, pages, cursor, limit, all, page);
      all := all + page;
      cursor := page[|page| - 1].id;
      pages := pages + 1;
      page := GetPostings(tables(pages), account, cursor, limit);
      assert page != [] ==> page[0] in page;
    }
    PageThen(tables, account, pages, cursor, limit, all, page);
  }

  // -------------------------------------------------------- in reachable states

  /** The moments at which pages are read: each has seen all that the earlier ones have. */
  ghost predicate Advances(moments: nat -> seq<P.Label>) {
    forall i: nat, j: nat | i <= j :: moments(i) <= moments(j)
  }

  /** The journal as each page finds it. */
  function Journals(s: P.State, moments: nat -> seq<P.Label>): nat -> seq<Posting> {
    (i: nat) => P.Run(s, moments(i)).db.postings
  }

  lemma {:induction false} FoldExtends(db: Db, log: seq<Op>)
    requires Legal(db, log)
    ensures db.postings <= Fold(db, log).postings
    decreases |log|
  {
    if log != [] {
      FoldExtends(Apply(db, log[0]), log[1..]);
    }
  }

  /** Whatever transfers run between the pages, the reader finds a journal it can page through. */
  lemma ReachableJournals(s: P.State, moments: nat -> seq<P.Label>)
    requires Inv(s) && Advances(moments)
    ensures WellFormed(Journals(s, moments)) && Grows(Journals(s, moments))
  {
    var tables := Journals(s, moments);
    forall i: nat ensures Distinct(tables(i)) && forall p | p in tables(i) :: p.id > 0 {
      RunKeepsInv(s, moments(i));
    }
    forall i: nat, j: nat, p | i <= j && p in tables(i) ensures p in tables(j) {
      var mid := P.Run(s, moments(i));
      var more := moments(j)[|moments(i)|..];
      assert moments(i) + more == moments(j);
      RunConcat(s, moments(i), more);
      RunKeepsInv(s, moments(i));
      RunRefines(mid, more);
      FoldExtends(mid.db, P.History(mid, more));
    }
  }
}
