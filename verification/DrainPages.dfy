/** Draining a page-numbered list endpoint (apps/cli/src/lib/drain-cursor.ts). */
module DrainPages {
  import opened Wrappers

  const MAX_PAGES: nat := 100

  datatype Page<T> = Page(items: seq<T>, total: int, limit: int)

  /** A fetch can fail, which ends the drain. `page` numbers start at one. */
  type Server<T, !E> = nat -> Result<Page<T>, E>

  datatype Drained<T, E> = Drained(outcome: Result<seq<T>, E>, fetches: nat)

  /** The recursive loop, counting its fetches. */
  function Loop<T, E>(server: Server<T, E>, accumulator: seq<T>, page: nat): Drained<T, E>
    requires 1 <= page <= MAX_PAGES
    decreases MAX_PAGES - page
  {
    match server(page)
    case Err(e) => Drained(Err(e), page)
    case Ok(response) =>
      var next := accumulator + response.items;
      var fetched := page * response.limit;
      var reachedLimit := page >= MAX_PAGES || |next| >= response.total;
      if reachedLimit || fetched >= response.total then Drained(Ok(next), page)
      else Loop(server, next, page + 1)
  }

  function Drain<T, E>(server: Server<T, E>): Drained<T, E> {
    Loop(server, [], 1)
  }

  /** The items of pages `lo` to `hi`, which all answer. */
  function Items<T, E>(server: Server<T, E>, lo: nat, hi: nat): seq<T>
    requires forall page | lo <= page <= hi :: server(page).Ok?
    decreases hi + 1 - lo
  {
    if lo > hi then [] else server(lo).value.items + Items(server, lo + 1, hi)
  }

  /** A page after which the drain stops for a reason other than the page cap, given what it has by then. */
  predicate Last<T>(page: nat, response: Page<T>, collected: nat) {
    collected >= response.total || page * response.limit >= response.total
  }

  /**
   * Against any server, whatever totals and limits it reports: at most a hundred
   * fetches, of pages 1, 2, 3 and so on. A success is the items of exactly those
   * pages, and the drain stopped at the first one that is last or is the hundredth;
   * a failure is the first page that failed.
   */
  lemma {:induction false} LoopDrains<T, E>(server: Server<T, E>, accumulator: seq<T>, page: nat)
    requires 1 <= page <= MAX_PAGES
    ensures
      var drained := Loop(server, accumulator, page);
      && page <= drained.fetches <= MAX_PAGES
      && (forall p | page <= p < drained.fetches :: server(p).Ok?)
      && (match drained.outcome
          case Err(e) => server(drained.fetches) == Err(e)
          case Ok(items) =>
            && server(drained.fetches).Ok?
            && items == accumulator + Items(server, page, drained.fetches)
            && (drained.fetches == MAX_PAGES || Last(drained.fetches, server(drained.fetches).value, |items|)))
      && (forall p | page <= p < drained.fetches ::
            !Last(p, server(p).value, |accumulator| + |Items(server, page, p)|))
    decreases MAX_PAGES - page
  {
    if server(page).Ok? {
      var response := server(page).value;
      var next := accumulator + response.items;
      if page < MAX_PAGES && !Last(page, response, |next|) {
        LoopDrains(server, next, page + 1);
      }
    }
  }

  /** The whole drain: what `LoopDrains` says from page 1 on. */
  lemma DrainStops<T, E>(server: Server<T, E>)
    ensures 1 <= Drain(server).fetches <= 100
    ensures forall p | 1 <= p < Drain(server).fetches :: server(p).Ok?
    ensures Drain(server).outcome.Ok? ==>
              && server(Drain(server).fetches).Ok?
              && Drain(server).outcome.value == Items(server, 1, Drain(server).fetches)
    ensures Drain(server).outcome.Err? ==>
              server(Drain(server).fetches) == Result<Page<T>, E>.Err(Drain(server).outcome.error)
  {
    LoopDrains(server, [], 1);
  }

  // ---------------------------------------------------------------- a fixed list

  function Min(a: nat, b: nat): nat {
    if a < b then a else b
  }

  /** Cuts a list into pages of `limit`. */
  function Paged<T, E>(list: seq<T>, limit: nat): Server<T, E> {
    (page: nat) =>
      if page == 0 then Ok(Page([], |list|, limit))
      else
        var start := Min((page - 1) * limit, |list|);
        var end := Min(page * limit, |list|);
        Ok(Page(if start <= end then list[start..end] else [], |list|, limit))
  }

  /** How many pages of `limit` hold `n` items. */
  function PageCount(n: nat, limit: nat): (count: nat)
    requires limit >= 1
    ensures n <= count * limit && (count > 0 ==> (count - 1) * limit < n)
  {
    if n <= limit then (if n == 0 then 0 else 1) else PageCount(n - limit, limit) + 1
  }

  lemma OnePage<T, E>(list: seq<T>, limit: nat, page: nat)
    requires limit >= 1 && page >= 1 && (page == 1 || (page - 1) * limit < |list|)
    ensures (page - 1) * limit <= page * limit
    ensures var response := Paged<T, E>(list, limit)(page).value;
            list[..Min((page - 1) * limit, |list|)] + response.items == list[..Min(page * limit, |list|)]
  {
    assert page * limit == (page - 1) * limit + limit;
  }

  /** The items of a list that lie on pages up to `page`. */
  function Upto<T>(list: seq<T>, limit: nat, page: nat): seq<T> {
    list[..Min(page * limit, |list|)]
  }

  lemma LoopStep<T, E>(list: seq<T>, limit: nat, page: nat)
    requires limit >= 1 && 1 <= page <= MAX_PAGES && (page == 1 || (page - 1) * limit < |list|)
    ensures Loop(Paged<T, E>(list, limit), Upto(list, limit, page - 1), page)
         == if page == MAX_PAGES || page * limit >= |list| then Drained(Ok(Upto(list, limit, page)), page)
            else Loop(Paged<T, E>(list, limit), Upto(list, limit, page), page + 1)
  {
    OnePage<T, E>(list, limit, page);
  }

  /** The drain stopped at page `fetches`: the cap, or the first page that reaches the end. */
  ghost predicate StopsAt<T, E>(drained: Drained<T, E>, list: seq<T>, limit: nat, page: nat) {
    var fetches := drained.fetches;
    && page <= fetches <= MAX_PAGES
    && drained.outcome == Ok(Upto(list, limit, fetches))
    && (fetches == MAX_PAGES || fetches * limit >= |list|)
    && (fetches == 1 || (fetches - 1) * limit < |list|)
  }

  lemma {:induction false} LoopOnList<T, E>(list: seq<T>, limit: nat, page: nat)
    requires limit >= 1 && 1 <= page <= MAX_PAGES && (page == 1 || (page - 1) * limit < |list|)
    ensures StopsAt(Loop(Paged<T, E>(list, limit), Upto(list, limit, page - 1), page), list, limit, page)
    decreases MAX_PAGES - page
  {
    hide Loop, Paged, Upto;
    LoopStep<T, E>(list, limit, page);
    if page < MAX_PAGES && page * limit < |list| {
      assert (page + 1 - 1) * limit == page * limit;
      LoopOnList<T, E>(list, limit, page + 1);
    }
  }

  lemma MultiplesGrow(a: nat, b: nat, limit: nat)
    requires a <= b
    ensures a * limit <= b * limit
  {
  }

  lemma MultiplesOrder(a: nat, b: nat, limit: nat)
    requires limit >= 1 && a * limit < b * limit
    ensures a < b
  {
    if a >= b {
      MultiplesGrow(b, a, limit);
    }
  }

  /** The count of pages is the only number with these bounds. */
  lemma PageCountIs(n: nat, limit: nat, fetches: nat)
    requires limit >= 1 && fetches >= 1
    requires fetches == 1 || (fetches - 1) * limit < n
    ensures fetches * limit >= n ==> fetches == if PageCount(n, limit) == 0 then 1 else PageCount(n, limit)
    ensures fetches <= 1 || fetches <= PageCount(n, limit)
  {
    var count := PageCount(n, limit);
    if fetches > 1 {
      MultiplesOrder(fetches - 1, count, limit);
    }
    if fetches * limit >= n && count > 0 {
      MultiplesOrder(count - 1, fetches, limit);
    }
  }

  /**
   * A list of n items in pages of a constant limit drains to its first
   * min(n, 100 * limit) items, in order, in exactly min(100, max(1, pages)) fetches.
   */
  lemma DrainsList<T, E>(list: seq<T>, limit: nat)
    requires limit >= 1
    ensures
      var drained := Drain(Paged<T, E>(list, limit));
      var pages := PageCount(|list|, limit);
      && drained.outcome == Ok(list[..Min(100 * limit, |list|)])
      && drained.fetches == Min(100, if pages == 0 then 1 else pages)
  {
    hide PageCount, Loop, Paged;
    assert Upto(list, limit, 0) == [];
    LoopOnList<T, E>(list, limit, 1);
    var fetches := Drain(Paged<T, E>(list, limit)).fetches;
    PageCountIs(|list|, limit, fetches);
    MultiplesGrow(fetches, MAX_PAGES, limit);
  }
}
