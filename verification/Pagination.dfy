/** Listings that come page by page, with a bound on the number of pages. */
module Pagination {
  import opened Options
  import opened AuthentikServer
  import opened Clients

  const MAX_PAGES: nat := 1000

  /**
   The body of a page. `pagination` is the pagination object, if there is one, with its next page;
   `linked` is the page number in the next link, which counts only without such an object.
   */
  datatype Page<T> = Page(results: seq<T>, pagination: Option<Option<int>>, linked: Option<int>)

  function NextPage<T>(p: Page<T>): Option<int> {
    match p.pagination
    case Some(next) => if next.Some? && next.value > 0 then next else None
    case None => p.linked
  }

  /** A pagination object decides alone, by a positive number; a link counts only without one. */
  lemma NextPageMeans<T>(results: seq<T>, linked: Option<int>, next: int)
    ensures NextPage(Page(results, Some(Some(next)), linked)) == (if next > 0 then Some(next) else None)
    ensures NextPage(Page(results, Some(None), linked)) == None
    ensures NextPage(Page(results, None, Some(next))) == Some(next)
    ensures NextPage(Page(results, None, None)) == None
  {}

  /** The reply to the k-th request, which asks for the given page. */
  type Source<!T> = (nat, int) -> Outcome<Page<T>>

  function Prepend<T>(items: seq<T>, rest: Outcome<seq<T>>): Outcome<seq<T>> {
    match rest
    case Failure(e) => Failure(e)
    case Success(more) => Success(items + more)
  }

  lemma PrependLaws<T>(a: seq<T>, b: seq<T>, rest: Outcome<seq<T>>)
    ensures Prepend([], rest) == rest
    ensures Prepend(a, Prepend(b, rest)) == Prepend(a + b, rest)
  {
    if rest.Success? {
      assert [] + rest.value == rest.value;
      assert a + (b + rest.value) == (a + b) + rest.value;
    }
  }

  /** What is left of a listing at request `k` for `page`, with `budget` requests still allowed. */
  function Listing<T>(get: Source<T>, k: nat, page: int, budget: nat): Outcome<seq<T>>
    decreases budget
  {
    if budget == 0 then Failure(TooManyPages)
    else
      match get(k, page)
      case Failure(e) => Failure(e)
      case Success(p) =>
        match NextPage(p)
        case None => Success(p.results)
        case Some(next) => Prepend(p.results, Listing(get, k + 1, next, budget - 1))
  }

  /** All results of the chain of pages, in order, or an error after at most 1000 requests. */
  method GetPaginated<T>(get: Source<T>, first: int) returns (r: Outcome<seq<T>>, requests: nat)
    ensures r == Listing(get, 0, first, MAX_PAGES)
    ensures 1 <= requests <= 1000
    ensures r == Failure(TooManyPages) && (forall k: nat, p: int :: get(k, p) != Failure(TooManyPages)) ==>
        requests == 1000
  {
    var page := first;
    var items := [];
    requests := 0;
    PrependLaws(items, items, Listing(get, 0, first, MAX_PAGES));
    while requests < MAX_PAGES
      invariant requests <= MAX_PAGES
      invariant Listing(get, 0, first, MAX_PAGES) == Prepend(items, Listing(get, requests, page, MAX_PAGES - requests))
    {
      var reply := get(requests, page);
      requests := requests + 1;
      if reply.Failure? {
        return Failure(reply.error), requests;
      }
      match NextPage(reply.value) {
        case None =>
        case Some(next) => PrependLaws(items, reply.value.results, Listing(get, requests, next, MAX_PAGES - requests));
      }
      items := items + reply.value.results;
      match NextPage(reply.value) {
        case None => return Success(items), requests;
        case Some(next) => page := next;
      }
    }
    return Failure(TooManyPages), requests;
  }

  // ---- Chains ---------------------------------------------------------------------------

  /** The pages visited from request `k` on: each arrives and, but for the last, names the next. */
  ghost predicate Walk<T>(get: Source<T>, k: nat, pages: seq<int>) {
    && (forall i :: 0 <= i < |pages| ==> get(k + i, pages[i]).Success?)
    && (forall i :: 0 <= i < |pages| - 1 ==> NextPage(get(k + i, pages[i]).value) == Some(pages[i + 1]))
  }

  /** A walk that has come to its end. */
  ghost predicate Chain<T>(get: Source<T>, k: nat, pages: seq<int>) {
    Walk(get, k, pages) && pages != [] && NextPage(get(k + |pages| - 1, pages[|pages| - 1]).value).None?
  }

  ghost function Results<T>(get: Source<T>, k: nat, pages: seq<int>): seq<T>
    requires Walk(get, k, pages)
    decreases |pages|
  {
    if pages == [] then []
    else
      WalkTail(get, k, pages);
      get(k, pages[0]).value.results + Results(get, k + 1, pages[1..])
  }

  lemma WalkTail<T>(get: Source<T>, k: nat, pages: seq<int>)
    requires Walk(get, k, pages) && pages != []
    ensures get(k, pages[0]).Success? && Walk(get, k + 1, pages[1..])
    ensures |pages| > 1 ==> NextPage(get(k, pages[0]).value) == Some(pages[1])
  {
    assert get(k + 0, pages[0]).Success?;
    forall i | 0 <= i < |pages[1..]| ensures get(k + 1 + i, pages[1..][i]).Success? {
      assert get(k + (i + 1), pages[i + 1]).Success?;
    }
    forall i | 0 <= i < |pages[1..]| - 1
      ensures NextPage(get(k + 1 + i, pages[1..][i]).value) == Some(pages[1..][i + 1])
    {
      assert NextPage(get(k + (i + 1), pages[i + 1]).value) == Some(pages[(i + 1) + 1]);
    }
    assert |pages| > 1 ==> NextPage(get(k + 0, pages[0]).value) == Some(pages[0 + 1]);
  }

  lemma OnePage<T>(get: Source<T>, k: nat, pages: seq<int>)
    requires |pages| == 1 && get(k, pages[0]).Success?
    ensures Walk(get, k, pages) && Results(get, k, pages) == get(k, pages[0]).value.results
  {
    assert get(k + 0, pages[0]).Success?;
    assert Walk(get, k, pages);
    WalkTail(get, k, pages);
    assert pages[1..] == [];
    assert Results(get, k + 1, pages[1..]) == [];
    assert Results(get, k, pages) == get(k, pages[0]).value.results + [];
  }

  /**
   A chain within the budget is listed completely and in order; a longer one is an error, and
   never a truncated listing.
   */
  lemma {:induction false} ChainListed<T>(get: Source<T>, k: nat, pages: seq<int>, budget: nat)
    requires Chain(get, k, pages)
    ensures Listing(get, k, pages[0], budget) ==
      if |pages| <= budget then Success(Results(get, k, pages)) else Failure(TooManyPages)
    decreases |pages|
  {
    WalkTail(get, k, pages);
    if |pages| == 1 {
      OnePage(get, k, pages);
    } else if budget > 0 {
      ChainListed(get, k + 1, pages[1..], budget - 1);
    }
  }

  /** A walk that goes on past the budget, round a cycle or not, is an error. */
  lemma {:induction false} EndlessWalk<T>(get: Source<T>, k: nat, pages: seq<int>, budget: nat)
    requires Walk(get, k, pages) && |pages| == budget + 1
    ensures Listing(get, k, pages[0], budget) == Failure(TooManyPages)
    decreases budget
  {
    if budget > 0 {
      WalkTail(get, k, pages);
      EndlessWalk(get, k + 1, pages[1..], budget - 1);
    }
  }

  /** A page that names the first of a chain makes a longer chain with it. */
  lemma WalkLonger<T>(get: Source<T>, k: nat, page: int, rest: seq<int>)
    requires get(k, page).Success? && Walk(get, k + 1, rest) && rest != []
        && NextPage(get(k, page).value) == Some(rest[0])
    ensures Walk(get, k, [page] + rest)
  {
    var pages := [page] + rest;
    forall i | 0 <= i < |pages| ensures get(k + i, pages[i]).Success? {
      assert i > 0 ==> get(k + 1 + (i - 1), rest[i - 1]).Success?;
    }
    forall i | 0 <= i < |pages| - 1 ensures NextPage(get(k + i, pages[i]).value) == Some(pages[i + 1]) {
      assert i > 0 ==> NextPage(get(k + 1 + (i - 1), rest[i - 1]).value) == Some(rest[(i - 1) + 1]);
    }
  }

  lemma ChainLonger<T>(get: Source<T>, k: nat, page: int, rest: seq<int>)
    requires get(k, page).Success? && Chain(get, k + 1, rest) && NextPage(get(k, page).value) == Some(rest[0])
    ensures Chain(get, k, [page] + rest)
    ensures Results(get, k, [page] + rest) == get(k, page).value.results + Results(get, k + 1, rest)
  {
    var pages := [page] + rest;
    WalkLonger(get, k, page, rest);
    WalkTail(get, k, pages);
    assert pages[1..] == rest && pages[|pages| - 1] == rest[|rest| - 1];
  }

  /** A listing that succeeds is that of a chain within the budget. */
  lemma {:induction false} ListedChain<T>(get: Source<T>, k: nat, page: int, budget: nat) returns (pages: seq<int>)
    requires Listing(get, k, page, budget).Success?
    ensures Chain(get, k, pages) && pages[0] == page && |pages| <= budget
    ensures Listing(get, k, page, budget) == Success(Results(get, k, pages))
    decreases budget
  {
    var p := get(k, page).value;
    match NextPage(p) {
      case None =>
        pages := [page];
        OnePage(get, k, pages);
      case Some(next) =>
        var rest := ListedChain(get, k + 1, next, budget - 1);
        pages := [page] + rest;
        ChainLonger(get, k, page, rest);
    }
  }

  // ---- Exact lookup ---------------------------------------------------------------------

  /** The positions of the items with the wanted name. */
  ghost predicate Hit<T>(all: seq<T>, name: T -> string, wanted: string, i: nat) {
    i < |all| && name(all[i]) == wanted
  }

  /** The items with the wanted name, found one after the other. */
  method Filter<T>(all: seq<T>, name: T -> string, wanted: string) returns (found: seq<T>, ghost at: seq<nat>)
    ensures |at| == |found|
    ensures forall k :: 0 <= k < |at| ==> Hit(all, name, wanted, at[k]) && found[k] == all[at[k]]
    ensures forall k, l :: 0 <= k < l < |at| ==> at[k] < at[l]
    ensures forall i: nat :: Hit(all, name, wanted, i) ==> i in at
  {
    found, at := [], [];
    for i := 0 to |all|
      invariant |at| == |found|
      invariant forall k :: 0 <= k < |at| ==> Hit(all, name, wanted, at[k]) && at[k] < i && found[k] == all[at[k]]
      invariant forall k, l :: 0 <= k < l < |at| ==> at[k] < at[l]
      invariant forall j :: 0 <= j < i && Hit(all, name, wanted, j) ==> j in at
    {
      if name(all[i]) == wanted {
        found := found + [all[i]];
        at := at + [i];
      }
    }
  }

  /**
   Lookup by exact name: absent means that no page of the whole chain has such an item, an item
   means it is the only one, and several raise a conflict. A page that fails, or a chain that is too
   long, is that error, so no answer ever rests on a truncated listing: what was searched is the
   complete chain `pages`.
   */
  method FindExact<T>(get: Source<T>, name: T -> string, wanted: string, first: int)
    returns (r: Outcome<Option<T>>, ghost pages: seq<int>)
    ensures match Listing(get, 0, first, MAX_PAGES)
      case Failure(e) => r == Failure(e)
      case Success(all) =>
        match r
        case Success(None) => forall i: nat :: !Hit(all, name, wanted, i)
        case Success(Some(x)) => exists i: nat :: Only(all, name, wanted, i) && all[i] == x
        case Failure(e) =>
          && e == Conflict
          && exists i: nat, j: nat :: i < j && Hit(all, name, wanted, i) && Hit(all, name, wanted, j)
    ensures var listing := Listing(get, 0, first, MAX_PAGES);
      listing.Success? ==>
        && Chain(get, 0, pages) && pages[0] == first && |pages| <= 1000
        && listing.value == Results(get, 0, pages)
  {
    pages := [];
    var listing, _ := GetPaginated(get, first);
    if listing.Failure? {
      return Failure(listing.error), pages;
    }
    pages := ListedChain(get, 0, first, MAX_PAGES);
    var all := listing.value;
    ghost var at;
    var found;
    found, at := Filter(all, name, wanted);
    if |found| > 1 {
      assert at[0] < at[1] && Hit(all, name, wanted, at[0]) && Hit(all, name, wanted, at[1]);
      return Failure(Conflict), pages;
    }
    if |found| == 1 {
      assert Only(all, name, wanted, at[0]);
      return Success(Some(found[0])), pages;
    }
    return Success(None), pages;
  }

  ghost predicate Only<T>(all: seq<T>, name: T -> string, wanted: string, i: nat) {
    Hit(all, name, wanted, i) && forall j: nat :: Hit(all, name, wanted, j) ==> j == i
  }
}
