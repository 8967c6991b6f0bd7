/**
 Two walks over page chains of untrusted providers: log entries by opaque page tokens, and deployments by
 decreasing cursors. A provider is a function of the token asked for, since no token is asked for twice.
 */
module Paginations {
  import opened Results
  import opened Wrappers
  import opened Sequences

  // ---- log entries ------------------------------------------------------------------------------------

  /** An element of a batch; a dictionary either carries the request id or does not. */
  datatype Entry = NotADict | Log(matches: bool, data: int)

  /** The field naming the next page: nothing or an empty value, a token, or something that is no string. */
  datatype NextPage = LastPage | Token(token: string) | BadToken

  /** `entries` is None when the field is no list. */
  datatype Response = Failed(category: string) | Page(entries: Option<seq<Entry>>, next: NextPage)

  type Provider = Option<string> -> Response

  datatype SearchError = PageLimit | PaginationCycle | EntryLimit | InvalidResponse | ProviderFailure(category: string)

  datatype Search = Search(entries: seq<Entry>, pages: nat, complete: bool, truncated: bool, error: Option<SearchError>)

  /** The matching entries of a batch, in order. */
  function Matching(batch: seq<Entry>): seq<Entry> {
    if batch == [] then []
    else
      var e := batch[|batch| - 1];
      Matching(batch[..|batch| - 1]) + if e.Log? && e.matches then [e] else []
  }

  /** The page of the k-th request, if the chain gets that far with well-formed pages. */
  function TokenAt(p: Provider, k: nat): Option<Option<string>> {
    if k == 0 then Some(None)
    else match TokenAt(p, k - 1)
      case None => None
      case Some(t) =>
        if p(t).Page? && p(t).entries.Some? && p(t).next.Token? && p(t).next.token != "" then Some(Some(p(t).next.token))
        else None
  }

  function BatchAt(p: Provider, k: nat): seq<Entry> {
    match TokenAt(p, k)
    case None => []
    case Some(t) => if p(t).Page? && p(t).entries.Some? then p(t).entries.value else []
  }

  /** The k-th page is well formed and names no next one. */
  predicate EndsAt(p: Provider, k: nat) {
    match TokenAt(p, k)
    case None => false
    case Some(t) => p(t).Page? && p(t).entries.Some? && (p(t).next.LastPage? || p(t).next == Token(""))
  }

  /** The matching entries of the first n pages, in order. */
  function AllMatching(p: Provider, n: nat): seq<Entry> {
    if n == 0 then [] else AllMatching(p, n - 1) + Matching(BatchAt(p, n - 1))
  }

  /** Some dictionary of the batch arrives when `have` entries and those before it already fill the limit. */
  predicate Overflows(batch: seq<Entry>, have: nat, limit: nat) {
    exists i :: 0 <= i < |batch| && batch[i].Log? && have + |Matching(batch[..i])| >= limit
  }

  predicate FitsWithin(p: Provider, n: nat, limit: nat) {
    forall k :: 0 <= k < n ==> !Overflows(BatchAt(p, k), |AllMatching(p, k)|, limit)
  }

  /** The chain ends within the page limit and its entries fit. */
  predicate CompleteIn(p: Provider, n: nat, maxEntries: nat, maxPages: nat) {
    0 < n <= maxPages && EndsAt(p, n - 1) && FitsWithin(p, n, maxEntries)
  }

  ghost predicate Completes(p: Provider, maxEntries: nat, maxPages: nat) {
    exists n: nat :: CompleteIn(p, n, maxEntries, maxPages)
  }

  lemma {:induction false} LaterTokens(p: Provider, k: nat, n: nat)
    requires k <= n && TokenAt(p, n).Some?
    ensures TokenAt(p, k).Some?
    decreases n
  {
    if k < n {
      LaterTokens(p, k, n - 1);
    }
  }

  lemma {:induction false} SameTokenSameFuture(p: Provider, i: nat, j: nat, m: nat)
    requires TokenAt(p, i) == TokenAt(p, j)
    ensures TokenAt(p, i + m) == TokenAt(p, j + m)
  {
    if m > 0 {
      SameTokenSameFuture(p, i, j, m - 1);
      assert i + m - 1 == i + (m - 1) && j + m - 1 == j + (m - 1);
    }
  }

  /** A chain that ends never comes back to a token. */
  lemma EndingChainsAreDistinct(p: Provider, n: nat, i: nat, j: nat)
    requires n > 0 && EndsAt(p, n - 1) && i < j < n
    ensures TokenAt(p, i) != TokenAt(p, j)
  {
    if TokenAt(p, i) == TokenAt(p, j) {
      var m := n - 1 - j;
      SameTokenSameFuture(p, i, j, m);
      LaterTokens(p, i + m + 1, n - 1);
    }
  }

  /** A chain has one end. */
  lemma OneEnd(p: Provider, n: nat, k: nat)
    requires n > 0 && EndsAt(p, n - 1) && TokenAt(p, k).Some?
    ensures k < n
  {
  }

  /** What the answer to the k-th request says about the chain. */
  lemma PageRead(p: Provider, k: nat, t: Option<string>, limit: nat)
    requires TokenAt(p, k) == Some(t)
    ensures EndsAt(p, k) <==> p(t).Page? && p(t).entries.Some? && (p(t).next.LastPage? || p(t).next == Token(""))
    ensures TokenAt(p, k + 1) ==
      if p(t).Page? && p(t).entries.Some? && p(t).next.Token? && p(t).next.token != "" then Some(Some(p(t).next.token)) else None
    ensures BatchAt(p, k) == if p(t).Page? && p(t).entries.Some? then p(t).entries.value else []
    ensures Matching([]) == []
    ensures AllMatching(p, k + 1) == AllMatching(p, k) + Matching(BatchAt(p, k))
    ensures FitsWithin(p, k, limit) && !Overflows(BatchAt(p, k), |AllMatching(p, k)|, limit) ==>
      FitsWithin(p, k + 1, limit)
  {
    hide Overflows;
  }

  /** A complete walk passes every page the chain reaches: it neither stops, overflows nor comes back before its end. */
  lemma PassesThrough(p: Provider, n: nat, k: nat, maxEntries: nat, maxPages: nat)
    requires CompleteIn(p, n, maxEntries, maxPages) && TokenAt(p, k).Some?
    ensures k < n <= maxPages && !Overflows(BatchAt(p, k), |AllMatching(p, k)|, maxEntries)
    ensures EndsAt(p, k) || TokenAt(p, k + 1).Some?
    ensures forall i :: 0 <= i < k ==> TokenAt(p, i) != TokenAt(p, k)
  {
    hide Overflows, TokenAt, BatchAt, AllMatching, Matching;
    OneEnd(p, n, k);
    if k < n - 1 {
      LaterTokens(p, k + 1, n - 1);
    }
    forall i | 0 <= i < k ensures TokenAt(p, i) != TokenAt(p, k) {
      EndingChainsAreDistinct(p, n, i, k);
    }
  }

  lemma EndsHere(p: Provider, n: nat, maxEntries: nat, maxPages: nat)
    requires 0 < n <= maxPages && EndsAt(p, n - 1) && FitsWithin(p, n, maxEntries)
    ensures CompleteIn(p, n, maxEntries, maxPages) && Completes(p, maxEntries, maxPages)
  {
    hide EndsAt, FitsWithin;
  }

  /**
   At the k-th request the limit is reached or the chain is back at a token; or its page overflows or leads nowhere.
   */
  ghost predicate Blocked(p: Provider, k: nat, maxEntries: nat, maxPages: nat) {
    || maxPages <= k
    || (exists i :: 0 <= i < k && TokenAt(p, i) == TokenAt(p, k))
    || Overflows(BatchAt(p, k), |AllMatching(p, k)|, maxEntries)
    || !(EndsAt(p, k) || TokenAt(p, k + 1).Some?)
  }

  /** Each way of stopping short shows that no complete walk exists. */
  lemma StopsShort(p: Provider, k: nat, maxEntries: nat, maxPages: nat)
    requires TokenAt(p, k).Some?
    requires Blocked(p, k, maxEntries, maxPages)
    ensures !Completes(p, maxEntries, maxPages)
  {
    hide Overflows, EndsAt, TokenAt, BatchAt, AllMatching, FitsWithin, CompleteIn;
    if Completes(p, maxEntries, maxPages) {
      var n: nat :| CompleteIn(p, n, maxEntries, maxPages);
      PassesThrough(p, n, k, maxEntries, maxPages);
      assert false;
    }
  }

  /** The requests made are the first ones of the chain. */
  ghost predicate Follows(p: Provider, asked: seq<Option<string>>) {
    forall k :: 0 <= k < |asked| ==> TokenAt(p, k) == Some(asked[k])
  }

  /** The tokens seen once t is asked for. */
  ghost function Noted(seen: set<string>, t: Option<string>): set<string> {
    if t.Some? then seen + {t.value} else seen
  }

  /** After the first request, which carries no token, exactly the tokens seen were asked for, each once. */
  ghost predicate Tracks(asked: seq<Option<string>>, seen: set<string>) {
    && Distinct(asked) && (|asked| > 0 ==> asked[0].None?)
    && (forall k :: 1 <= k < |asked| ==> asked[k].Some? && asked[k].value in seen)
    && forall t :: t in seen ==> Some(t) in asked
  }

  lemma AskedBefore(p: Provider, asked: seq<Option<string>>, seen: set<string>, t: Option<string>)
    requires Follows(p, asked) && Tracks(asked, seen) && t.Some? && t.value in seen
    ensures exists i :: 0 <= i < |asked| && TokenAt(p, i) == Some(t)
  {
    var k :| 0 <= k < |asked| && asked[k] == t;
    assert TokenAt(p, k) == Some(t);
  }

  lemma AsksAnew(p: Provider, asked: seq<Option<string>>, seen: set<string>, t: Option<string>)
    requires Follows(p, asked) && Tracks(asked, seen) && TokenAt(p, |asked|) == Some(t)
    requires if t.Some? then t.value !in seen && |asked| > 0 else |asked| == 0
    ensures Distinct(asked) && Distinct(asked + [t]) && Follows(p, asked + [t])
    ensures Tracks(asked + [t], Noted(seen, t))
  {
  }

  lemma MatchingSnoc(batch: seq<Entry>, i: nat)
    requires i <= |batch|
    ensures Matching(batch[..0]) == []
    ensures i < |batch| ==>
      Matching(batch[..i + 1]) == Matching(batch[..i]) + if batch[i].Log? && batch[i].matches then [batch[i]] else []
  {
    if i < |batch| {
      assert batch[..i + 1][..i] == batch[..i];
    }
  }

  lemma {:induction false} MatchingGrows(batch: seq<Entry>, i: nat)
    requires i <= |batch|
    ensures Matching(batch[..i]) <= Matching(batch)
  {
    if i < |batch| {
      var n := |batch| - 1;
      assert batch[..n][..i] == batch[..i];
      MatchingGrows(batch[..n], i);
    } else {
      assert batch[..i] == batch;
    }
  }

  ghost predicate BatchTaken(batch: seq<Entry>, have: seq<Entry>, maxEntries: nat, entries: seq<Entry>,
                             overflow: bool) {
    && (overflow <==> Overflows(batch, |have|, maxEntries))
    && |entries| <= maxEntries
    && if overflow then |entries| == maxEntries && entries <= have + Matching(batch) else entries == have + Matching(batch)
  }

  /** One batch: append the matching entries until the limit is met. */
  method TakeBatch(batch: seq<Entry>, have: seq<Entry>, maxEntries: nat) returns (entries: seq<Entry>, overflow: bool)
    requires |have| <= maxEntries
    ensures BatchTaken(batch, have, maxEntries, entries, overflow)
  {
    hide Matching;
    entries := have;
    assert Matching(batch[..0]) == [] by { MatchingSnoc(batch, 0); }
    for i := 0 to |batch|
      invariant entries == have + Matching(batch[..i]) && |entries| <= maxEntries
      invariant forall k :: 0 <= k < i && batch[k].Log? ==> |have| + |Matching(batch[..k])| < maxEntries
    {
      MatchingSnoc(batch, i);
      var entry := batch[i];
      if entry.Log? {
        if |entries| >= maxEntries {
          MatchingGrows(batch, i);
          return entries, true;
        }
        if entry.matches {
          entries := entries + [entry];
        }
      }
    }
    assert batch[..|batch|] == batch;
    overflow := false;
  }

  /**
   What the reported state says: it is complete exactly if the chain has a complete walk, the entries are the matching
   ones of the pages read, cut off only by the entry limit, and the ways of stopping early are told apart.
   */
  ghost predicate Explained(p: Provider, r: Search, maxEntries: nat, maxPages: nat) {
    && r.pages <= maxPages && |r.entries| <= maxEntries
    && (r.complete <==> Completes(p, maxEntries, maxPages))
    && (r.complete ==> CompleteIn(p, r.pages, maxEntries, maxPages))
    && (r.error != Some(EntryLimit) ==> r.entries == AllMatching(p, r.pages))
    && match r.error
       case None => r.complete && !r.truncated
       case Some(PageLimit) => !r.complete && r.truncated && r.pages == maxPages && TokenAt(p, maxPages).Some?
       case Some(PaginationCycle) =>
         !r.complete && r.truncated && exists i :: 0 <= i < r.pages && TokenAt(p, i) == TokenAt(p, r.pages)
       case Some(EntryLimit) =>
         && !r.complete && r.truncated && |r.entries| == maxEntries && r.entries <= AllMatching(p, r.pages)
         && r.pages > 0 && Overflows(BatchAt(p, r.pages - 1), |AllMatching(p, r.pages - 1)|, maxEntries)
       case Some(InvalidResponse) =>
         !r.complete && !r.truncated && r.pages > 0 && !EndsAt(p, r.pages - 1) && TokenAt(p, r.pages).None?
       case Some(ProviderFailure(category)) =>
         && !r.complete && !r.truncated
         && TokenAt(p, r.pages).Some? && p(TokenAt(p, r.pages).value) == Failed(category)
  }

  /** The state in which the next request, with token t, is due. */
  ghost predicate Walking(p: Provider, asked: seq<Option<string>>, seen: set<string>, t: Option<string>,
                          entries: seq<Entry>, maxEntries: nat) {
    && Follows(p, asked) && Tracks(asked, seen) && TokenAt(p, |asked|) == Some(t) && (|asked| > 0 ==> t.Some?)
    && entries == AllMatching(p, |asked|) && |entries| <= maxEntries && FitsWithin(p, |asked|, maxEntries)
  }

  lemma StopsBefore(p: Provider, asked: seq<Option<string>>, seen: set<string>, t: Option<string>,
                    entries: seq<Entry>, maxEntries: nat, maxPages: nat, r: Search)
    requires Walking(p, asked, seen, t, entries, maxEntries) && |asked| <= maxPages
    requires
      || (r == Search(entries, |asked|, false, true, Some(PageLimit)) && |asked| == maxPages)
      || (r == Search(entries, |asked|, false, true, Some(PaginationCycle)) && t.Some? && t.value in seen)
    ensures Explained(p, r, maxEntries, maxPages)
  {
    hide Overflows, TokenAt, BatchAt, EndsAt, AllMatching, Matching, FitsWithin, CompleteIn, Completes;
    if r.error == Some(PaginationCycle) {
      AskedBefore(p, asked, seen, t);
    }
    StopsShort(p, |asked|, maxEntries, maxPages);
  }

  lemma StopsUnread(p: Provider, asked: seq<Option<string>>, seen: set<string>, t: Option<string>,
                    entries: seq<Entry>, maxEntries: nat, maxPages: nat, r: Search)
    requires Walking(p, asked, seen, t, entries, maxEntries) && |asked| < maxPages
    requires
      || (p(t).Failed? && r == Search(entries, |asked|, false, false, Some(ProviderFailure(p(t).category))))
      || (p(t).Page? && p(t).entries.None? && r == Search(entries, |asked| + 1, false, false, Some(InvalidResponse)))
    ensures Explained(p, r, maxEntries, maxPages)
  {
    hide Overflows, TokenAt, BatchAt, EndsAt, AllMatching, Matching, FitsWithin, CompleteIn, Completes;
    PageRead(p, |asked|, t, maxEntries);
    StopsShort(p, |asked|, maxEntries, maxPages);
  }

  lemma StopsAfterBatch(p: Provider, asked: seq<Option<string>>, seen: set<string>, t: Option<string>,
                        entries: seq<Entry>, more: seq<Entry>, overflow: bool, maxEntries: nat, maxPages: nat, r: Search)
    requires Walking(p, asked, seen, t, entries, maxEntries) && |asked| < maxPages && p(t).Page? && p(t).entries.Some?
    requires BatchTaken(p(t).entries.value, entries, maxEntries, more, overflow)
    requires
      || (overflow && r == Search(more, |asked| + 1, false, true, Some(EntryLimit)))
      || (!overflow && p(t).next.BadToken? && r == Search(more, |asked| + 1, false, false, Some(InvalidResponse)))
      || (!overflow && (p(t).next.LastPage? || p(t).next == Token(""))
          && r == Search(more, |asked| + 1, true, false, None))
    ensures Explained(p, r, maxEntries, maxPages)
  {
    hide Overflows, TokenAt, BatchAt, EndsAt, AllMatching, Matching, FitsWithin, CompleteIn, Completes;
    PageRead(p, |asked|, t, maxEntries);
    if r.complete {
      EndsHere(p, |asked| + 1, maxEntries, maxPages);
    } else {
      StopsShort(p, |asked|, maxEntries, maxPages);
    }
  }

  lemma Asks(p: Provider, asked: seq<Option<string>>, seen: set<string>, t: Option<string>, entries: seq<Entry>,
             maxEntries: nat)
    requires Walking(p, asked, seen, t, entries, maxEntries) && (t.Some? ==> t.value !in seen)
    ensures Distinct(asked + [t]) && Follows(p, asked + [t]) && Tracks(asked + [t], Noted(seen, t))
  {
    assert TokenAt(p, 0) == Some(None);
    hide TokenAt, AllMatching, FitsWithin, Follows, Tracks, Distinct, Noted;
    AsksAnew(p, asked, seen, t);
  }

  lemma BatchWalks(p: Provider, n: nat, t: Option<string>, entries: seq<Entry>, more: seq<Entry>, maxEntries: nat)
    requires TokenAt(p, n) == Some(t) && entries == AllMatching(p, n) && FitsWithin(p, n, maxEntries)
    requires p(t).Page? && p(t).entries.Some? && p(t).next.Token? && p(t).next.token != ""
    requires BatchTaken(p(t).entries.value, entries, maxEntries, more, false)
    ensures TokenAt(p, n + 1) == Some(Some(p(t).next.token)) && more == AllMatching(p, n + 1)
    ensures FitsWithin(p, n + 1, maxEntries) && |more| <= maxEntries
  {
    hide Overflows, TokenAt, BatchAt, EndsAt, AllMatching, Matching, FitsWithin;
    PageRead(p, n, t, maxEntries);
  }

  lemma WalksOn(p: Provider, asked: seq<Option<string>>, seen: set<string>, t: Option<string>,
                entries: seq<Entry>, more: seq<Entry>, maxEntries: nat)
    requires Walking(p, asked, seen, t, entries, maxEntries) && (t.Some? ==> t.value !in seen)
    requires p(t).Page? && p(t).entries.Some? && p(t).next.Token? && p(t).next.token != ""
    requires BatchTaken(p(t).entries.value, entries, maxEntries, more, false)
    ensures Walking(p, asked + [t], Noted(seen, t), Some(p(t).next.token), more, maxEntries)
  {
    hide BatchTaken, TokenAt, AllMatching, FitsWithin, Distinct, Tracks, Follows, Noted;
    Asks(p, asked, seen, t, entries, maxEntries);
    BatchWalks(p, |asked|, t, entries, more, maxEntries);
    assert |asked + [t]| == |asked| + 1;
  }

  /** `_entry_search`. `asked` records the tokens in the order of the requests. */
  method EntrySearch(p: Provider, maxEntries: nat, maxPages: nat) returns (r: Search, ghost asked: seq<Option<string>>)
    ensures |asked| <= maxPages && Distinct(asked) && Follows(p, asked)
    ensures r.complete ==> |asked| == r.pages
    ensures Explained(p, r, maxEntries, maxPages)
  {
    var entries: seq<Entry> := [];
    var pageToken: Option<string> := None;
    var seenTokens: set<string> := {};
    var pages := 0;
    asked := [];
    assert Walking(p, asked, seenTokens, pageToken, entries, maxEntries);
    hide Walking, Explained, Overflows, TokenAt, Matching, BatchTaken, Follows, Distinct;
    while true
      invariant pages == |asked| <= maxPages && Distinct(asked) && Follows(p, asked)
      invariant Walking(p, asked, seenTokens, pageToken, entries, maxEntries)
      decreases maxPages - pages
    {
      if pages >= maxPages {
        r := Search(entries, pages, false, true, Some(PageLimit));
        StopsBefore(p, asked, seenTokens, pageToken, entries, maxEntries, maxPages, r);
        return;
      }
      if pageToken.Some? && pageToken.value in seenTokens {
        r := Search(entries, pages, false, true, Some(PaginationCycle));
        StopsBefore(p, asked, seenTokens, pageToken, entries, maxEntries, maxPages, r);
        return;
      }
      ghost var earlier, seenBefore, read := asked, seenTokens, entries;
      if pageToken.Some? {
        seenTokens := seenTokens + {pageToken.value};
      }
      asked := asked + [pageToken];
      Asks(p, earlier, seenBefore, pageToken, read, maxEntries);
      var response := p(pageToken);
      if response.Failed? {
        r := Search(entries, pages, false, false, Some(ProviderFailure(response.category)));
        StopsUnread(p, earlier, seenBefore, pageToken, read, maxEntries, maxPages, r);
        return;
      }
      pages := pages + 1;
      if response.entries.None? {
        r := Search(entries, pages, false, false, Some(InvalidResponse));
        StopsUnread(p, earlier, seenBefore, pageToken, read, maxEntries, maxPages, r);
        return;
      }
      var overflow;
      entries, overflow := TakeBatch(response.entries.value, entries, maxEntries);
      if overflow {
        r := Search(entries, pages, false, true, Some(EntryLimit));
        StopsAfterBatch(p, earlier, seenBefore, pageToken, read, entries, overflow, maxEntries, maxPages, r);
        return;
      }
      if response.next.LastPage? || response.next == Token("") {
        r := Search(entries, pages, true, false, None);
        StopsAfterBatch(p, earlier, seenBefore, pageToken, read, entries, overflow, maxEntries, maxPages, r);
        return;
      }
      if response.next.BadToken? {
        r := Search(entries, pages, false, false, Some(InvalidResponse));
        StopsAfterBatch(p, earlier, seenBefore, pageToken, read, entries, overflow, maxEntries, maxPages, r);
        return;
      }
      WalksOn(p, earlier, seenBefore, pageToken, read, entries, maxEntries);
      pageToken := Some(response.next.token);
    }
  }

  // ---- deployments --------------------------------------------------------------------------------------

  /** `wanted`: the metadata names this attempt and archive; `ours`: the project is the configured one. */
  datatype Deployment = NotADeployment | Deployment(identity: Option<string>, wanted: bool, ours: bool)

  datatype Cursor = NoCursorField | NullCursor | Until(cursor: int) | BadCursor

  /** `count` is None when it is missing or no number. */
  datatype Listing = Unreadable | BadListing | Listed(deployments: seq<Deployment>, count: Option<int>, next: Cursor)

  type Api = Option<int> -> Listing

  datatype ListError =
    | CallFailed | ListInvalid | PageIncomplete | ListAmbiguous | ProjectMismatch | PaginationInvalid
    | PaginationIncomplete

  const PAGE_SIZE := 100

  const MAX_PAGES := 1000

  predicate WholePage(l: Listing) {
    l.Listed? && l.count.Some? && 0 <= l.count.value <= 100 && |l.deployments| == l.count.value
      && !l.next.NoCursorField?
  }

  function Wanted(s: seq<Deployment>): seq<Deployment> {
    if s == [] then []
    else
      var d := s[|s| - 1];
      Wanted(s[..|s| - 1]) + if d.Deployment? && d.wanted then [d] else []
  }

  /** The wanted deployments are those of the list that name the attempt and its archive. */
  lemma {:induction false} WantedMembers(s: seq<Deployment>, d: Deployment)
    ensures d in Wanted(s) <==> d in s && d.Deployment? && d.wanted
  {
    if s != [] {
      var n := |s| - 1;
      assert s == s[..n] + [s[n]];
      WantedMembers(s[..n], d);
    }
  }

  /** Nothing in the list names the attempt and its archive. */
  predicate NoneWanted(s: seq<Deployment>) { forall d :: d in s && d.Deployment? ==> !d.wanted }

  function Identities(s: seq<Deployment>): (r: seq<string>)
    ensures |r| == |s|
    ensures forall i :: 0 <= i < |r| && s[i].Deployment? && s[i].identity.Some? ==> r[i] == s[i].identity.value
  {
    seq(|s|, i requires 0 <= i < |s| => if s[i].Deployment? then s[i].identity.UnwrapOr("") else "")
  }

  /** What the number of matches says about everything listed. */
  lemma MatchesAreWanted(s: seq<Deployment>)
    requires Identified(s)
    ensures |Wanted(s)| == 0 <==> NoneWanted(s)
  {
    forall d ensures d in Wanted(s) <==> d in s && d.Deployment? && d.wanted {
      WantedMembers(s, d);
    }
    if |Wanted(s)| > 0 {
      assert Wanted(s)[0] in Wanted(s);
    }
  }

  /** Identities in order of a list whose elements all have one. */
  predicate Identified(s: seq<Deployment>) {
    forall d :: d in s ==> d.Deployment? && d.identity.Some? && d.identity.value != "" && (d.wanted ==> d.ours)
  }

  ghost predicate Seen(s: seq<Deployment>, x: string) {
    exists d :: d in s && d.Deployment? && d.identity == Some(x)
  }

  predicate DistinctIdentities(s: seq<Deployment>) {
    forall i, j :: 0 <= i < j < |s| && s[i].Deployment? && s[j].Deployment? ==> s[i].identity != s[j].identity
  }

  /** The cursor of the k-th request, if every page before it was whole and led strictly downwards. */
  function CursorAt(api: Api, k: nat): Option<Option<int>> {
    if k == 0 then Some(None)
    else match CursorAt(api, k - 1)
      case None => None
      case Some(c) =>
        var l := api(c);
        if WholePage(l) && l.next.Until? && |l.deployments| > 0 && (c.Some? ==> l.next.cursor < c.value)
        then Some(Some(l.next.cursor)) else None
  }

  /** The deployments of the first n pages. */
  function Walked(api: Api, n: nat): seq<Deployment> {
    if n == 0 then []
    else Walked(api, n - 1) + match CursorAt(api, n - 1)
      case None => []
      case Some(c) => if api(c).Listed? then api(c).deployments else []
  }

  /** The n pages are whole, the last one says so, and everything listed is identified and distinct. */
  predicate CompleteListing(api: Api, n: nat) {
    && 0 < n <= 1000 && CursorAt(api, n - 1).Some?
    && var l := api(CursorAt(api, n - 1).value);
    && WholePage(l) && l.next.NullCursor?
    && Identified(Walked(api, n)) && DistinctIdentities(Walked(api, n))
  }

  lemma {:induction false} LaterCursors(api: Api, k: nat, n: nat)
    requires k <= n && CursorAt(api, n).Some?
    ensures CursorAt(api, k).Some?
    decreases n
  {
    if k < n {
      LaterCursors(api, k, n - 1);
    }
  }

  lemma {:induction false} WalkedGrows(api: Api, k: nat, n: nat)
    requires k <= n
    ensures Walked(api, k) <= Walked(api, n)
  {
    if k < n {
      WalkedGrows(api, k, n - 1);
    }
  }

  lemma NoOtherEnd(api: Api, n: nat, k: nat)
    requires CompleteListing(api, n) && CursorAt(api, k).Some?
    ensures k < n
  {
  }

  lemma WantedSnoc(page: seq<Deployment>, i: nat)
    requires i <= |page|
    ensures Wanted(page[..0]) == []
    ensures i < |page| ==>
      Wanted(page[..i + 1]) == Wanted(page[..i]) + if page[i].Deployment? && page[i].wanted then [page[i]] else []
  {
    if i < |page| {
      assert page[..i + 1][..i] == page[..i];
    }
  }

  /** One page: every element identified and new, every wanted one in the right project. */
  method TakePage(page: seq<Deployment>, ghost before: seq<Deployment>, seenIds: set<string>, matches: seq<Deployment>)
    returns (seen: set<string>, found: seq<Deployment>, error: Option<ListError>)
    requires Identified(before) && DistinctIdentities(before)
    requires forall x :: x in seenIds <==> Seen(before, x)
    ensures error.None? <==> Identified(before + page) && DistinctIdentities(before + page)
    ensures error.None? ==> forall x :: x in seen <==> Seen(before + page, x)
    ensures error.None? ==> found == matches + Wanted(page)
  {
    hide Wanted;
    seen, found, error := seenIds, matches, None;
    assert before + page[..0] == before;
    WantedSnoc(page, 0);
    for i := 0 to |page|
      invariant Identified(before + page[..i]) && DistinctIdentities(before + page[..i])
      invariant forall x :: x in seen <==> Seen(before + page[..i], x)
      invariant found == matches + Wanted(page[..i])
    {
      WantedSnoc(page, i);
      var d := page[i];
      var all, sofar := before + page, before + page[..i];
      assert before + page[..i + 1] == sofar + [d];
      assert all[|before| + i] == d && d in all;
      if d.NotADeployment? {
        return seen, found, Some(ListInvalid);
      }
      if d.identity.None? || d.identity.value == "" {
        return seen, found, Some(ListAmbiguous);
      }
      if d.identity.value in seen {
        ghost var e :| e in sofar && e.identity == Some(d.identity.value);
        ghost var k :| 0 <= k < |sofar| && sofar[k] == e;
        assert all[k] == e;
        return seen, found, Some(ListAmbiguous);
      }
      forall k | 0 <= k < |sofar| ensures sofar[k].identity != d.identity {
        assert sofar[k] in sofar;
      }
      seen := seen + {d.identity.value};
      assert d in before + page[..i + 1];
      forall x ensures x in seen <==> Seen(before + page[..i + 1], x) {
        if x in seen && x != d.identity.value {
          var e :| e in sofar && e.identity == Some(x);
          assert e in before + page[..i + 1];
        }
      }
      if d.wanted {
        if !d.ours {
          return seen, found, Some(ProjectMismatch);
        }
        found := found + [d];
      }
    }
    assert page[..|page|] == page;
  }

  /** What the answer to the k-th request says about the listing. */
  lemma PageListed(api: Api, k: nat, cursor: Option<int>)
    requires CursorAt(api, k) == Some(cursor) && WholePage(api(cursor))
    ensures Walked(api, k + 1) == Walked(api, k) + api(cursor).deployments
    ensures Wanted(Walked(api, k + 1)) == Wanted(Walked(api, k)) + Wanted(api(cursor).deployments)
    ensures CursorAt(api, k + 1) ==
      if LeadsDown(api(cursor), cursor) then Some(Some(api(cursor).next.cursor)) else None
  {
    WantedConcat(Walked(api, k), api(cursor).deployments);
  }

  /** The page is not the last one, not empty, and names a smaller cursor. */
  predicate LeadsDown(l: Listing, cursor: Option<int>)
    requires WholePage(l)
  {
    l.next.Until? && |l.deployments| > 0 && (cursor.Some? ==> l.next.cursor < cursor.value)
  }

  /** The listing is complete within the limits. */
  ghost predicate Enumerable(api: Api) { exists n: nat :: CompleteListing(api, n) }

  lemma ListingEnds(api: Api, k: nat, cursor: Option<int>)
    requires CursorAt(api, k) == Some(cursor) && k < MAX_PAGES && WholePage(api(cursor)) && api(cursor).next.NullCursor?
    requires Identified(Walked(api, k + 1)) && DistinctIdentities(Walked(api, k + 1))
    ensures CompleteListing(api, k + 1) && Enumerable(api)
  {
    assert CompleteListing(api, k + 1);
  }

  lemma ListingTooLong(api: Api)
    requires CursorAt(api, MAX_PAGES).Some?
    ensures !Enumerable(api)
  {
    hide CompleteListing, CursorAt;
    if Enumerable(api) {
      var n: nat :| CompleteListing(api, n);
      AtMostMaxPages(api, n);
      NoOtherEnd(api, n, MAX_PAGES);
      assert false;
    }
  }

  lemma AtMostMaxPages(api: Api, n: nat)
    requires CompleteListing(api, n)
    ensures n <= MAX_PAGES
  {
  }

  /** `_frontend_deployment_matches`: the wanted deployments of the whole listing, and the pages read. */
  method DeploymentMatches(api: Api) returns (r: Result<(seq<Deployment>, nat), ListError>)
    ensures r.Success? <==> Enumerable(api)
    ensures r.Success? ==> CompleteListing(api, r.value.1) && r.value.0 == Wanted(Walked(api, r.value.1))
  {
    var cursor: Option<int> := None;
    var seenCursors: set<int> := {};
    var seenIds: set<string> := {};
    var matches: seq<Deployment> := [];
    NothingListed(api);
    hide Identified, DistinctIdentities, Walked, Wanted, Seen, CursorAt, CompleteListing, Enumerable;
    for pagesRead := 0 to MAX_PAGES
      invariant CursorAt(api, pagesRead) == Some(cursor)
      invariant Identified(Walked(api, pagesRead)) && DistinctIdentities(Walked(api, pagesRead))
      invariant forall x :: x in seenIds <==> Seen(Walked(api, pagesRead), x)
      invariant matches == Wanted(Walked(api, pagesRead))
      invariant forall c :: c in seenCursors ==> cursor.Some? && cursor.value <= c
    {
      var result := api(cursor);
      if result.Unreadable? {
        NotWhole(api, pagesRead);
        return Failure(CallFailed);
      }
      if result.BadListing? {
        NotWhole(api, pagesRead);
        return Failure(ListInvalid);
      }
      var count := result.count;
      if count.None? || count.value < 0 || count.value > PAGE_SIZE || |result.deployments| != count.value
         || result.next.NoCursorField? {
        NotWhole(api, pagesRead);
        return Failure(PageIncomplete);
      }
      PageListed(api, pagesRead, cursor);
      var error;
      seenIds, matches, error := TakePage(result.deployments, Walked(api, pagesRead), seenIds, matches);
      if error.Some? {
        NotIdentified(api, pagesRead + 1);
        return Failure(error.value);
      }
      if result.next.NullCursor? {
        ListingEnds(api, pagesRead, cursor);
        return Success((matches, pagesRead + 1));
      }
      if !(result.next.Until? && result.next.cursor !in seenCursors && result.count.value > 0) {
        NotListed(api, pagesRead);
        return Failure(PaginationInvalid);
      }
      if cursor.Some? && !(result.next.cursor < cursor.value) {
        NotListed(api, pagesRead);
        return Failure(PaginationInvalid);
      }
      seenCursors := seenCursors + {result.next.cursor};
      cursor := Some(result.next.cursor);
    }
    ListingTooLong(api);
    return Failure(PaginationIncomplete);
  }

  lemma NothingListed(api: Api)
    ensures Identified(Walked(api, 0)) && DistinctIdentities(Walked(api, 0)) && Wanted(Walked(api, 0)) == []
    ensures CursorAt(api, 0) == Some(None) && forall x :: !Seen(Walked(api, 0), x)
  {
    assert Walked(api, 0) == [];
  }

  lemma {:induction false} WantedConcat(a: seq<Deployment>, b: seq<Deployment>)
    ensures Wanted(a + b) == Wanted(a) + Wanted(b)
  {
    if b == [] {
      assert a + b == a;
    } else {
      var n := |b| - 1;
      assert (a + b)[..|a| + n] == a + b[..n];
      WantedConcat(a, b[..n]);
    }
  }

  /** The chain reaches page k, which neither ends the listing nor leads on. */
  lemma NotListed(api: Api, k: nat)
    requires CursorAt(api, k).Some? && CursorAt(api, k + 1).None?
    requires var l := api(CursorAt(api, k).value); !(WholePage(l) && l.next.NullCursor?)
    ensures !Enumerable(api)
  {
    if Enumerable(api) {
      var n: nat :| CompleteListing(api, n);
      NoOtherEnd(api, n, k);
      if k < n - 1 {
        LaterCursors(api, k + 1, n - 1);
      }
      assert false;
    }
  }

  lemma NotWhole(api: Api, k: nat)
    requires CursorAt(api, k).Some? && !WholePage(api(CursorAt(api, k).value))
    ensures !Enumerable(api)
  {
    hide CompleteListing;
    NotListed(api, k);
  }

  lemma NotIdentified(api: Api, k: nat)
    requires k > 0 && CursorAt(api, k - 1).Some?
    requires !(Identified(Walked(api, k)) && DistinctIdentities(Walked(api, k)))
    ensures !Enumerable(api)
  {
    if Enumerable(api) {
      var n: nat :| CompleteListing(api, n);
      NoOtherEnd(api, n, k - 1);
      WalkedGrows(api, k, n);
      PrefixIdentified(Walked(api, k), Walked(api, n));
      assert false;
    }
  }

  lemma PrefixIdentified(a: seq<Deployment>, b: seq<Deployment>)
    requires a <= b && Identified(b) && DistinctIdentities(b)
    ensures Identified(a) && DistinctIdentities(a)
  {
  }

  /** The cursors asked for decrease strictly, so none is asked for twice. */
  lemma {:induction false} CursorsDecrease(api: Api, i: nat, k: nat)
    requires 0 < i < k && CursorAt(api, k).Some?
    ensures CursorAt(api, i).Some? && CursorAt(api, i).value.Some? && CursorAt(api, k).value.Some?
    ensures CursorAt(api, k).value.value < CursorAt(api, i).value.value
    decreases k
  {
    if i + 1 < k {
      CursorsDecrease(api, i, k - 1);
    }
  }
}
