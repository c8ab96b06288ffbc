/** The page collector (`collect_pages`): a cursor-driven pagination loop
    that accumulates the transaction items of successive pages until the page
    budget is used up, a page comes back without items, or a page names no
    next cursor. */
module Collector {
  import opened Json
  import opened Fetch

  /** The keys that may carry the next cursor, in the order they are tried. */
  const CursorKeys: seq<string> := ["cursor", "next", "nextCursor", "next_cursor"]

  // ---------------------------------------------------------------------
  // Reading one response
  // ---------------------------------------------------------------------

  /** Some value of the object is a list. */
  predicate HasList(fields: seq<(string, Json)>) {
    exists i :: 0 <= i < |fields| && fields[i].1.JArr?
  }

  /** The first list among the values of an object, in key order. */
  function FirstList(fields: seq<(string, Json)>): (r: Option<seq<Json>>)
    ensures r.Some? <==> HasList(fields)
    ensures r.Some? ==> exists i :: 0 <= i < |fields| && fields[i].1 == JArr(r.value)
    ensures forall i :: 0 <= i < |fields| && fields[i].1.JArr? && (forall j :: 0 <= j < i ==> !fields[j].1.JArr?)
                    ==> r == Some(fields[i].1.items)
  {
    if fields == [] then None
    else if fields[0].1.JArr? then Some(fields[0].1.items)
    else
      var rest := fields[1..];
      var r := FirstList(rest);
      assert forall i :: 0 <= i < |rest| ==> rest[i] == fields[i + 1];
      r
  }

  /** The item list of a response: the list itself for a list response; for
      an object, "transactions" if it is a list, else "result" if it is a
      list, else the first list-valued entry; nothing for any other body. */
  function ItemList(data: Json): (r: Option<seq<Json>>)
    ensures data.JArr? ==> r == Some(data.items)
    ensures r.None? <==> !data.JArr? && (data.JObj? ==> !HasList(data.fields))
    ensures data.JObj? && r.Some? ==> exists i :: 0 <= i < |data.fields| && data.fields[i].1 == JArr(r.value)
  {
    match data
    case JObj(fields) =>
      var t := Lookup(fields, "transactions");
      LookupFound(fields, "transactions");
      if t.JArr? then Some(t.items)
      else
        var res := Lookup(fields, "result");
        LookupFound(fields, "result");
        if res.JArr? then Some(res.items)
        else
          FirstList(fields)
    case JArr(items) => Some(items)
    case _ => None
  }

  /** The precedence of `ItemList` for an object: a list under
      "transactions", then a list under "result", then the first list-valued
      entry. (Kept out of `ItemList`'s own contract so that the run lemmas,
      which see `ItemList` of every reply, stay cheap.) */
  lemma ItemListOrder(fields: seq<(string, Json)>)
    ensures Lookup(fields, "transactions").JArr?
            ==> ItemList(JObj(fields)) == Some(Lookup(fields, "transactions").items)
    ensures !Lookup(fields, "transactions").JArr? && Lookup(fields, "result").JArr?
            ==> ItemList(JObj(fields)) == Some(Lookup(fields, "result").items)
    ensures !Lookup(fields, "transactions").JArr? && !Lookup(fields, "result").JArr?
            ==> ItemList(JObj(fields)) == FirstList(fields)
  {
  }

  /** The precedence of `ItemList` stated through the entries: the first
      "transactions" entry, when it holds a list, is the item list; the
      first "result" entry, when it holds a list and "transactions" does
      not, is the item list. */
  lemma ItemListEntries(fields: seq<(string, Json)>, i: nat)
    requires i < |fields| && fields[i].1.JArr?
    requires forall j :: 0 <= j < i ==> fields[j].0 != fields[i].0
    ensures fields[i].0 == "transactions" ==> ItemList(JObj(fields)) == Some(fields[i].1.items)
    ensures fields[i].0 == "result" && !Lookup(fields, "transactions").JArr?
            ==> ItemList(JObj(fields)) == Some(fields[i].1.items)
  {
    LookupFirstMatch(fields, fields[i].0, i);
    ItemListOrder(fields);
  }

  /** The value under the first of `keys` that is present with a truthy
      value, or None. */
  function CursorAmong(fields: seq<(string, Json)>, keys: seq<string>): (r: Json)
    ensures r == JNull || Truthy(r)
    ensures forall k :: 0 <= k < |keys| && Truthy(Lookup(fields, keys[k]))
                        && (forall j :: 0 <= j < k ==> !Truthy(Lookup(fields, keys[j])))
                    ==> r == Lookup(fields, keys[k])
    ensures (forall k :: 0 <= k < |keys| ==> !Truthy(Lookup(fields, keys[k]))) ==> r == JNull
  {
    if keys == [] then JNull
    else if HasKey(fields, keys[0]) && Truthy(Lookup(fields, keys[0])) then Lookup(fields, keys[0])
    else
      var r := CursorAmong(fields, keys[1..]);
      assert forall k :: 1 <= k < |keys| ==> keys[k] == keys[1..][k - 1];
      r
  }

  /** The next cursor of a response; a response that is not an object has
      none. */
  function NextCursor(data: Json): (r: Json)
    ensures !data.JObj? ==> r == JNull
    ensures r == JNull || Truthy(r)
  {
    if data.JObj? then CursorAmong(data.fields, CursorKeys) else JNull
  }

  /** The `for v in data.values()` scan. */
  method ScanForList(fields: seq<(string, Json)>) returns (txs: Option<seq<Json>>)
    ensures txs == FirstList(fields)
  {
    txs := None;
    for i := 0 to |fields|
      invariant forall j :: 0 <= j < i ==> !fields[j].1.JArr?
    {
      if fields[i].1.JArr? {
        txs := Some(fields[i].1.items);
        return;
      }
    }
  }

  /** The `for k in ("cursor", "next", "nextCursor", "next_cursor")` scan. */
  method ScanForCursor(fields: seq<(string, Json)>) returns (next: Json)
    ensures next == CursorAmong(fields, CursorKeys)
  {
    next := JNull;
    for i := 0 to |CursorKeys|
      invariant forall j :: 0 <= j < i ==> !Truthy(Lookup(fields, CursorKeys[j]))
    {
      var k := CursorKeys[i];
      if HasKey(fields, k) && Truthy(Lookup(fields, k)) {
        next := Lookup(fields, k);
        return;
      }
    }
  }

  /** The "normalize tx list and next cursor" step of one iteration. */
  method ReadPage(data: Json) returns (txs: Option<seq<Json>>, next: Json)
    ensures txs == ItemList(data)
    ensures next == NextCursor(data)
  {
    txs, next := None, JNull;
    if data.JObj? {
      var fields := data.fields;
      var t := Lookup(fields, "transactions");
      var res := Lookup(fields, "result");
      if t.JArr? {
        txs := Some(t.items);
      } else if res.JArr? {
        txs := Some(res.items);
      } else {
        txs := ScanForList(fields);
      }
      next := ScanForCursor(fields);
    } else if data.JArr? {
      txs := Some(data.items);
    }
  }

  // ---------------------------------------------------------------------
  // The pagination loop
  // ---------------------------------------------------------------------

  /** What one reply tells the loop: the item list and next cursor of a
      fetched page, or the reason the fetch failed. */
  datatype Page = Page(txs: Option<seq<Json>>, next: Json) | Refused(error: FetchError)

  /** How the loop reads a reply (`ReadPage` for a fetched body). */
  function ReadReply(reply: FetchResult): Page {
    match reply
    case Fetched(data) => Page(ItemList(data), NextCursor(data))
    case Failed(e) => Refused(e)
  }

  /** The script as the loop reads it, reply by reply. */
  function Replies(script: seq<FetchResult>): (pages: seq<Page>)
    ensures |pages| == |script|
  {
    if script == [] then [] else [ReadReply(script[0])] + Replies(script[1..])
  }

  /** Reply `i` as the loop reads it. */
  lemma {:induction false} RepliesAt(script: seq<FetchResult>, i: nat)
    requires i < |script|
    ensures Replies(script)[i] == ReadReply(script[i])
  {
    if i > 0 {
      RepliesAt(script[1..], i - 1);
    }
  }

  /** The reply to request number `n`; past the end, no reply. */
  function Answer(pages: seq<Page>, n: nat): Page {
    if n < |pages| then pages[n] else Refused(TransportError)
  }

  /** The items a reply contributes: its item list, or nothing. */
  function ItemsOf(page: Page): seq<Json> {
    if page.Page? && page.txs.Some? then page.txs.value else []
  }

  /** The reply carries a non-empty item list (`not txs` is false). */
  predicate HasItems(page: Page) {
    ItemsOf(page) != []
  }

  /** The next cursor a reply names (None for a failed fetch). */
  function NextOf(page: Page): Json {
    if page.Page? then page.next else JNull
  }

  /** The loop goes on after this reply, budget permitting. */
  predicate Continues(page: Page) {
    HasItems(page) && Truthy(NextOf(page))
  }

  /** What `collect_pages` returns, or the failure it raises. */
  datatype Outcome =
    | Collected(items: seq<Json>, cursor: Json, pages: nat)
    | FetchFailed(error: FetchError)

  /** A whole run: its outcome and the requests it issued, in order. */
  datatype Session = Session(outcome: Outcome, requests: seq<Request>)

  /** Reference semantics of the loop, from the state at the top of an
      iteration: the items collected so far, the current cursor, the pages
      fetched so far and the requests issued so far. */
  function Loop(q: Query, replies: seq<Page>, maxPages: int,
                collected: seq<Json>, cursor: Json, pages: nat, requests: seq<Request>): Session
    decreases |replies| - pages
  {
    if maxPages != 0 && pages >= maxPages then
      Session(Collected(collected, cursor, pages), requests)
    else
      var sent := requests + [PageRequest(q, cursor)];
      var page := Answer(replies, pages);
      if page.Refused? then
        Session(FetchFailed(page.error), sent)
      else if !HasItems(page) then
        Session(Collected(collected, cursor, pages + 1), sent)
      else if !Truthy(NextOf(page)) then
        Session(Collected(collected + ItemsOf(page), JNull, pages + 1), sent)
      else
        Loop(q, replies, maxPages, collected + ItemsOf(page), NextOf(page), pages + 1, sent)
  }

  /** A run from the start: nothing collected, no cursor, no page fetched. */
  function Collect(q: Query, script: seq<FetchResult>, maxPages: int): Session {
    Loop(q, Replies(script), maxPages, [], JNull, 0, [])
  }

  /** `collect_pages(address, api_key, limit, max_pages)` against a server
      that answers request number n with `Respond(script, n)`. Besides the
      outcome it returns the requests it issued. */
  method CollectPages(address: string, apiKey: string, limit: int, maxPages: int, script: seq<FetchResult>)
    returns (outcome: Outcome, requests: seq<Request>)
    ensures Session(outcome, requests) == Collect(Query(address, apiKey, limit), script, maxPages)
  {
    var q := Query(address, apiKey, limit);
    ghost var replies := Replies(script);
    var collected: seq<Json> := [];
    var cursor := JNull;
    var pages: nat := 0;
    requests := [];
    while true
      invariant pages <= |script|
      invariant Loop(q, replies, maxPages, collected, cursor, pages, requests) == Collect(q, script, maxPages)
      decreases |script| - pages
    {
      if maxPages != 0 && pages >= maxPages {
        outcome := Collected(collected, cursor, pages);
        return;
      }
      pages := pages + 1;
      requests := requests + [PageRequest(q, cursor)];
      var reply := Respond(script, pages - 1);
      AnswerReads(script, pages - 1);
      if reply.Failed? {
        outcome := FetchFailed(reply.error);
        return;
      }
      var txs, next := ReadPage(reply.body);
      assert Answer(replies, pages - 1) == Page(txs, next);
      if txs.None? || txs.value == [] {
        outcome := Collected(collected, cursor, pages);
        return;
      }
      collected := collected + txs.value;
      if !Truthy(next) {
        cursor := JNull;
        outcome := Collected(collected, cursor, pages);
        return;
      }
      cursor := next;
    }
  }

  // ---------------------------------------------------------------------
  // What a run does, page by page
  // ---------------------------------------------------------------------

  /** The cursor that request number `n` carries when the run gets that far:
      none for the first, the previous reply's next cursor afterwards. */
  function CursorFor(replies: seq<Page>, n: nat): Json {
    if n == 0 || n > |replies| then JNull else NextOf(replies[n - 1])
  }

  /** The in-order concatenation of the item lists of the first `n` replies. */
  function Gathered(replies: seq<Page>, n: nat): seq<Json>
    requires n <= |replies|
  {
    if n == 0 then [] else Gathered(replies, n - 1) + ItemsOf(replies[n - 1])
  }

  /** A state at the top of the loop that a run from the start reaches: the
      first `pages` replies all had items and a next cursor, and the state
      holds exactly what they put there. */
  ghost predicate Reached(q: Query, replies: seq<Page>, maxPages: int,
                          collected: seq<Json>, cursor: Json, pages: nat, requests: seq<Request>)
  {
    && pages <= |replies|
    && |requests| == pages
    && collected == Gathered(replies, pages)
    && cursor == CursorFor(replies, pages)
    && (forall i :: 0 <= i < pages ==> requests[i] == PageRequest(q, CursorFor(replies, i)))
    && (forall i :: 0 <= i < pages ==> Continues(replies[i]))
    && (maxPages > 0 ==> pages <= maxPages)
    && (maxPages < 0 ==> pages == 0)
  }

  /** The ways a successful run of `pages` fetches can end, with the cursor
      it returns: a negative budget stops before any fetch; otherwise the
      last reply had no items (the cursor that asked for it is kept), or had
      items and no next cursor (None), or had both and the budget is spent
      (its next cursor is kept, unconsumed). */
  ghost predicate Finished(replies: seq<Page>, maxPages: int, pages: nat, cursor: Json)
    requires pages <= |replies|
  {
    if pages == 0 then maxPages < 0 && cursor == JNull
    else
      var last := replies[pages - 1];
      && last.Page?
      && (|| (!HasItems(last) && cursor == CursorFor(replies, pages - 1))
          || (HasItems(last) && !Truthy(NextOf(last)) && cursor == JNull)
          || (Continues(last) && pages == maxPages && cursor == NextOf(last)))
  }

  /** One more iteration from a reached state, when the budget allows it and
      the reply lets the loop go on, reaches the next state. */
  lemma StepReached(q: Query, replies: seq<Page>, maxPages: int,
                    collected: seq<Json>, cursor: Json, pages: nat, requests: seq<Request>)
    requires Reached(q, replies, maxPages, collected, cursor, pages, requests)
    requires !(maxPages != 0 && pages >= maxPages)
    requires Answer(replies, pages).Page? && Continues(Answer(replies, pages))
    ensures Reached(q, replies, maxPages, collected + ItemsOf(Answer(replies, pages)), NextOf(Answer(replies, pages)),
                    pages + 1, requests + [PageRequest(q, cursor)])
  {
    var sent := requests + [PageRequest(q, cursor)];
    assert forall i :: 0 <= i < pages ==> sent[i] == requests[i];
  }

  /** The requests a run issues from a reached state. */
  lemma {:induction false} LoopRequests(q: Query, replies: seq<Page>, maxPages: int,
                                        collected: seq<Json>, cursor: Json, pages: nat, requests: seq<Request>)
    requires Reached(q, replies, maxPages, collected, cursor, pages, requests)
    ensures var s := Loop(q, replies, maxPages, collected, cursor, pages, requests);
      && pages <= |s.requests| <= |replies| + 1
      && (forall i :: 0 <= i < |s.requests| ==> s.requests[i] == PageRequest(q, CursorFor(replies, i)))
      && (forall i :: 0 <= i < |s.requests| - 1 ==> Continues(replies[i]))
      && (maxPages > 0 ==> |s.requests| <= maxPages)
      && (maxPages < 0 ==> s.requests == [])
    decreases |replies| - pages
  {
    var page := Answer(replies, pages);
    if !(maxPages != 0 && pages >= maxPages) {
      var sent := requests + [PageRequest(q, cursor)];
      if page.Page? && Continues(page) {
        StepReached(q, replies, maxPages, collected, cursor, pages, requests);
        LoopRequests(q, replies, maxPages, collected + ItemsOf(page), NextOf(page), pages + 1, sent);
      } else {
        assert forall i :: 0 <= i < pages ==> sent[i] == requests[i];
      }
    }
  }

  /** The outcome of a run from a reached state. */
  lemma {:induction false} LoopOutcome(q: Query, replies: seq<Page>, maxPages: int,
                                       collected: seq<Json>, cursor: Json, pages: nat, requests: seq<Request>)
    requires Reached(q, replies, maxPages, collected, cursor, pages, requests)
    ensures var s := Loop(q, replies, maxPages, collected, cursor, pages, requests);
      s.outcome.Collected? ==>
        && s.outcome.pages == |s.requests| <= |replies|
        && s.outcome.items == Gathered(replies, s.outcome.pages)
        && Finished(replies, maxPages, s.outcome.pages, s.outcome.cursor)
    ensures var s := Loop(q, replies, maxPages, collected, cursor, pages, requests);
      s.outcome.FetchFailed? ==>
        |s.requests| > 0 && Answer(replies, |s.requests| - 1) == Refused(s.outcome.error)
    decreases |replies| - pages
  {
    var page := Answer(replies, pages);
    if !(maxPages != 0 && pages >= maxPages) && page.Page? {
      if Continues(page) {
        StepReached(q, replies, maxPages, collected, cursor, pages, requests);
        LoopOutcome(q, replies, maxPages, collected + ItemsOf(page), NextOf(page), pages + 1,
                    requests + [PageRequest(q, cursor)]);
      } else {
        assert Gathered(replies, pages + 1) == collected + ItemsOf(page);
      }
    }
  }

  /** The placement of page `i`'s items in the concatenation: they follow
      the items of the pages before it, unchanged and in order. */
  lemma {:induction false} GatheredPlacesPage(replies: seq<Page>, n: nat, i: nat, j: nat)
    requires i < n <= |replies| && j < |ItemsOf(replies[i])|
    ensures |Gathered(replies, i)| + j < |Gathered(replies, n)|
    ensures Gathered(replies, n)[|Gathered(replies, i)| + j] == ItemsOf(replies[i])[j]
    decreases n
  {
    if n > i + 1 {
      GatheredPlacesPage(replies, n - 1, i, j);
    }
  }

  // ---------------------------------------------------------------------
  // Properties of a run from the start
  // ---------------------------------------------------------------------

  /** Request number `i` is answered with the script's reply `i`, as the
      loop reads it. */
  lemma AnswerReads(script: seq<FetchResult>, i: nat)
    ensures Answer(Replies(script), i) == ReadReply(Respond(script, i))
  {
    if i < |script| {
      RepliesAt(script, i);
    }
  }

  /** Page budget: `pages` is the number of fetches issued; a positive
      budget bounds it, a negative one stops the run before any fetch. */
  lemma PageBudget(q: Query, script: seq<FetchResult>, maxPages: int)
    ensures var s := Collect(q, script, maxPages);
      && (s.outcome.Collected? ==> s.outcome.pages == |s.requests|)
      && (maxPages > 0 ==> |s.requests| <= maxPages)
      && (maxPages < 0 ==> s.requests == [] && s.outcome == Collected([], JNull, 0))
  {
    LoopRequests(q, Replies(script), maxPages, [], JNull, 0, []);
    LoopOutcome(q, Replies(script), maxPages, [], JNull, 0, []);
  }

  /** Without a budget (`max_pages == 0`), and under a budget not yet
      spent, a successful run over the replies `replies` (for the code,
      `Replies(script)`, as in `Collect`) ends only on a fetched page that
      has no items or no next cursor. */
  lemma StopsOnData(q: Query, replies: seq<Page>, maxPages: int)
    requires maxPages >= 0
    ensures var s := Loop(q, replies, maxPages, [], JNull, 0, []);
      s.outcome.Collected? && s.outcome.pages != maxPages ==>
        && 1 <= s.outcome.pages <= |replies|
        && replies[s.outcome.pages - 1].Page?
        && !Continues(replies[s.outcome.pages - 1])
  {
    LoopOutcome(q, replies, maxPages, [], JNull, 0, []);
    var s := Loop(q, replies, maxPages, [], JNull, 0, []);
    if s.outcome.Collected? && s.outcome.pages != maxPages {
      FinishedEarly(replies, maxPages, s.outcome.pages, s.outcome.cursor);
    }
  }

  /** A run that ends under a non-negative budget without spending it ended
      on a fetched reply that does not let the loop go on. */
  lemma FinishedEarly(replies: seq<Page>, maxPages: int, n: nat, cursor: Json)
    requires n <= |replies| && Finished(replies, maxPages, n, cursor)
    requires maxPages >= 0 && n != maxPages
    ensures 1 <= n && replies[n - 1].Page? && !Continues(replies[n - 1])
  {
  }

  /** Cursor threading: the first request carries no cursor, and request
      `i > 0` carries the next cursor of reply `i - 1`. */
  lemma CursorThreading(q: Query, script: seq<FetchResult>, maxPages: int)
    ensures var s := Collect(q, script, maxPages);
      && (|s.requests| > 0 ==> !HasKey(s.requests[0].params, "cursor"))
      && (forall i :: 0 < i < |s.requests| ==>
            && i <= |script|
            && HasKey(s.requests[i].params, "cursor")
            && Lookup(s.requests[i].params, "cursor") == NextOf(Replies(script)[i - 1]))
  {
    var replies := Replies(script);
    var s := Collect(q, script, maxPages);
    LoopRequests(q, replies, maxPages, [], JNull, 0, []);
    if |s.requests| > 0 {
      PageRequestParams(q, JNull);
    }
    forall i | 0 < i < |s.requests|
      ensures HasKey(s.requests[i].params, "cursor")
      ensures Lookup(s.requests[i].params, "cursor") == NextOf(Replies(script)[i - 1])
    {
      assert Continues(replies[i - 1]);
      PageRequestParams(q, CursorFor(replies, i));
    }
  }

  /** The cursor a successful run over `replies` returns: None when no
      fetch was made or the last page named no next cursor; the unconsumed
      next cursor when the budget ran out; the cursor that asked for the
      last page (None for the first) when that page had no items. */
  lemma ReturnedCursor(q: Query, replies: seq<Page>, maxPages: int)
    ensures var s := Loop(q, replies, maxPages, [], JNull, 0, []);
      s.outcome.Collected? ==> var n := s.outcome.pages;
        && n <= |replies|
        && (n == 0 ==> s.outcome.cursor == JNull)
        && (n > 0 ==>
              var last := replies[n - 1];
              && (!HasItems(last) ==> s.outcome.cursor == CursorFor(replies, n - 1))
              && (HasItems(last) && !Truthy(NextOf(last)) ==> s.outcome.cursor == JNull)
              && (Continues(last) ==> n == maxPages && s.outcome.cursor == NextOf(last)))
  {
    LoopOutcome(q, replies, maxPages, [], JNull, 0, []);
    var s := Loop(q, replies, maxPages, [], JNull, 0, []);
    if s.outcome.Collected? && s.outcome.pages > 0 {
      FinishedCases(replies, maxPages, s.outcome.pages, s.outcome.cursor);
    }
  }

  /** The stop cases of `Finished`, one implication per kind of last reply. */
  lemma FinishedCases(replies: seq<Page>, maxPages: int, n: nat, cursor: Json)
    requires 0 < n <= |replies| && Finished(replies, maxPages, n, cursor)
    ensures var last := replies[n - 1];
      && (!HasItems(last) ==> cursor == CursorFor(replies, n - 1))
      && (HasItems(last) && !Truthy(NextOf(last)) ==> cursor == JNull)
      && (Continues(last) ==> n == maxPages && cursor == NextOf(last))
  {
  }

  /** Accumulation: a successful run over `replies` returns exactly the
      in-order concatenation of the item lists of the pages it fetched; a
      last page without items adds nothing. */
  lemma Accumulation(q: Query, replies: seq<Page>, maxPages: int)
    ensures var s := Loop(q, replies, maxPages, [], JNull, 0, []);
      s.outcome.Collected? ==> var n := s.outcome.pages;
        && n <= |replies|
        && s.outcome.items == Gathered(replies, n)
        && (n > 0 && !HasItems(replies[n - 1]) ==> s.outcome.items == Gathered(replies, n - 1))
  {
    LoopOutcome(q, replies, maxPages, [], JNull, 0, []);
  }

  /** The loop sees request `i` refused exactly when the scripted reply to
      it is a failure, and then with that failure's error. */
  lemma AnswerRefused(script: seq<FetchResult>, i: nat)
    ensures Answer(Replies(script), i).Refused? <==> Respond(script, i).Failed?
    ensures Respond(script, i).Failed? ==> Answer(Replies(script), i) == Refused(Respond(script, i).error)
  {
    if i < |script| {
      RepliesAt(script, i);
    }
  }

  /** Fetch failure: the run fails exactly when one of the fetches it issued
      failed; that is then the last one, and its error is the run's. */
  lemma FetchFailure(q: Query, script: seq<FetchResult>, maxPages: int)
    ensures var s := Collect(q, script, maxPages);
      s.outcome.FetchFailed? <==> exists i :: 0 <= i < |s.requests| && Respond(script, i).Failed?
    ensures var s := Collect(q, script, maxPages);
      s.outcome.FetchFailed? ==> Respond(script, |s.requests| - 1) == Failed(s.outcome.error)
  {
    var s := Collect(q, script, maxPages);
    RunFetchFailure(q, Replies(script), maxPages);
    forall i | 0 <= i < |s.requests|
      ensures Answer(Replies(script), i).Refused? <==> Respond(script, i).Failed?
    {
      AnswerRefused(script, i);
    }
    if s.outcome.FetchFailed? {
      AnswerRefused(script, |s.requests| - 1);
    }
  }

  /** `FetchFailure` for any sequence of replies: the run fails exactly
      when one of its requests was refused, and then on the last one. */
  lemma RunFetchFailure(q: Query, replies: seq<Page>, maxPages: int)
    ensures var s := Loop(q, replies, maxPages, [], JNull, 0, []);
      s.outcome.FetchFailed? <==> exists i :: 0 <= i < |s.requests| && Answer(replies, i).Refused?
    ensures var s := Loop(q, replies, maxPages, [], JNull, 0, []);
      s.outcome.FetchFailed? ==> |s.requests| > 0 && Answer(replies, |s.requests| - 1) == Refused(s.outcome.error)
  {
    var s := Loop(q, replies, maxPages, [], JNull, 0, []);
    LoopRequests(q, replies, maxPages, [], JNull, 0, []);
    LoopOutcome(q, replies, maxPages, [], JNull, 0, []);
    forall i | 0 <= i < |s.requests| && Answer(replies, i).Refused?
      ensures s.outcome.FetchFailed? && i == |s.requests| - 1
    {
      if i < |s.requests| - 1 {
        assert false;
      }
    }
  }

  // ---------------------------------------------------------------------
  // Concrete runs
  // ---------------------------------------------------------------------

  /** Page 1 has 100 items and cursor "X", page 2 has 5 items and no cursor:
      with a budget of 2 the run returns the 105 items in order, no cursor
      and 2 pages, and the second request carries cursor "X". */
  lemma TwoPageRun(apiKey: string, first: seq<Json>, second: seq<Json>)
    requires |first| == 100 && |second| == 5
    ensures var s := Collect(Query("ABC", apiKey, 100),
                             [Fetched(JObj([("transactions", JArr(first)), ("cursor", JStr("X"))])),
                              Fetched(JObj([("transactions", JArr(second))]))],
                             2);
      && s.outcome == Collected(first + second, JNull, 2)
      && |s.outcome.items| == 105
      && s.requests == [PageRequest(Query("ABC", apiKey, 100), JNull), PageRequest(Query("ABC", apiKey, 100), JStr("X"))]
  {
    var page1 := JObj([("transactions", JArr(first)), ("cursor", JStr("X"))]);
    var page2 := JObj([("transactions", JArr(second))]);
    assert ItemList(page1) == Some(first);
    assert page1.fields[1].0 == "cursor" && "transactions" != "cursor";
    LookupFirstMatch(page1.fields, "cursor", 1);
    assert NextCursor(page1) == JStr("X");
    assert ItemList(page2) == Some(second);
    assert NextCursor(page2) == JNull;
    var q := Query("ABC", apiKey, 100);
    var replies := Replies([Fetched(page1), Fetched(page2)]);
    RepliesAt([Fetched(page1), Fetched(page2)], 0);
    RepliesAt([Fetched(page1), Fetched(page2)], 1);
    assert replies == [Page(Some(first), JStr("X")), Page(Some(second), JNull)];
    var req1 := PageRequest(q, JNull);
    var none: seq<Request> := [];
    assert none + [req1] == [req1] && [] + first == first;
    assert HasItems(Answer(replies, 0)) && Truthy(NextOf(Answer(replies, 0)));
    assert Loop(q, replies, 2, [], JNull, 0, []) == Loop(q, replies, 2, first, JStr("X"), 1, [req1]);
  }

  /** A first page with no items ends the run after one fetch, with nothing
      collected, without using the rest of the budget. */
  lemma EmptyFirstPage(q: Query)
    ensures Collect(q, [Fetched(JObj([("transactions", JArr([]))]))], 2).outcome == Collected([], JNull, 1)
  {
    assert ItemList(JObj([("transactions", JArr([]))])) == Some([]);
  }

  /** A response that is itself a list is the item list and names no next
      cursor, so the run ends after it. */
  lemma ListResponse(q: Query, items: seq<Json>, rest: seq<FetchResult>)
    requires items != []
    ensures Collect(q, [Fetched(JArr(items))] + rest, 0).outcome == Collected(items, JNull, 1)
  {
  }

  /** Cursor key order: "next" is preferred to "nextCursor" in either
      order of the entries, and "nextCursor" alone is used when it is the
      only one set; an empty-string "cursor" counts as no cursor. */
  lemma CursorKeyOrder(a: string, b: string)
    requires a != [] && b != []
    ensures NextCursor(JObj([("nextCursor", JStr(b)), ("next", JStr(a))])) == JStr(a)
    ensures NextCursor(JObj([("next", JStr(a)), ("nextCursor", JStr(b))])) == JStr(a)
    ensures NextCursor(JObj([("cursor", JStr("")), ("nextCursor", JStr(b))])) == JStr(b)
  {
    var both := [("nextCursor", JStr(b)), ("next", JStr(a))];
    var swapped := [("next", JStr(a)), ("nextCursor", JStr(b))];
    var only := [("cursor", JStr("")), ("nextCursor", JStr(b))];
    assert |"cursor"| == 6 && |"next"| == 4 && |"nextCursor"| == 10;
    assert CursorKeys[0] == "cursor" && CursorKeys[1] == "next" && CursorKeys[2] == "nextCursor";
    LookupFirstMatch(both, "next", 1);
    assert !HasKey(both, "cursor");
    assert Truthy(Lookup(both, CursorKeys[1])) && !Truthy(Lookup(both, CursorKeys[0]));
    LookupFirstMatch(swapped, "next", 0);
    assert !HasKey(swapped, "cursor");
    assert Truthy(Lookup(swapped, CursorKeys[1])) && !Truthy(Lookup(swapped, CursorKeys[0]));
    LookupFirstMatch(only, "cursor", 0);
    LookupFirstMatch(only, "nextCursor", 1);
    assert !HasKey(only, "next");
    assert forall j :: 0 <= j < 2 ==> !Truthy(Lookup(only, CursorKeys[j]));
    assert Truthy(Lookup(only, CursorKeys[2]));
  }

  /** Item-list precedence: a list under "transactions" wins over a list
      under "result" and over earlier list-valued entries; without one, a
      list under "result" wins over earlier list-valued entries; without
      either, the first list-valued entry is used. */
  lemma ItemListPrecedence(a: seq<Json>, b: seq<Json>, c: seq<Json>)
    ensures ItemList(JObj([("data", JArr(a)), ("result", JArr(b)), ("transactions", JArr(c))])) == Some(c)
    ensures ItemList(JObj([("data", JArr(a)), ("transactions", JStr("x")), ("result", JArr(b))])) == Some(b)
    ensures ItemList(JObj([("transactions", JNull), ("items", JArr(a)), ("more", JArr(b))])) == Some(a)
  {
    var one := [("data", JArr(a)), ("result", JArr(b)), ("transactions", JArr(c))];
    var two := [("data", JArr(a)), ("transactions", JStr("x")), ("result", JArr(b))];
    var three := [("transactions", JNull), ("items", JArr(a)), ("more", JArr(b))];
    assert |"data"| == 4 && |"result"| == 6 && |"transactions"| == 12 && |"items"| == 5 && |"more"| == 4;
    LookupFirstMatch(one, "transactions", 2);
    ItemListOrder(one);
    LookupFirstMatch(two, "transactions", 1);
    LookupFirstMatch(two, "result", 2);
    ItemListOrder(two);
    LookupFirstMatch(three, "transactions", 0);
    assert !HasKey(three, "result");
    ItemListOrder(three);
    assert three[1].1.JArr? && !three[0].1.JArr?;
  }
}
