/**
 The offset/limit loop every list endpoint repeats, written once over the
 URL and the resource key. The server is a finite sequence of replies: the
 i-th page request receives the i-th reply. When the replies run out while the
 loop still wants another page, the traversal is suspended: that is all the
 generator has done so far.
 */
module Pagination {
  import opened Options
  import opened JsonData
  import opened Errors
  import opened Configuration
  import opened Exchange
  import PyOps
  import Core

  /** `if limit > MAX_SEARCH_LIMIT: limit = MAX_SEARCH_LIMIT`: larger requests are reduced to the cap, others are kept. */
  function Clamp(limit: int, maxLimit: int): (r: int)
    ensures r <= maxLimit
    ensures limit <= maxLimit ==> r == limit
    ensures limit > maxLimit ==> r == maxLimit
  {
    if limit > maxLimit then maxLimit else limit
  }

  /** The query parameters `{'offset': offset, 'limit': limit}`. */
  function Query(offset: int, limit: int): map<string, int> {
    map["offset" := offset, "limit" := limit]
  }

  function PageRequest(c: Config, url: string, offset: int, limit: int): (r: Core.HttpRequest)
    ensures r.verb == Core.GET && r.url == url && r.json == None
    ensures r.params == Some(map["offset" := offset, "limit" := limit])
    ensures r.headers == Core.Headers(c) && r.verify == Core.Verify(c) && r.cert == Core.Cert(c)
  {
    Core.Get(c, url, Some(Query(offset, limit)))
  }

  /** What one page does to the loop: continue with an offset advance, stop after the last page, or raise. */
  datatype Step =
    | Next(items: seq<Json>, count: int)
    | Last(items: seq<Json>)
    | Stop(items: seq<Json>, error: Error)  // items: what was yielded from this page before the raise

  /** The 200 branch: yield `data[key]`, then compare `int(data['count'])` with the echoed `int(data['limit'])`. */
  function PageOf(data: Json, key: string): (s: Step)
    // the first failing read raises: the items, then `count`, then `limit`
    ensures PyOps.ItemsAt(data, key).Err? ==> s == Stop([], PyOps.ItemsAt(data, key).error)
    ensures PyOps.ItemsAt(data, key).Ok? && PyOps.IntField(data, "count").Err? ==>
      s == Stop(PyOps.ItemsAt(data, key).value, PyOps.IntField(data, "count").error)
    ensures PyOps.ItemsAt(data, key).Ok? && PyOps.IntField(data, "count").Ok? && PyOps.IntField(data, "limit").Err? ==>
      s == Stop(PyOps.ItemsAt(data, key).value, PyOps.IntField(data, "limit").error)
    // all reads succeed: a page shorter than the echoed limit is the last one, otherwise move on by `count`
    ensures PyOps.ItemsAt(data, key).Ok? && PyOps.IntField(data, "count").Ok? && PyOps.IntField(data, "limit").Ok? ==>
      (s.Last? <==> PyOps.IntField(data, "count").value < PyOps.IntField(data, "limit").value)
    ensures PyOps.ItemsAt(data, key).Ok? && PyOps.IntField(data, "count").Ok? && PyOps.IntField(data, "limit").Ok? ==>
      s.items == PyOps.ItemsAt(data, key).value && (s.Next? || s.Last?)
    ensures s.Next? ==> s.count == PyOps.IntField(data, "count").value
  {
    match PyOps.ItemsAt(data, key)
    case Err(e) => Stop([], e)
    case Ok(items) =>
      match PyOps.IntField(data, "count")
      case Err(e) => Stop(items, e)
      case Ok(count) =>
        match PyOps.IntField(data, "limit")
        case Err(e) => Stop(items, e)
        case Ok(echoed) => if count < echoed then Last(items) else Next(items, count)
  }

  /**
   One iteration of the loop body. Only a decodable 200 page continues or ends the
   loop normally; its items are yielded before the stop decision, which uses the
   limit the server echoes back and advances by the count the server reports.
   */
  function Decide(reply: Reply, key: string): (s: Step)
    ensures reply.SendFailed? ==> s == Stop([], ConnectionError(reply.cause))
    ensures reply.Received? && reply.body.None? ==> s == Stop([], ConnectionError(DecodeError))
    ensures reply.Received? && reply.status != 200 && reply.body.Some? ==>
      s == Stop([], Rejection(reply.status, reply.body.value))
    ensures !s.Stop? ==>
      reply.Received? && reply.status == 200 && reply.body.Some? &&
      PyOps.ItemsAt(reply.body.value, key) == Ok(s.items) &&
      PyOps.IntField(reply.body.value, "count").Ok? && PyOps.IntField(reply.body.value, "limit").Ok?
    ensures s.Last? ==>
      PyOps.IntField(reply.body.value, "count").value < PyOps.IntField(reply.body.value, "limit").value
    ensures s.Next? ==>
      s.count == PyOps.IntField(reply.body.value, "count").value &&
      s.count >= PyOps.IntField(reply.body.value, "limit").value
    ensures reply.Received? && reply.status == 200 && reply.body.Some? &&
            PyOps.ItemsAt(reply.body.value, key).Ok? ==>
      s.items == PyOps.ItemsAt(reply.body.value, key).value
    // a 200 page raises the first of its failing reads: the items, then `count`, then `limit`
    ensures reply.Received? && reply.status == 200 && reply.body.Some? &&
            PyOps.ItemsAt(reply.body.value, key).Err? ==>
      s == Stop([], PyOps.ItemsAt(reply.body.value, key).error)
    ensures reply.Received? && reply.status == 200 && reply.body.Some? &&
            PyOps.ItemsAt(reply.body.value, key).Ok? && PyOps.IntField(reply.body.value, "count").Err? ==>
      s == Stop(PyOps.ItemsAt(reply.body.value, key).value, PyOps.IntField(reply.body.value, "count").error)
    ensures reply.Received? && reply.status == 200 && reply.body.Some? &&
            PyOps.ItemsAt(reply.body.value, key).Ok? && PyOps.IntField(reply.body.value, "count").Ok? &&
            PyOps.IntField(reply.body.value, "limit").Err? ==>
      s == Stop(PyOps.ItemsAt(reply.body.value, key).value, PyOps.IntField(reply.body.value, "limit").error)
    // a 200 page whose reads all succeed ends the loop on a short page and otherwise continues by `count`
    ensures reply.Received? && reply.status == 200 && reply.body.Some? &&
            PyOps.ItemsAt(reply.body.value, key).Ok? && PyOps.IntField(reply.body.value, "count").Ok? &&
            PyOps.IntField(reply.body.value, "limit").Ok? ==>
      var items := PyOps.ItemsAt(reply.body.value, key).value;
      var count := PyOps.IntField(reply.body.value, "count").value;
      s == if count < PyOps.IntField(reply.body.value, "limit").value then Last(items) else Next(items, count)
  {
    match reply
    case SendFailed(e) => Stop([], ConnectionError(e))
    case Received(_, None) => Stop([], ConnectionError(DecodeError))
    case Received(status, Some(data)) =>
      if status == 200 then PageOf(data, key) else Stop([], Rejection(status, data))
  }

  /** How a traversal ended: a short page, a raise, or waiting for a page the server has not answered yet. */
  datatype End = Exhausted | Aborted(error: Error) | Suspended(nextOffset: int)

  /** The page requests issued, the items yielded in order, and how the traversal ended. */
  datatype Traversal = Traversal(requests: seq<Core.HttpRequest>, items: seq<Json>, end: End)

  /** The decision each reply leads to, page by page (a page's decision does not depend on the offset asked for). */
  function Steps(pages: seq<Reply>, key: string): (steps: seq<Step>)
    ensures |steps| == |pages|
  {
    seq(|pages|, i requires 0 <= i < |pages| => Decide(pages[i], key))
  }

  /** The loop from `offset` on, over the decisions of the replies still to come. */
  function Walk(c: Config, url: string, limit: int, steps: seq<Step>, offset: int): (t: Traversal)
    ensures |t.requests| <= |steps|
    ensures |steps| > 0 ==> |t.requests| > 0
    ensures t.end.Suspended? ==> |t.requests| == |steps|
    decreases |steps|
  {
    if |steps| == 0 then Traversal([], [], Suspended(offset))
    else
      var request := PageRequest(c, url, offset, limit);
      match steps[0]
      case Last(items) => Traversal([request], items, Exhausted)
      case Stop(items, e) => Traversal([request], items, Aborted(e))
      case Next(items, count) =>
        var rest := Walk(c, url, limit, steps[1..], offset + count);
        Traversal([request] + rest.requests, items + rest.items, rest.end)
  }

  /** Index of the first decision that does not continue the loop, or |steps| if all do. */
  function FirstStop(steps: seq<Step>): (n: nat)
    ensures n <= |steps|
    ensures forall i :: 0 <= i < n ==> steps[i].Next?
    ensures n < |steps| ==> !steps[n].Next?
    decreases |steps|
  {
    if |steps| == 0 || !steps[0].Next? then 0
    else
      var n := FirstStop(steps[1..]);
      assert forall i :: 1 <= i < n + 1 ==> steps[i] == steps[1..][i - 1];
      n + 1
  }

  /** The sum of the counts the continuing pages report. */
  function Advance(steps: seq<Step>): int
    decreases |steps|
  {
    if |steps| == 0 then 0
    else (if steps[0].Next? then steps[0].count else 0) + Advance(steps[1..])
  }

  /** The items of the pages, page after page, each in server order. */
  function Yielded(steps: seq<Step>): seq<Json>
    decreases |steps|
  {
    if |steps| == 0 then [] else steps[0].items + Yielded(steps[1..])
  }

  /** The loop requests pages up to and including the first one that does not continue. */
  lemma {:induction false} WalkLength(c: Config, url: string, limit: int, steps: seq<Step>, offset: int)
    ensures |Walk(c, url, limit, steps, offset).requests| ==
      (if FirstStop(steps) < |steps| then FirstStop(steps) + 1 else |steps|)
    decreases |steps|
  {
    if |steps| > 0 && steps[0].Next? {
      WalkLength(c, url, limit, steps[1..], offset + steps[0].count);
    }
  }

  /** The i-th request asks for the start offset plus the counts of the pages before it, with the same limit. */
  lemma {:induction false} WalkOffsets(c: Config, url: string, limit: int, steps: seq<Step>, offset: int, i: nat)
    requires i < |Walk(c, url, limit, steps, offset).requests|
    ensures Walk(c, url, limit, steps, offset).requests[i] == PageRequest(c, url, offset + Advance(steps[..i]), limit)
    decreases |steps|
  {
    if i == 0 {
      assert Advance(steps[..0]) == 0;
      WalkFirst(c, url, limit, steps, offset);
    } else {
      var tail := steps[1..];
      assert steps[0].Next?;
      var next := offset + steps[0].count;
      var rest := Walk(c, url, limit, tail, next);
      assert Walk(c, url, limit, steps, offset).requests == [PageRequest(c, url, offset, limit)] + rest.requests;
      WalkOffsets(c, url, limit, tail, next, i - 1);
      assert steps[..i][0] == steps[0];
      assert steps[..i][1..] == tail[..i - 1];
      assert offset + Advance(steps[..i]) == next + Advance(tail[..i - 1]);
    }
  }

  /** The first request asks for the start offset. */
  lemma WalkFirst(c: Config, url: string, limit: int, steps: seq<Step>, offset: int)
    requires |steps| > 0
    ensures Walk(c, url, limit, steps, offset).requests[0] == PageRequest(c, url, offset, limit)
  {
  }

  /** Every page request is a GET of the same URL, with the same headers and TLS settings, asking for the same limit. */
  lemma WalkRequests(c: Config, url: string, limit: int, steps: seq<Step>, offset: int)
    ensures var t := Walk(c, url, limit, steps, offset);
      forall i :: 0 <= i < |t.requests| ==>
        && t.requests[i].verb == Core.GET && t.requests[i].url == url && t.requests[i].json == None
        && t.requests[i].headers == Core.Headers(c)
        && t.requests[i].verify == Core.Verify(c) && t.requests[i].cert == Core.Cert(c)
        && t.requests[i].params.Some? && t.requests[i].params.value == Query(offset + Advance(steps[..i]), limit)
  {
    var t := Walk(c, url, limit, steps, offset);
    forall i | 0 <= i < |t.requests|
      ensures t.requests[i] == PageRequest(c, url, offset + Advance(steps[..i]), limit)
    {
      WalkOffsets(c, url, limit, steps, offset, i);
    }
  }

  /** The items yielded are those of the pages requested, page after page. */
  lemma {:induction false} WalkItems(c: Config, url: string, limit: int, steps: seq<Step>, offset: int)
    ensures var t := Walk(c, url, limit, steps, offset);
      t.items == Yielded(steps[..|t.requests|])
    decreases |steps|
  {
    if |steps| > 0 {
      var t := Walk(c, url, limit, steps, offset);
      if steps[0].Next? {
        var tail := steps[1..];
        var rest := Walk(c, url, limit, tail, offset + steps[0].count);
        WalkItems(c, url, limit, tail, offset + steps[0].count);
        assert |t.requests| == 1 + |rest.requests|;
        assert steps[..|t.requests|][1..] == tail[..|rest.requests|];
      } else {
        assert steps[..1][1..] == [];
      }
    }
  }

  /** The loop stops on a short page, raises on the first failing page, and otherwise waits for the next offset. */
  lemma {:induction false} WalkEnd(c: Config, url: string, limit: int, steps: seq<Step>, offset: int)
    ensures var n := FirstStop(steps);
      var t := Walk(c, url, limit, steps, offset);
      && (n == |steps| ==> t.end == Suspended(offset + Advance(steps)))
      && (n < |steps| && steps[n].Last? ==> t.end == Exhausted)
      && (n < |steps| && steps[n].Stop? ==> t.end == Aborted(steps[n].error))
    decreases |steps|
  {
    if |steps| > 0 && steps[0].Next? {
      WalkEnd(c, url, limit, steps[1..], offset + steps[0].count);
      assert steps[FirstStop(steps)..] == steps[1..][FirstStop(steps[1..])..] by {
        assert FirstStop(steps) == FirstStop(steps[1..]) + 1;
      }
    }
  }

  /**
   Items already yielded stay yielded: answering more pages only extends the
   requests and items, and once the loop has stopped or raised, no later reply
   changes anything.
   */
  lemma {:induction false} MorePagesExtend(c: Config, url: string, limit: int,
                                           steps: seq<Step>, extra: seq<Step>, offset: int)
    ensures var t := Walk(c, url, limit, steps, offset);
      var u := Walk(c, url, limit, steps + extra, offset);
      && t.requests <= u.requests
      && t.items <= u.items
      && (!t.end.Suspended? ==> u == t)
    decreases |steps|
  {
    if |steps| > 0 {
      assert (steps + extra)[0] == steps[0];
      assert (steps + extra)[1..] == steps[1..] + extra;
      if steps[0].Next? {
        MorePagesExtend(c, url, limit, steps[1..], extra, offset + steps[0].count);
      }
    }
  }

  /** `Glue(requests, items, t)`: what was done so far, followed by the traversal `t`. */
  function Glue(requests: seq<Core.HttpRequest>, items: seq<Json>, t: Traversal): Traversal {
    Traversal(requests + t.requests, items + t.items, t.end)
  }

  /** One turn of the loop, seen from the outside: the traversal so far plus the rest equals the whole. */
  lemma GlueTurn(c: Config, url: string, limit: int, steps: seq<Step>, offset: int,
                 requests: seq<Core.HttpRequest>, items: seq<Json>,
                 done: seq<Core.HttpRequest>, yielded: seq<Json>)
    requires |steps| > 0
    requires done == requests + [PageRequest(c, url, offset, limit)]
    requires yielded == items + steps[0].items
    ensures var whole := Glue(requests, items, Walk(c, url, limit, steps, offset));
      && (steps[0].Next? ==> whole == Glue(done, yielded, Walk(c, url, limit, steps[1..], offset + steps[0].count)))
      && (steps[0].Last? ==> whole == Traversal(done, yielded, Exhausted))
      && (steps[0].Stop? ==> whole == Traversal(done, yielded, Aborted(steps[0].error)))
  {
    var request := PageRequest(c, url, offset, limit);
    if steps[0].Next? {
      var rest := Walk(c, url, limit, steps[1..], offset + steps[0].count);
      assert requests + ([request] + rest.requests) == (requests + [request]) + rest.requests;
      assert items + (steps[0].items + rest.items) == (items + steps[0].items) + rest.items;
    }
  }

  /**
   The inner loop `for item in data[key]: yield item`, one item at a time, in
   server order; with it `Traverse` keeps the source's two nested loops.
   */
  method YieldPage(items: seq<Json>, page: seq<Json>) returns (out: seq<Json>)
    ensures out == items + page
  {
    out := items;
    var j := 0;
    while j < |page|
      invariant 0 <= j <= |page|
      invariant out == items + page[..j]
    {
      out := out + [page[j]];
      j := j + 1;
    }
    assert page[..|page|] == page;
  }

  /** The loop as a state machine: page `i` is next, at `offset`, after the requests and items so far. */
  ghost function Resume(c: Config, url: string, limit: int, steps: seq<Step>, i: nat, offset: int,
                        requests: seq<Core.HttpRequest>, items: seq<Json>): Traversal
    requires i <= |steps|
    decreases |steps| - i
  {
    if i == |steps| then Traversal(requests, items, Suspended(offset))
    else
      var done := requests + [PageRequest(c, url, offset, limit)];
      var yielded := items + steps[i].items;
      match steps[i]
      case Last(_) => Traversal(done, yielded, Exhausted)
      case Stop(_, e) => Traversal(done, yielded, Aborted(e))
      case Next(_, count) => Resume(c, url, limit, steps, i + 1, offset + count, done, yielded)
  }

  /** How a page that does not continue ends the loop. */
  function Ending(step: Step): End
    requires !step.Next?
  {
    if step.Last? then Exhausted else Aborted(step.error)
  }

  /** One turn of the state machine at page `i`. */
  lemma ResumeTurn(c: Config, url: string, limit: int, steps: seq<Step>, i: nat, offset: int,
                   requests: seq<Core.HttpRequest>, items: seq<Json>)
    requires i < |steps|
    ensures var done := requests + [PageRequest(c, url, offset, limit)];
      var yielded := items + steps[i].items;
      Resume(c, url, limit, steps, i, offset, requests, items) ==
        if steps[i].Next? then Resume(c, url, limit, steps, i + 1, offset + steps[i].count, done, yielded)
        else Traversal(done, yielded, Ending(steps[i]))
  {
  }

  /** The state machine, resumed anywhere, is what was done so far followed by the loop from there. */
  lemma {:induction false} ResumeIsGlue(c: Config, url: string, limit: int, steps: seq<Step>, i: nat, offset: int,
                                        requests: seq<Core.HttpRequest>, items: seq<Json>)
    requires i <= |steps|
    ensures Resume(c, url, limit, steps, i, offset, requests, items) ==
      Glue(requests, items, Walk(c, url, limit, steps[i..], offset))
    decreases |steps| - i
  {
    if i == |steps| {
      assert steps[i..] == [];
    } else {
      assert steps[i..][0] == steps[i];
      assert steps[i..][1..] == steps[i + 1..];
      var done := requests + [PageRequest(c, url, offset, limit)];
      var yielded := items + steps[i].items;
      GlueTurn(c, url, limit, steps[i..], offset, requests, items, done, yielded);
      if steps[i].Next? {
        ResumeIsGlue(c, url, limit, steps, i + 1, offset + steps[i].count, done, yielded);
      }
    }
  }

  /** Started at page 0 and offset 1 with nothing done, the state machine is the loop itself. */
  lemma ResumeFromStart(c: Config, url: string, limit: int, steps: seq<Step>)
    ensures Resume(c, url, limit, steps, 0, 1, [], []) == Walk(c, url, limit, steps, 1)
  {
    ResumeIsGlue(c, url, limit, steps, 0, 1, [], []);
    assert steps[0..] == steps;
    var w := Walk(c, url, limit, steps, 1);
    assert [] + w.requests == w.requests && [] + w.items == w.items;
  }

  /**
   The `while True` loop as written, over the decision each reply leads to:
   request the page, yield its items one by one, then break, raise, or
   advance the offset by the reported count.
   */
  method Traverse(c: Config, url: string, limit: int, steps: seq<Step>) returns (t: Traversal)
    ensures t == Walk(c, url, limit, steps, 1)
  {
    ghost var whole := Resume(c, url, limit, steps, 0, 1, [], []);
    ResumeFromStart(c, url, limit, steps);
    var offset := 1;
    var requests: seq<Core.HttpRequest> := [];
    var items: seq<Json> := [];
    var i := 0;
    while i < |steps|
      invariant 0 <= i <= |steps|
      invariant Resume(c, url, limit, steps, i, offset, requests, items) == whole
      decreases |steps| - i
    {
      var step := steps[i];
      ResumeTurn(c, url, limit, steps, i, offset, requests, items);
      requests := requests + [PageRequest(c, url, offset, limit)];
      items := YieldPage(items, step.items);
      if !step.Next? {
        return Traversal(requests, items, Ending(step));
      }
      offset := offset + step.count;
      i := i + 1;
    }
    t := Traversal(requests, items, Suspended(offset));
  }

  /** A list endpoint that gets a reply first asks for offset 1 with the limit reduced to the cap. */
  lemma ListStart(c: Config, url: string, key: string, limit: int, maxLimit: int, pages: seq<Reply>)
    requires |pages| > 0
    ensures var t := Walk(c, url, Clamp(limit, maxLimit), Steps(pages, key), 1);
      |t.requests| > 0 && t.requests[0].params == Some(Query(1, Clamp(limit, maxLimit)))
  {
  }

  /**
   What a list endpoint sends: GETs of its one URL, each with the client's
   headers and always asking for the limit reduced to the cap, whatever the
   replies decide.
   */
  lemma ListRequests(c: Config, url: string, limit: int, maxLimit: int, steps: seq<Step>)
    ensures var t := Walk(c, url, Clamp(limit, maxLimit), steps, 1);
      forall i :: 0 <= i < |t.requests| ==>
        && t.requests[i].verb == Core.GET && t.requests[i].url == url
        && t.requests[i].headers == Core.Headers(c)
        && t.requests[i].params.Some? && "limit" in t.requests[i].params.value
        && t.requests[i].params.value["limit"] == Clamp(limit, maxLimit)
  {
    WalkRequests(c, url, Clamp(limit, maxLimit), steps, 1);
  }

  /** A decodable 200 page carrying `items` under `key` and the server's `count` and echoed `limit`. */
  function Page(key: string, items: seq<Json>, count: int, limit: int): Reply {
    Received(200, Some(JObj([(key, JArr(items)), ("count", JInt(count)), ("limit", JInt(limit))])))
  }

  /**
   Such a page yields all its items and then stops exactly when the count is
   below the echoed limit; otherwise it advances by the count, whatever the
   number of items.
   */
  lemma DecidePage(key: string, items: seq<Json>, count: int, limit: int)
    requires key != "count" && key != "limit"
    ensures Decide(Page(key, items, count, limit), key) == if count < limit then Last(items) else Next(items, count)
  {
    var fields := [(key, JArr(items)), ("count", JInt(count)), ("limit", JInt(limit))];
    var two := fields[..2];
    assert two == [(key, JArr(items)), ("count", JInt(count))];
    assert two[..1] == [(key, JArr(items))];
    assert Lookup(two[..1], key) == Some(JArr(items));
    assert Lookup(two, key) == Some(JArr(items));
    assert Lookup(fields, key) == Some(JArr(items));
    assert Lookup(fields, "count") == Some(JInt(count));
    assert Lookup(fields, "limit") == Some(JInt(limit));
  }

  /** Full pages of 100 items' worth of count, echoing a limit of 100, then a page counting 37. */
  function ShortLastReplies(key: string, full: seq<seq<Json>>, last: seq<Json>): (pages: seq<Reply>)
    ensures |pages| == |full| + 1
    ensures forall j :: 0 <= j < |full| ==> pages[j] == Page(key, full[j], 100, 100)
    ensures pages[|full|] == Page(key, last, 37, 100)
  {
    seq(|full|, j requires 0 <= j < |full| => Page(key, full[j], 100, 100)) + [Page(key, last, 37, 100)]
  }

  /** The decisions for such pages: every full page continues by 100 and the short one is the last. */
  lemma ShortLastSteps(key: string, full: seq<seq<Json>>, last: seq<Json>)
    requires key != "count" && key != "limit"
    ensures Steps(ShortLastReplies(key, full, last), key) == FullPages(full) + [Last(last)]
  {
    var pages := ShortLastReplies(key, full, last);
    var steps := Steps(pages, key);
    var want := FullPages(full) + [Last(last)];
    forall j | 0 <= j < |steps|
      ensures steps[j] == want[j]
    {
      if j < |full| {
        DecidePage(key, full[j], 100, 100);
      } else {
        DecidePage(key, last, 37, 100);
      }
    }
  }

  /**
   Three full pages of 100 and a short page of 37, with the server echoing a
   limit of 100: the offsets asked for are 1, 101, 201 and 301, all 337 items
   are yielded in order, and the traversal ends normally.
   */
  lemma ShortLastPage(c: Config, url: string, key: string, a: seq<Json>, b: seq<Json>, d: seq<Json>, e: seq<Json>)
    requires key != "count" && key != "limit"
    requires |a| == 100 && |b| == 100 && |d| == 100 && |e| == 37
    ensures var t := Walk(c, url, 100, Steps(ShortLastReplies(key, [a, b, d], e), key), 1);
      && |t.requests| == 4
      && (forall i :: 0 <= i < 4 ==> t.requests[i] == PageRequest(c, url, 1 + 100 * i, 100))
      && t.items == a + b + d + e && |t.items| == 337
      && t.end == Exhausted
  {
    ShortLastSteps(key, [a, b, d], e);
    FullPagesThenLast(c, url, [a, b, d], e);
    ConcatThree(a, b, d);
  }

  lemma ConcatThree(a: seq<Json>, b: seq<Json>, d: seq<Json>)
    ensures Concat([a, b, d]) == a + b + d
  {
    assert [d][1..] == [];
    assert Concat([d]) == d;
    assert [b, d][1..] == [d];
    assert Concat([b, d]) == b + d;
    assert [a, b, d][1..] == [b, d];
    assert Concat([a, b, d]) == a + (b + d);
  }

  /** The items of the pages, one page after another. */
  function Concat(pages: seq<seq<Json>>): seq<Json>
    decreases |pages|
  {
    if |pages| == 0 then [] else pages[0] + Concat(pages[1..])
  }

  /** The decisions for full pages of 100: each continues with a count of 100. */
  function FullPages(pages: seq<seq<Json>>): (steps: seq<Step>)
    ensures |steps| == |pages|
    ensures forall j :: 0 <= j < |steps| ==> steps[j] == Next(pages[j], 100)
  {
    seq(|pages|, j requires 0 <= j < |pages| => Next(pages[j], 100))
  }

  /**
   Any number of full pages followed by a short one: the i-th request asks for
   offset 1 + 100 * i, the items are all pages' items in order, and the loop ends.
   */
  lemma FullPagesThenLast(c: Config, url: string, full: seq<seq<Json>>, last: seq<Json>)
    ensures var steps := FullPages(full) + [Last(last)];
      var t := Walk(c, url, 100, steps, 1);
      && |t.requests| == |full| + 1
      && (forall i :: 0 <= i <= |full| ==> t.requests[i] == PageRequest(c, url, 1 + 100 * i, 100))
      && t.items == Concat(full) + last
      && t.end == Exhausted
  {
    var steps := FullPages(full) + [Last(last)];
    FirstStopFullPages(full, last);
    WalkLength(c, url, 100, steps, 1);
    WalkEnd(c, url, 100, steps, 1);
    WalkItems(c, url, 100, steps, 1);
    var t := Walk(c, url, 100, steps, 1);
    forall i | 0 <= i <= |full|
      ensures t.requests[i] == PageRequest(c, url, 1 + 100 * i, 100)
    {
      WalkOffsets(c, url, 100, steps, 1, i);
      AdvanceFullPages(steps, i);
    }
    assert steps[..|steps|] == steps;
    YieldedFullPages(full, last);
  }

  lemma {:induction false} FirstStopFullPages(full: seq<seq<Json>>, last: seq<Json>)
    ensures FirstStop(FullPages(full) + [Last(last)]) == |full|
    decreases |full|
  {
    var steps := FullPages(full) + [Last(last)];
    if |full| > 0 {
      assert steps[1..] == FullPages(full[1..]) + [Last(last)];
      FirstStopFullPages(full[1..], last);
    }
  }

  lemma {:induction false} YieldedFullPages(full: seq<seq<Json>>, last: seq<Json>)
    ensures Yielded(FullPages(full) + [Last(last)]) == Concat(full) + last
    decreases |full|
  {
    var steps := FullPages(full) + [Last(last)];
    if |full| > 0 {
      assert steps[1..] == FullPages(full[1..]) + [Last(last)];
      YieldedFullPages(full[1..], last);
    } else {
      assert steps[1..] == [];
    }
  }

  /** Over decisions that all continue with a count of 100, the first `i` of them advance the offset by 100 * i. */
  lemma {:induction false} AdvanceFullPages(steps: seq<Step>, i: nat)
    requires i <= |steps|
    requires forall j :: 0 <= j < i ==> steps[j].Next? && steps[j].count == 100
    ensures Advance(steps[..i]) == 100 * i
  {
    if i > 0 {
      AdvanceFullPages(steps, i - 1);
      AdvanceSplit(steps[..i], i - 1);
      assert steps[..i][..i - 1] == steps[..i - 1];
      assert steps[..i][i - 1..] == [steps[i - 1]];
    }
  }

  /** The advance of a sequence of decisions is the advance of any prefix plus that of the rest. */
  lemma {:induction false} AdvanceSplit(steps: seq<Step>, k: nat)
    requires k <= |steps|
    ensures Advance(steps) == Advance(steps[..k]) + Advance(steps[k..])
    decreases k
  {
    if k > 0 {
      AdvanceSplit(steps[1..], k - 1);
      assert steps[1..][..k - 1] == steps[..k][1..];
      assert steps[1..][k - 1..] == steps[k..];
    } else {
      assert steps[k..] == steps;
    }
  }

  /** `{'error': {'message': message}}`, the body of an error reply. */
  function ErrorBody(message: Json): Json {
    JObj([("error", JObj([("message", message)]))])
  }

  /**
   A full first page followed by a 500: the first page's items stay yielded,
   both pages were asked for, and the traversal raises InternalServerError
   with the server's message.
   */
  lemma ErrorAfterFirstPage(c: Config, url: string, key: string, a: seq<Json>, message: Json)
    requires key != "count" && key != "limit"
    ensures var pages := [Page(key, a, 100, 100), Received(500, Some(ErrorBody(message)))];
      var t := Walk(c, url, 100, Steps(pages, key), 1);
      && t.items == a
      && |t.requests| == 2
      && t.end == Aborted(Api(InternalServerError, message))
  {
    var pages := [Page(key, a, 100, 100), Received(500, Some(ErrorBody(message)))];
    var steps := Steps(pages, key);
    assert steps[0] == Next(a, 100) by { DecidePage(key, a, 100, 100); }
    assert steps[1] == Stop([], Api(InternalServerError, message)) by { ServerErrorStops(key, message); }
    ContinueThenStop(c, url, steps, a, Api(InternalServerError, message));
  }

  /** A 500 reply carrying a message stops the loop with InternalServerError and that message, yielding nothing. */
  lemma ServerErrorStops(key: string, message: Json)
    ensures Decide(Received(500, Some(ErrorBody(message))), key) == Stop([], Api(InternalServerError, message))
  {
    var body := ErrorBody(message);
    assert PyOps.Subscript(body, "error") == Ok(JObj([("message", message)]));
    assert PyOps.Message(body) == Ok(message);
  }

  /** One full page and then a stop: both pages are requested, the first page's items are kept, and the stop's error ends it. */
  lemma ContinueThenStop(c: Config, url: string, steps: seq<Step>, a: seq<Json>, e: Error)
    requires |steps| == 2 && steps[0] == Next(a, 100) && steps[1] == Stop([], e)
    ensures var t := Walk(c, url, 100, steps, 1);
      t.items == a && |t.requests| == 2 && t.end == Aborted(e)
  {
    assert steps[1..] == [Stop([], e)];
    assert a + [] == a;
  }
}
