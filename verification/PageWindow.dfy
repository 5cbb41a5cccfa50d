/**
 The paging core of the startup pickers: at most two resident pages, and for each direction at most one page request in
 flight, named by a generation that is never used twice.
 */
module PageWindow {
  import opened Prelude

  const RESIDENT_PAGE_LIMIT := 2

  datatype Direction = Initial | Next | Previous

  datatype Boundary = Boundary(generation: nat, offset: int, index: int)

  datatype Request = Request(
    generation: nat,
    offset: int,
    direction: Direction,
    boundary: Option<Boundary>,
    crossing: bool,
    pageMove: bool,
    visibleDistance: int,
    pageMoveOverflow: int,
    move: int)

  /** What a caller asks for; the window adds the generation. */
  datatype Intent = Intent(
    offset: int,
    boundary: Option<Boundary>,
    crossing: bool,
    pageMove: bool,
    visibleDistance: int,
    pageMoveOverflow: int,
    move: int)

  datatype EdgeState = Unset | Unknown | Loading | Exhausted | Failed

  datatype Edge = Edge(
    state: EdgeState,
    requestedOffset: int,
    generation: nat,
    request: Option<Request>,
    failedRequest: Option<Request>)

  const NO_EDGE := Edge(Unset, 0, 0, None, None)

  datatype Paging = Paging(request: Option<Request>, generation: nat, nextEdge: Edge, previousEdge: Edge)

  const NO_PAGING := Paging(None, 0, NO_EDGE, NO_EDGE)

  // --- The bounded page lists ---

  /** The page goes last; the oldest page makes room. */
  function AppendBounded<T>(pages: seq<T>, page: T): (r: seq<T>)
    ensures 1 <= |r| <= RESIDENT_PAGE_LIMIT && |r| <= |pages| + 1 && r[|r| - 1] == page
    ensures |r| == if |pages| < RESIDENT_PAGE_LIMIT then |pages| + 1 else RESIDENT_PAGE_LIMIT
  {
    var grown := pages + [page];
    if |grown| > RESIDENT_PAGE_LIMIT then grown[|grown| - RESIDENT_PAGE_LIMIT..] else grown
  }

  /** The page goes first; the last page makes room. */
  function PrependBounded<T>(pages: seq<T>, page: T): (r: seq<T>)
    ensures 1 <= |r| <= RESIDENT_PAGE_LIMIT && |r| <= |pages| + 1 && r[0] == page
    ensures |r| == if |pages| < RESIDENT_PAGE_LIMIT then |pages| + 1 else RESIDENT_PAGE_LIMIT
  {
    var grown := [page] + pages;
    if |grown| > RESIDENT_PAGE_LIMIT then grown[..RESIDENT_PAGE_LIMIT] else grown
  }

  /** The bounded lists hold the new page and, unless it is the only one, its neighbour; nothing else stays. */
  lemma NewPageAndNeighbour<T>(pages: seq<T>, page: T)
    ensures AppendBounded(pages, page) == if pages == [] then [page] else [pages[|pages| - 1], page]
    ensures PrependBounded(pages, page) == if pages == [] then [page] else [page, pages[0]]
  {
  }

  // --- Requests ---

  function EdgeOf(p: Paging, d: Direction): Edge
    requires d != Initial
  {
    if d == Previous then p.previousEdge else p.nextEdge
  }

  function WithEdge(p: Paging, d: Direction, e: Edge): (r: Paging)
    requires d != Initial
    ensures EdgeOf(r, d) == e
  {
    if d == Previous then p.(previousEdge := e) else p.(nextEdge := e)
  }

  function RequestFor(p: Paging, d: Direction): Option<Request> {
    if d == Initial then p.request else EdgeOf(p, d).request
  }

  predicate HasPending(p: Paging) {
    p.request.Some? || p.previousEdge.request.Some? || p.nextEdge.request.Some?
  }

  function Issued(p: Paging, d: Direction, i: Intent): Request {
    Request(p.generation + 1, i.offset, d, i.boundary, i.crossing, i.pageMove, i.visibleDistance, i.pageMoveOverflow,
            i.move)
  }

  /** Begins a request unless that direction already has one in flight. */
  function Begin(p: Paging, d: Direction, i: Intent): Paging {
    if RequestFor(p, d).Some? then p
    else
      var r := Issued(p, d, i);
      var counted := p.(generation := r.generation);
      if d == Initial then counted.(request := Some(r))
      else
        WithEdge(counted, d,
                 EdgeOf(p, d).(state := Loading, requestedOffset := i.offset, generation := r.generation,
                               request := Some(r)))
  }

  /** The request is the one in flight for its direction. */
  predicate Active(p: Paging, r: Request) {
    RequestFor(p, r.direction) == Some(r)
  }

  function Complete(p: Paging, r: Request): Paging {
    if !Active(p, r) then p
    else if r.direction == Initial then p.(request := None)
    else WithEdge(p, r.direction, EdgeOf(p, r.direction).(request := None, failedRequest := None))
  }

  function Fail(p: Paging, r: Request): Paging {
    if !Active(p, r) then p
    else if r.direction == Initial then p.(request := None)
    else
      WithEdge(p, r.direction,
               EdgeOf(p, r.direction).(state := Failed, requestedOffset := r.offset, generation := r.generation,
                                       request := None, failedRequest := Some(r)))
  }

  function Cleared(p: Paging): Paging {
    p.(request := None, nextEdge := NO_EDGE, previousEdge := NO_EDGE)
  }

  // --- What a request carries and what is remembered of it ---

  /** A request begun is what was asked for, under a new number; its edge shows it. */
  lemma BegunIsWhatWasAsked(p: Paging, d: Direction, i: Intent)
    requires RequestFor(p, d).None?
    ensures var q := Begin(p, d, i);
            var r := RequestFor(q, d);
            && r.Some? && r.value.generation == p.generation + 1 == q.generation && r.value.direction == d
            && r.value.offset == i.offset && r.value.boundary == i.boundary && r.value.crossing == i.crossing
            && r.value.pageMove == i.pageMove && r.value.visibleDistance == i.visibleDistance
            && r.value.pageMoveOverflow == i.pageMoveOverflow && r.value.move == i.move
            && (d != Initial ==>
                  var e := EdgeOf(q, d);
                  && e.state == Loading && e.requestedOffset == i.offset && e.generation == r.value.generation
                  && e.failedRequest == EdgeOf(p, d).failedRequest)
  {
  }

  /** An edge that fails remembers its request for another try; one that completes, or a reset, remembers none. */
  lemma FailureIsRemembered(p: Paging, r: Request)
    requires RequestFor(p, r.direction) == Some(r)
    ensures RequestFor(Fail(p, r), r.direction).None? && RequestFor(Complete(p, r), r.direction).None?
    ensures r.direction != Initial ==>
              var failed, done := EdgeOf(Fail(p, r), r.direction), EdgeOf(Complete(p, r), r.direction);
              && failed.state == Failed && failed.failedRequest == Some(r)
              && failed.requestedOffset == r.offset && failed.generation == r.generation
              && done.failedRequest.None? && done.state == EdgeOf(p, r.direction).state
    ensures var q := Cleared(p);
            !HasPending(q) && q.generation == p.generation && q.nextEdge.failedRequest.None? && q.previousEdge.failedRequest.None?
            && q.nextEdge.state == Unset && q.previousEdge.state == Unset
  {
  }

  // --- Every run of the window ---

  datatype Op = OpBegin(direction: Direction, intent: Intent) | OpComplete(request: Request) | OpFail(request: Request)
              | OpReset

  function Apply(p: Paging, op: Op): Paging {
    match op
    case OpBegin(d, i) => Begin(p, d, i)
    case OpComplete(r) => Complete(p, r)
    case OpFail(r) => Fail(p, r)
    case OpReset => Cleared(p)
  }

  function Run(p: Paging, ops: seq<Op>): Paging
    decreases |ops|
  {
    if ops == [] then p else Run(Apply(p, ops[0]), ops[1..])
  }

  predicate Filed(slot: Option<Request>, d: Direction, generation: nat) {
    slot.Some? ==> slot.value.direction == d && 1 <= slot.value.generation <= generation
  }

  predicate Apart(a: Option<Request>, b: Option<Request>) {
    a.Some? && b.Some? ==> a.value.generation != b.value.generation
  }

  /** Requests in flight sit in their own direction's slot and carry generations already handed out, no two alike. */
  predicate Distinct(p: Paging) {
    && Filed(p.request, Initial, p.generation)
    && Filed(p.nextEdge.request, Next, p.generation)
    && Filed(p.previousEdge.request, Previous, p.generation)
    && Apart(p.request, p.nextEdge.request)
    && Apart(p.request, p.previousEdge.request)
    && Apart(p.nextEdge.request, p.previousEdge.request)
  }

  /** A request that has been answered or abandoned: its generation is spent and it is not in flight. */
  predicate Spent(p: Paging, r: Request) {
    r.generation <= p.generation && !Active(p, r)
  }

  lemma BeginIsFresh(p: Paging, d: Direction, i: Intent)
    requires Distinct(p) && RequestFor(p, d).None?
    ensures Distinct(Begin(p, d, i)) && Active(Begin(p, d, i), Issued(p, d, i))
    ensures forall e: Direction :: e != d ==> RequestFor(Begin(p, d, i), e) == RequestFor(p, e)
  {
  }

  lemma AnswerKeepsDistinct(p: Paging, r: Request)
    requires Distinct(p)
    ensures Distinct(Complete(p, r)) && Distinct(Fail(p, r))
  {
  }

  lemma OpKeepsDistinct(p: Paging, op: Op)
    requires Distinct(p)
    ensures Distinct(Apply(p, op))
  {
    if op.OpBegin? && RequestFor(p, op.direction).None? {
      BeginIsFresh(p, op.direction, op.intent);
    } else if op.OpComplete? || op.OpFail? {
      AnswerKeepsDistinct(p, op.request);
    }
  }

  /** No operation brings a spent request back. */
  lemma OpStaysSpent(p: Paging, op: Op, r: Request)
    requires Spent(p, r)
    ensures Spent(Apply(p, op), r)
  {
  }

  /**
   However requests, answers, failures and resets interleave: requests in flight stay distinct, and a request that was
   answered or abandoned is never again the one in flight, so a repeated answer to it changes nothing.
   */
  lemma {:induction false} AnsweredAtMostOnce(p: Paging, ops: seq<Op>, r: Request)
    requires Distinct(p) && Spent(p, r)
    ensures Distinct(Run(p, ops))
    ensures Complete(Run(p, ops), r) == Run(p, ops) == Fail(Run(p, ops), r)
    decreases |ops|
  {
    if ops != [] {
      OpKeepsDistinct(p, ops[0]);
      OpStaysSpent(p, ops[0], r);
      AnsweredAtMostOnce(Apply(p, ops[0]), ops[1..], r);
    }
  }

  /** Answering spends a request, whichever way it is answered. */
  lemma AnswerSpends(p: Paging, r: Request)
    requires Distinct(p) && Active(p, r)
    ensures Spent(Complete(p, r), r) && Spent(Fail(p, r), r) && Spent(Cleared(p), r)
    ensures forall d: Direction :: d != r.direction ==>
                                     RequestFor(Complete(p, r), d) == RequestFor(p, d) == RequestFor(Fail(p, r), d)
  {
    assert RequestFor(p, r.direction).Some?;
  }

  // --- The window as the pickers hold it ---

  class Window<P> {
    var segments: seq<P>
    var request: Option<Request>
    var generation: nat
    var nextEdge: Edge
    var previousEdge: Edge

    function Paged(): Paging
      reads this
    {
      Paging(request, generation, nextEdge, previousEdge)
    }

    constructor ()
      ensures segments == [] && Paged() == NO_PAGING
    {
      segments, request, generation, nextEdge, previousEdge := [], None, 0, NO_EDGE, NO_EDGE;
    }

    method Reset()
      modifies this
      ensures segments == [] && Paged() == Cleared(old(Paged()))
    {
      segments := [];
      request := None;
      nextEdge := NO_EDGE;
      previousEdge := NO_EDGE;
    }

    method SetEdge(d: Direction, e: Edge)
      requires d != Initial
      modifies this`nextEdge, this`previousEdge
      ensures Paged() == WithEdge(old(Paged()), d, e)
    {
      if d == Previous {
        previousEdge := e;
      } else {
        nextEdge := e;
      }
    }

    method BeginRequest(d: Direction, i: Intent) returns (begun: Option<Request>)
      modifies this`request, this`generation, this`nextEdge, this`previousEdge
      ensures begun.Some? <==> RequestFor(old(Paged()), d).None?
      ensures begun.Some? ==> begun.value == Issued(old(Paged()), d, i)
      ensures Paged() == Begin(old(Paged()), d, i)
    {
      if RequestFor(Paged(), d).Some? {
        return None;
      }
      generation := generation + 1;
      var r := Request(generation, i.offset, d, i.boundary, i.crossing, i.pageMove, i.visibleDistance,
                       i.pageMoveOverflow, i.move);
      if d == Initial {
        request := Some(r);
      } else {
        var edge := EdgeOf(Paged(), d);
        edge := edge.(request := Some(r));
        edge := edge.(state := Loading);
        edge := edge.(requestedOffset := i.offset);
        edge := edge.(generation := r.generation);
        SetEdge(d, edge);
      }
      begun := Some(r);
    }

    method CompleteRequest(r: Request) returns (answered: bool)
      modifies this`request, this`nextEdge, this`previousEdge
      ensures answered == Active(old(Paged()), r)
      ensures Paged() == Complete(old(Paged()), r)
    {
      var active := RequestFor(Paged(), r.direction);
      if active.None? || active.value != r {
        return false;
      }
      if r.direction == Initial {
        request := None;
      } else {
        var edge := EdgeOf(Paged(), r.direction);
        SetEdge(r.direction, edge.(request := None, failedRequest := None));
      }
      answered := true;
    }

    method FailRequest(r: Request) returns (answered: bool)
      modifies this`request, this`nextEdge, this`previousEdge
      ensures answered == Active(old(Paged()), r)
      ensures Paged() == Fail(old(Paged()), r)
    {
      var active := RequestFor(Paged(), r.direction);
      if active.None? || active.value != r {
        return false;
      }
      if r.direction == Initial {
        request := None;
      } else {
        var edge := EdgeOf(Paged(), r.direction);
        edge := edge.(request := None);
        edge := edge.(state := Failed);
        edge := edge.(requestedOffset := r.offset);
        edge := edge.(generation := r.generation);
        edge := edge.(failedRequest := Some(r));
        SetEdge(r.direction, edge);
      }
      answered := true;
    }
  }
}
