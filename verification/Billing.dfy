/** From an answered request to the ledger: one report per request, a bounded queue that drops
    rather than blocks, a drain that sends in order, and what all of that adds up to. */
module Billing {
  import opened Base
  import opened Deployments
  import opened Ledger
  import opened Routers

  // ---- forwarding to one replica ----

  datatype TokenUsage = TokenUsage(prompt: Count, completion: Count)

  /** What the reverse proxy reports back while it forwards, in order. */
  datatype Callback = ResponseStarted | ProxyFailed

  /** One attempt: whether the address parses, what the reverse proxy called back, whether the
      body of a started response was copied to its end, and the usage block the capture found in
      the passing body, if any. */
  datatype Forwarding = Forwarding(parses: bool, callbacks: seq<Callback>, copied: bool, captured: Option<TokenUsage>)

  datatype Forwarded = NothingWritten | Answered | Aborted

  datatype Request = Request(id: string, model: string, apiKey: string, at: Time)

  /** Nothing reached the client: there was nowhere to go, or failing was the first thing that happened. */
  predicate WroteNothing(f: Forwarding) {
    !f.parses || (f.callbacks != [] && f.callbacks[0] == ProxyFailed)
  }

  /** The response broke off: the reverse proxy aborts the handler, which runs no further. */
  predicate Aborts(f: Forwarding) {
    !WroteNothing(f) && ResponseStarted in f.callbacks && !f.copied
  }

  /** A usage block can only come out of a response that started, and is only reported when the
      response ended. */
  function Metered(f: Forwarding): Option<TokenUsage> {
    if WroteNothing(f) || Aborts(f) || ResponseStarted !in f.callbacks then None else f.captured
  }

  function RecordOf(r: Request, e: Endpoint, u: TokenUsage): UsageRecord {
    UsageRecord(r.id, Some(r.at), r.model, e.node, e.dep, r.apiKey, u.prompt, u.completion)
  }

  /** Every field of the record is what it should be. */
  predicate Credits(rec: UsageRecord, r: Request, e: Endpoint, u: TokenUsage) {
    && rec.requestId == r.id && rec.model == r.model && rec.apiKey == r.apiKey && rec.timestamp == Some(r.at)
    && rec.node == e.node && rec.deployment == e.dep
    && rec.promptTokens == u.prompt && rec.completionTokens == u.completion
  }

  function ReportsOf(r: Request, e: Endpoint, f: Forwarding): seq<UsageRecord> {
    if Metered(f).Some? then [RecordOf(r, e, Metered(f).value)] else []
  }

  /** Says that nothing was written exactly when nothing was, so that the caller may try elsewhere.
      A failure after the response has started is too late for that, and a response that breaks
      off takes its report with it. */
  method Forward(r: Request, e: Endpoint, f: Forwarding) returns (result: Forwarded, reports: seq<UsageRecord>)
    ensures result == NothingWritten <==> WroteNothing(f)
    ensures result == Aborted <==> Aborts(f)
    ensures reports == ReportsOf(r, e, f)
    ensures result == NothingWritten <==> !f.parses || (f.callbacks != [] && f.callbacks[0] == ProxyFailed)
    ensures |reports| <= 1
    ensures reports != [] <==>
      && f.parses && f.callbacks != [] && f.callbacks[0] != ProxyFailed && f.copied && f.captured.Some?
    ensures reports != [] ==> Credits(reports[0], r, e, f.captured.value)
  {
    if !f.parses {
      return NothingWritten, [];
    }
    var failed, wrote := false, false;
    for i := 0 to |f.callbacks|
      invariant wrote <==> ResponseStarted in f.callbacks[..i]
      invariant failed <==> i > 0 && f.callbacks[0] == ProxyFailed
    {
      match f.callbacks[i]
      case ResponseStarted => wrote := true;
      case ProxyFailed =>
        if !wrote {
          assert forall j | 0 <= j < i :: f.callbacks[..i][j] == ProxyFailed;
          failed := true;
        }
    }
    assert f.callbacks[..|f.callbacks|] == f.callbacks;
    if !failed && wrote && !f.copied {
      return Aborted, [];
    }
    if failed {
      return NothingWritten, [];
    }
    if wrote && f.captured.Some? {
      return Answered, [RecordOf(r, e, f.captured.value)];
    }
    return Answered, [];
  }

  // ---- the request handler ----

  datatype Reply = BadRequest | RoutingError | Proxied | BadGateway | BrokenOff

  function ReplyOf(f: Forwarding): Reply {
    if WroteNothing(f) then BadGateway else if Aborts(f) then BrokenOff else Proxied
  }

  /** One try as the environment plays it: when it happens, what the coordinator answers if it
      is asked for replicas, and how forwarding goes. */
  datatype Try = Try(now: Time, answer: Answer, fares: Forwarding)

  datatype Handling = Handling(cache: Cache, tried: seq<Endpoint>, reports: seq<UsageRecord>, reply: Reply)

  /** What handling a request comes to: pick and forward; when nothing was written, invalidate,
      pick another deployment and forward once more. */
  function Handled(cache: Cache, r: Request, first: Try, second: Try): Handling {
    var pick := Picked(cache, r.model, first.now, first.answer);
    var picked := AfterPick(cache, r.model, first.now, first.answer);
    if r.model == "" then Handling(cache, [], [], BadRequest)
    else if pick.NotFound? then Handling(picked, [], [], RoutingError)
    else if !WroteNothing(first.fares) then
      Handling(picked, [pick.value], ReportsOf(r, pick.value, first.fares), ReplyOf(first.fares))
    else
      var dropped := picked - {r.model};
      var other := PickedOther(dropped, r.model, pick.value.dep, second.now, second.answer);
      var looked := LookedUp(dropped, r.model, second.now, second.answer);
      if other.NotFound? then Handling(looked, [pick.value], [], BadGateway)
      else Handling(looked, [pick.value, other.value], ReportsOf(r, other.value, second.fares), ReplyOf(second.fares))
  }

  /** How the last replica tried fared. */
  function LastTry(h: Handling, first: Try, second: Try): Try {
    if |h.tried| == 2 then second else first
  }

  /** A request reaches the client at most once and is reported at most once, under its own id
      and to the replica that answered. A second replica is tried only when the first wrote
      nothing; it is of another deployment and in the coordinator's answer to this very retry,
      and when that answer names another deployment at all it is tried. */
  lemma HandledRight(cache: Cache, r: Request, first: Try, second: Try)
    ensures var h := Handled(cache, r, first, second);
      var last := LastTry(h, first, second);
      && |h.tried| <= 2 && |h.reports| <= 1
      && (h.tried != [] <==> Picked(cache, r.model, first.now, first.answer).Found?)
      && (h.tried != [] ==> h.tried[0] == Picked(cache, r.model, first.now, first.answer).value)
      && (|h.tried| == 2 <==>
            && h.tried != [] && WroteNothing(first.fares)
            && second.answer.Resolved? && exists e | e in second.answer.replicas :: e.dep != h.tried[0].dep)
      && (|h.tried| == 2 ==> h.tried[1] in second.answer.replicas && h.tried[1].dep != h.tried[0].dep)
      && (h.tried != [] && WroteNothing(first.fares) && r.model in h.cache ==>
            h.cache[r.model].fetchedAt == second.now && h.cache[r.model].next == 0)
      && (h.reply == Proxied <==> h.tried != [] && !WroteNothing(last.fares) && !Aborts(last.fares))
      && (h.reply == BrokenOff <==> h.tried != [] && Aborts(last.fares))
      && (h.reply == BadRequest <==> r.model == "") && (h.reply == RoutingError <==> r.model != "" && h.tried == [])
      && (h.reports != [] <==> h.tried != [] && Metered(last.fares).Some?)
      && (h.reports != [] ==>
            h.reply == Proxied && last.fares.captured.Some? && Credits(h.reports[0], r, Last(h.tried), last.fares.captured.value))
  {
    var pick := Picked(cache, r.model, first.now, first.answer);
    if r.model != "" && pick.Found? && WroteNothing(first.fares) {
      var dropped := AfterPick(cache, r.model, first.now, first.answer) - {r.model};
      if second.answer.Resolved? {
        FirstOtherIs(second.answer.replicas, pick.value.dep);
      }
      assert !IsFresh(dropped, r.model, second.now);
    }
  }

  // ---- the reporter's queue ----

  const QUEUE_SIZE := 1024

  /** The reporter and the ledger behind it. `reported` is every Report so far, `attempted`
      every record handed to the coordinator, `dropped` what a full queue refused, and
      `refused` what the coordinator failed to store. */
  datatype Pipe = Pipe(
    reported: seq<UsageRecord>,
    queue: seq<UsageRecord>,
    attempted: seq<UsageRecord>,
    dropped: seq<UsageRecord>,
    refused: seq<UsageRecord>,
    rows: seq<Row>)

  function EmptyPipe(): Pipe {
    Pipe([], [], [], [], [], [])
  }

  function Enqueued(p: Pipe, rec: UsageRecord): Pipe {
    var p' := p.(reported := p.reported + [rec]);
    if |p.queue| < QUEUE_SIZE then p'.(queue := p.queue + [rec]) else p'.(dropped := p.dropped + [rec])
  }

  /** Takes the oldest record off the queue and reports it; there is no retry. */
  function SentOne(p: Pipe, now: Time, works: bool): Pipe
    requires p.queue != []
  {
    var rec := p.queue[0];
    var rows := KeyedInsert(p.rows, Insertion(rec, now, works));
    p.(queue := p.queue[1..], attempted := p.attempted + [rec], rows := rows,
       refused := if rows == p.rows then p.refused + [rec] else p.refused)
  }

  datatype PipeEvent = ReportEvent(rec: UsageRecord) | SendEvent(now: Time, works: bool)

  ghost predicate PipeEnabled(p: Pipe, e: PipeEvent) {
    e.SendEvent? ==> p.queue != []
  }

  function PipeStep(p: Pipe, e: PipeEvent): Pipe
    requires PipeEnabled(p, e)
  {
    match e
    case ReportEvent(rec) => Enqueued(p, rec)
    case SendEvent(now, works) => SentOne(p, now, works)
  }

  ghost predicate PipeRuns(run: seq<PipeEvent>)
    decreases |run|, 0
  {
    run == [] || (PipeRuns(Init(run)) && PipeEnabled(PipeAfter(Init(run)), Last(run)))
  }

  ghost function PipeAfter(run: seq<PipeEvent>): Pipe
    requires PipeRuns(run)
    decreases |run|, 1
  {
    if run == [] then EmptyPipe() else PipeStep(PipeAfter(Init(run)), Last(run))
  }

  class Reporter {
    const connected: bool
    var queue: seq<UsageRecord>
    var droppedCount: nat
    ghost var pipe: Pipe

    ghost predicate Valid()
      reads this
    {
      pipe.queue == queue && |pipe.dropped| == droppedCount
    }

    constructor (connected: bool)
      ensures this.connected == connected && Valid() && pipe == EmptyPipe()
    {
      this.connected := connected;
      queue, droppedCount, pipe := [], 0, EmptyPipe();
    }

    /** Never blocks: a full queue drops the record and counts it. Without a coordinator
        connection reporting is disabled. */
    method Report(rec: UsageRecord)
      requires Valid()
      modifies this
      ensures Valid()
      ensures pipe == if connected then Enqueued(old(pipe), rec) else old(pipe)
      ensures queue == if connected && |old(queue)| < 1024 then old(queue) + [rec] else old(queue)
      ensures droppedCount == if connected && |old(queue)| >= 1024 then old(droppedCount) + 1 else old(droppedCount)
    {
      if !connected {
        return;
      }
      pipe := Enqueued(pipe, rec);
      if |queue| < QUEUE_SIZE {
        queue := queue + [rec];
      } else {
        droppedCount := droppedCount + 1;
      }
    }

    /** One receive of the drain loop: the oldest record goes to the coordinator, which stores
        it or not. */
    method SendNext(now: Time) returns (works: bool)
      requires Valid() && queue != []
      modifies this
      ensures Valid() && pipe == SentOne(old(pipe), now, works)
      ensures queue == old(queue)[1..] && pipe.attempted == old(pipe.attempted) + [old(queue)[0]]
      ensures droppedCount == old(droppedCount)
    {
      works := *;
      pipe := SentOne(pipe, now, works);
      queue := queue[1..];
    }

    /** The last act of the drain: everything queued is attempted, in order, and nothing is left. */
    method Flush(now: Time)
      requires Valid()
      modifies this
      ensures Valid() && queue == []
      ensures pipe.attempted == old(pipe.attempted) + old(queue)
      ensures pipe.reported == old(pipe.reported) && pipe.dropped == old(pipe.dropped)
    {
      while queue != []
        invariant Valid()
        invariant pipe.attempted + queue == old(pipe.attempted) + old(queue)
        invariant pipe.reported == old(pipe.reported) && pipe.dropped == old(pipe.dropped)
        decreases |queue|
      {
        assert pipe.attempted + queue == pipe.attempted + [queue[0]] + queue[1..];
        var _ := SendNext(now);
      }
      assert pipe.attempted + [] == pipe.attempted;
    }
  }

  // ---- conservation ----

  /** r is an order-preserving merge of a and b. */
  ghost predicate Merges(r: seq<UsageRecord>, a: seq<UsageRecord>, b: seq<UsageRecord>)
    decreases |r|
  {
    if r == [] then a == [] && b == []
    else
      || (a != [] && Last(a) == Last(r) && Merges(Init(r), Init(a), b))
      || (b != [] && Last(b) == Last(r) && Merges(Init(r), a, Init(b)))
  }

  lemma MergesSnoc(r: seq<UsageRecord>, a: seq<UsageRecord>, b: seq<UsageRecord>, x: UsageRecord)
    requires Merges(r, a, b)
    ensures Merges(r + [x], a + [x], b) && Merges(r + [x], a, b + [x])
  {
    Snoc(r, x);
    Snoc(a, x);
    Snoc(b, x);
  }

  lemma {:induction false} MergedLengths(r: seq<UsageRecord>, a: seq<UsageRecord>, b: seq<UsageRecord>)
    requires Merges(r, a, b)
    ensures |r| == |a| + |b|
    decreases |r|
  {
    if r == [] {
    } else {
      if a != [] && Last(a) == Last(r) && Merges(Init(r), Init(a), b) {
        MergedLengths(Init(r), Init(a), b);
      } else {
        MergedLengths(Init(r), a, Init(b));
      }
    }
  }

  /** Tokens of one kind, the prompt's or the completion's. */
  datatype Kind = PromptKind | CompletionKind

  function CountOf(rec: UsageRecord, kind: Kind): int {
    if kind == PromptKind then rec.promptTokens else rec.completionTokens
  }

  function Tokens(recs: seq<UsageRecord>, kind: Kind): int
    decreases |recs|
  {
    if recs == [] then 0 else Tokens(Init(recs), kind) + CountOf(Last(recs), kind)
  }

  function Stored(rows: seq<Row>, kind: Kind): int
    decreases |rows|
  {
    if rows == [] then 0
    else Stored(Init(rows), kind) + (if kind == PromptKind then Last(rows).promptTokens else Last(rows).completionTokens)
  }

  lemma TokensSnoc(recs: seq<UsageRecord>, x: UsageRecord, kind: Kind)
    ensures Tokens(recs + [x], kind) == Tokens(recs, kind) + CountOf(x, kind)
  {
    Snoc(recs, x);
  }

  lemma {:induction false} TokensHead(recs: seq<UsageRecord>, kind: Kind)
    requires recs != []
    ensures Tokens(recs, kind) == CountOf(recs[0], kind) + Tokens(recs[1..], kind)
    decreases |recs|
  {
    if |recs| > 1 {
      TokensHead(Init(recs), kind);
      assert Init(recs)[1..] == Init(recs[1..]) && Last(recs[1..]) == Last(recs);
    } else {
      assert Init(recs) == [] && recs[1..] == [];
    }
  }

  ghost predicate PipeInv(p: Pipe) {
    && |p.queue| <= QUEUE_SIZE
    && Merges(p.reported, p.attempted + p.queue, p.dropped)
    && OneRowPerId(p.rows)
    && (forall kind :: Conserved(p, kind))
  }

  /** Every token of the kind that was reported is stored, queued, dropped or refused. */
  ghost predicate Conserved(p: Pipe, kind: Kind) {
    Tokens(p.reported, kind) == Stored(p.rows, kind) + Tokens(p.queue, kind) + Tokens(p.dropped, kind) + Tokens(p.refused, kind)
  }

  lemma ReportKeeps(p: Pipe, rec: UsageRecord)
    requires PipeInv(p)
    ensures PipeInv(Enqueued(p, rec))
  {
    MergesSnoc(p.reported, p.attempted + p.queue, p.dropped, rec);
    assert p.attempted + (p.queue + [rec]) == (p.attempted + p.queue) + [rec];
    forall kind ensures Conserved(Enqueued(p, rec), kind) {
      ReportConserves(p, rec, kind);
    }
  }

  lemma ReportConserves(p: Pipe, rec: UsageRecord, kind: Kind)
    requires Conserved(p, kind)
    ensures Conserved(Enqueued(p, rec), kind)
  {
    TokensSnoc(p.reported, rec, kind);
    TokensSnoc(p.queue, rec, kind);
    TokensSnoc(p.dropped, rec, kind);
  }

  /** Whatever the record, the ledger ends up unchanged or with exactly its counts under a new id. */
  lemma StoredOrNot(rows: seq<Row>, rec: UsageRecord, now: Time, works: bool)
    requires OneRowPerId(rows)
    ensures var rows' := KeyedInsert(rows, Insertion(rec, now, works));
      && OneRowPerId(rows')
      && (rows' != rows ==> forall kind :: Stored(rows', kind) == Stored(rows, kind) + CountOf(rec, kind))
  {
    var row := RowOf(Insertion(rec, now, works), rec.promptTokens, rec.completionTokens);
    Snoc(rows, row);
    assert forall i | 0 <= i < |rows| :: HasId(rows, rows[i].requestId);
  }

  lemma SendKeeps(p: Pipe, now: Time, works: bool)
    requires PipeInv(p) && p.queue != []
    ensures PipeInv(SentOne(p, now, works))
  {
    var rec := p.queue[0];
    var p' := SentOne(p, now, works);
    assert p'.attempted + p'.queue == p.attempted + p.queue;
    StoredOrNot(p.rows, rec, now, works);
    forall kind ensures Conserved(p', kind) {
      assert Conserved(p, kind);
      TokensHead(p.queue, kind);
      TokensSnoc(p.refused, rec, kind);
    }
  }

  lemma {:induction false} PipeRunKeeps(run: seq<PipeEvent>)
    requires PipeRuns(run)
    ensures PipeInv(PipeAfter(run))
    decreases |run|
  {
    if run == [] {
    } else {
      PipeRunKeeps(Init(run));
      var p := PipeAfter(Init(run));
      match Last(run)
      case ReportEvent(rec) => ReportKeeps(p, rec);
      case SendEvent(now, works) => SendKeeps(p, now, works);
    }
  }

  /** Billing conservation, over every interleaving of reports and sends and for every record:
      each report has been attempted, is queued, or was dropped, the first two in report order;
      the queue is never over its bound; every token reported is in the ledger, in the queue,
      dropped, or refused by the ledger; and the ledger has one row per request id. */
  lemma {:induction false} BillingConserves(run: seq<PipeEvent>)
    requires PipeRuns(run)
    ensures var p := PipeAfter(run);
      && |p.reported| == |p.attempted| + |p.queue| + |p.dropped|
      && Merges(p.reported, p.attempted + p.queue, p.dropped)
      && |p.queue| <= 1024
      && (forall kind :: Conserved(p, kind))
      && OneRowPerId(p.rows)
  {
    PipeRunKeeps(run);
    var p := PipeAfter(run);
    MergedLengths(p.reported, p.attempted + p.queue, p.dropped);
  }

  // ---- the gateway as a whole ----

  ghost predicate DistinctIds(recs: seq<UsageRecord>) {
    forall i, j | 0 <= i < j < |recs| :: recs[i].requestId != recs[j].requestId
  }

  /** The routing cache, the reporting pipe behind a live connection, and the ids handed out. */
  datatype GatewayState = GatewayState(cache: Cache, pipe: Pipe, served: set<string>)

  datatype GatewayEvent =
    | Serve(r: Request, first: Try, second: Try)
    | SendReport(now: Time, works: bool)

  /** Every request gets an id of its own, minted once and kept across the retry. */
  predicate GatewayEnabled(g: GatewayState, e: GatewayEvent) {
    match e
    case Serve(r, _, _) => r.id !in g.served
    case SendReport(_, _) => g.pipe.queue != []
  }

  function Piped(p: Pipe, reports: seq<UsageRecord>): Pipe {
    if reports == [] then p else Enqueued(p, reports[0])
  }

  function GatewayStep(g: GatewayState, e: GatewayEvent): GatewayState
    requires GatewayEnabled(g, e)
  {
    match e
    case Serve(r, first, second) =>
      var h := Handled(g.cache, r, first, second);
      GatewayState(h.cache, Piped(g.pipe, h.reports), g.served + {r.id})
    case SendReport(now, works) => g.(pipe := SentOne(g.pipe, now, works))
  }

  ghost predicate GatewayRuns(run: seq<GatewayEvent>)
    decreases |run|, 0
  {
    run == [] || (GatewayRuns(Init(run)) && GatewayEnabled(GatewayAfter(Init(run)), Last(run)))
  }

  ghost function GatewayAfter(run: seq<GatewayEvent>): GatewayState
    requires GatewayRuns(run)
    decreases |run|, 1
  {
    if run == [] then GatewayState(map[], EmptyPipe(), {}) else GatewayStep(GatewayAfter(Init(run)), Last(run))
  }

  /** What a run of the gateway does to its pipe. */
  ghost function PipeTrace(run: seq<GatewayEvent>): seq<PipeEvent>
    requires GatewayRuns(run)
    decreases |run|
  {
    if run == [] then []
    else
      var before := PipeTrace(Init(run));
      match Last(run)
      case Serve(r, first, second) =>
        var h := Handled(GatewayAfter(Init(run)).cache, r, first, second);
        if h.reports == [] then before else before + [ReportEvent(h.reports[0])]
      case SendReport(now, works) => before + [SendEvent(now, works)]
  }

  ghost predicate BilledOnce(g: GatewayState) {
    DistinctIds(g.pipe.reported) && forall i | 0 <= i < |g.pipe.reported| :: g.pipe.reported[i].requestId in g.served
  }

  lemma ServeBillsOnce(g: GatewayState, r: Request, first: Try, second: Try)
    requires BilledOnce(g) && r.id !in g.served
    ensures BilledOnce(GatewayStep(g, Serve(r, first, second)))
  {
    HandledRight(g.cache, r, first, second);
  }

  lemma PipeSnoc(run: seq<PipeEvent>, e: PipeEvent)
    requires PipeRuns(run) && PipeEnabled(PipeAfter(run), e)
    ensures PipeRuns(run + [e]) && PipeAfter(run + [e]) == PipeStep(PipeAfter(run), e)
  {
    Snoc(run, e);
  }

  /** In every run of the gateway, whatever the router and the replicas do, no two reports carry
      the same request id, and the pipe is in a state of a pipe run, so that everything said
      about those is true of it. */
  lemma {:induction false} GatewayBillsOnce(run: seq<GatewayEvent>)
    requires GatewayRuns(run)
    ensures BilledOnce(GatewayAfter(run))
    ensures PipeRuns(PipeTrace(run)) && PipeAfter(PipeTrace(run)) == GatewayAfter(run).pipe
    decreases |run|
  {
    if run == [] {
    } else {
      GatewayBillsOnce(Init(run));
      var g, before := GatewayAfter(Init(run)), PipeTrace(Init(run));
      match Last(run)
      case Serve(r, first, second) =>
        ServeBillsOnce(g, r, first, second);
        var h := Handled(g.cache, r, first, second);
        if h.reports != [] {
          PipeSnoc(before, ReportEvent(h.reports[0]));
        }
      case SendReport(now, works) => PipeSnoc(before, SendEvent(now, works));
    }
  }

  class Gateway {
    const router: Router
    const reporter: Reporter
    ghost var served: set<string>

    /** The object is in state g. */
    ghost predicate Shows(g: GatewayState)
      reads this, router, reporter
    {
      && reporter.connected && reporter.Valid()
      && g == GatewayState(router.cache, reporter.pipe, served)
    }

    constructor ()
      ensures Shows(GatewayState(map[], EmptyPipe(), {}))
      ensures fresh(router) && fresh(reporter)
    {
      router := new Router();
      reporter := new Reporter(true);
      served := {};
    }

    /** Handles one request: exactly the step of the state machine. */
    method HandleInference(r: Request, first: Try, second: Try, ghost g: GatewayState)
      returns (reply: Reply, tried: seq<Endpoint>, reports: seq<UsageRecord>)
      requires Shows(g) && GatewayEnabled(g, Serve(r, first, second))
      modifies this, router, reporter
      ensures Shows(GatewayStep(g, Serve(r, first, second)))
      ensures Handled(g.cache, r, first, second) == Handling(router.cache, tried, reports, reply)
    {
      served := served + {r.id};
      if r.model == "" {
        return BadRequest, [], [];
      }
      var pick := router.Pick(r.model, first.now, first.answer);
      if pick.NotFound? {
        return RoutingError, [], [];
      }
      var result, out := Forward(r, pick.value, first.fares);
      if result == Aborted {
        return BrokenOff, [pick.value], [];
      }
      if result == Answered {
        ReportAll(out);
        return Proxied, [pick.value], out;
      }
      router.Invalidate(r.model);
      var other := router.PickExcluding(r.model, pick.value.dep, second.now, second.answer);
      if other.NotFound? {
        return BadGateway, [pick.value], [];
      }
      result, out := Forward(r, other.value, second.fares);
      if result == Aborted {
        return BrokenOff, [pick.value, other.value], [];
      }
      ReportAll(out);
      return if result == Answered then Proxied else BadGateway, [pick.value, other.value], out;
    }

    /** Hands the report of an answer to the reporter, if there is one. */
    method ReportAll(reports: seq<UsageRecord>)
      requires reporter.Valid() && reporter.connected && |reports| <= 1
      modifies reporter
      ensures reporter.Valid() && reporter.pipe == Piped(old(reporter.pipe), reports)
    {
      if reports != [] {
        reporter.Report(reports[0]);
      }
    }
  }
}
