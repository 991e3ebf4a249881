/**
 How a broker's two workers end and report (internal/dutagent/session/broker.go):
 each returns, posts its error if it has one, cancels its companion and leaves
 the wait group; when both have left, the error channel is closed.
 */
module ErrChannel {
  import opened Base

  const NUM_WORKERS := 2

  datatype Err = BadFileTransfer | StreamFailed

  datatype Worker = ToClient | FromClient

  /** How far a worker's goroutine has got; err is what its worker function returned. */
  datatype Stage =
    | Working
    | Returned(err: Option<Err>)
    | Posted(err: Option<Err>)
    | Cancelling(err: Option<Err>)
    | Left(err: Option<Err>)

  /** One worker: where it is, and every error it has ever sent. */
  datatype Side = Side(stage: Stage, sent: seq<Err>)

  /** queue is what the channel holds; history is all it has ever been given, received all it has given out. */
  datatype Broker = Broker(toClient: Side, fromClient: Side, queue: seq<Err>, closed: bool, history: seq<Err>,
                           received: seq<Err>)

  const FRESH := Broker(Side(Working, []), Side(Working, []), [], false, [], [])

  function SideOf(b: Broker, w: Worker): (s: Side)
  {
    if w == ToClient then b.toClient else b.fromClient
  }

  function SetSide(b: Broker, w: Worker, s: Side): (b': Broker)
  {
    if w == ToClient then b.(toClient := s) else b.(fromClient := s)
  }

  function SetStage(b: Broker, w: Worker, stage: Stage): (b': Broker)
  {
    SetSide(b, w, SideOf(b, w).(stage := stage))
  }

  datatype Event =
    | Return(w: Worker, err: Option<Err>)
    | Post(w: Worker)
    | Cancel(w: Worker)
    | Leave(w: Worker)
    | Close
    | Take

  /**
   A send waits for room in the channel; whether it can be made to wait, or to hit a closed channel,
   is proved below.
   */
  predicate Enabled(b: Broker, e: Event)
  {
    match e
    case Return(w, _) => SideOf(b, w).stage.Working?
    case Post(w) => SideOf(b, w).stage.Returned? && (SideOf(b, w).stage.err.Some? ==> |b.queue| < NUM_WORKERS)
    case Cancel(w) => SideOf(b, w).stage.Posted?
    case Leave(w) => SideOf(b, w).stage.Cancelling?
    case Close => b.toClient.stage.Left? && b.fromClient.stage.Left? && !b.closed
    case Take => b.queue != []
  }

  function Step(b: Broker, e: Event): (b': Broker)
    requires Enabled(b, e)
  {
    match e
    case Return(w, err) => SetStage(b, w, Returned(err))
    case Post(w) =>
      var me := SideOf(b, w);
      var err := me.stage.err;
      if err.None? then SetStage(b, w, Posted(err))
      else
        SetSide(b.(queue := b.queue + [err.value], history := b.history + [err.value]), w,
                Side(Posted(err), me.sent + [err.value]))
    case Cancel(w) => SetStage(b, w, Cancelling(SideOf(b, w).stage.err))
    case Leave(w) => SetStage(b, w, Left(SideOf(b, w).stage.err))
    case Close => b.(closed := true)
    case Take => b.(queue := b.queue[1..], received := b.received + [b.queue[0]])
  }

  /** The worker has made its report. */
  predicate Reported(s: Stage) { s.Posted? || s.Cancelling? || s.Left? }

  /** A worker has sent its own error once it has reported, and nothing else ever. */
  predicate SentOwn(s: Side)
  {
    s.sent == if Reported(s.stage) && s.stage.err.Some? then [s.stage.err.value] else []
  }

  ghost predicate Valid(b: Broker)
  {
    && SentOwn(b.toClient) && SentOwn(b.fromClient)
    && |b.history| == |b.toClient.sent| + |b.fromClient.sent|
    && (forall i :: 0 <= i < |b.history| ==> b.history[i] in b.toClient.sent || b.history[i] in b.fromClient.sent)
    && b.history == b.received + b.queue
    && (b.closed ==> b.toClient.stage.Left? && b.fromClient.stage.Left?)
  }

  /** Whoever is about to send finds room and an open channel. */
  lemma PostNeverBlocks(b: Broker, w: Worker)
    requires Valid(b) && SideOf(b, w).stage.Returned?
    ensures |b.queue| < NUM_WORKERS && !b.closed && Enabled(b, Post(w))
  {
    assert |b.queue| <= |b.history|;
  }

  lemma PostValid(b: Broker, w: Worker)
    requires Valid(b) && Enabled(b, Post(w)) && SideOf(b, w).stage.err.Some?
    ensures Valid(Step(b, Post(w)))
  {
    PostNeverBlocks(b, w);
    var err := SideOf(b, w).stage.err.value;
    Regroup(b.received, b.queue, [err]);
    var b' := Step(b, Post(w));
    assert SideOf(b', w).sent == [] + [err];
    forall i | 0 <= i < |b'.history|
      ensures b'.history[i] in b'.toClient.sent || b'.history[i] in b'.fromClient.sent
    {
      assert i < |b.history| ==> b'.history[i] == b.history[i];
    }
  }

  lemma StepValid(b: Broker, e: Event)
    requires Valid(b) && Enabled(b, e)
    ensures Valid(Step(b, e))
  {
    if e.Post? && SideOf(b, e.w).stage.err.Some? {
      PostValid(b, e.w);
    } else if e.Take? {
      assert b.received + b.queue == (b.received + [b.queue[0]]) + b.queue[1..];
    } else {
      StagesValid(b, e);
    }
  }

  /** Every other event moves a worker along or closes the channel, and touches no error. */
  lemma StagesValid(b: Broker, e: Event)
    requires Valid(b) && Enabled(b, e) && !e.Take? && !(e.Post? && SideOf(b, e.w).stage.err.Some?)
    ensures Valid(Step(b, e))
  {
    var b' := Step(b, e);
    assert b'.history == b.history && b'.received == b.received && b'.queue == b.queue;
    assert b'.toClient.sent == b.toClient.sent && b'.fromClient.sent == b.fromClient.sent;
  }

  /** Only a return ends a worker function. */
  lemma StepKeepsWorking(b: Broker, e: Event)
    requires Enabled(b, e) && !e.Return?
    ensures Step(b, e).toClient.stage.Working? == b.toClient.stage.Working?
    ensures Step(b, e).fromClient.stage.Working? == b.fromClient.stage.Working?
  {
  }

  /** What the workers do, in any order, with receives in between. */
  predicate Path(b: Broker, es: seq<Event>)
    decreases |es|
  {
    es == [] || (Enabled(b, es[0]) && Path(Step(b, es[0]), es[1..]))
  }

  function After(b: Broker, es: seq<Event>): (b': Broker)
    requires Path(b, es)
    decreases |es|
  {
    if es == [] then b else After(Step(b, es[0]), es[1..])
  }

  /**
   In every interleaving: each worker sends at most one error, its own; the
   channel is closed only after both have left, and then once; receiving until
   the channel is empty and closed gives every error sent, and gives none
   exactly when both workers ended without one.
   */
  lemma {:induction false} ChannelDiscipline(b: Broker, es: seq<Event>)
    requires Valid(b) && Path(b, es)
    ensures var b' := After(b, es);
      && Valid(b')
      && |b'.toClient.sent| <= 1 && |b'.fromClient.sent| <= 1 && |b'.history| <= NUM_WORKERS
      && (b'.closed ==> b'.toClient.stage.Left? && b'.fromClient.stage.Left? && !Enabled(b', Close))
      && (b'.closed && b'.queue == [] ==>
            b'.received == b'.history
            && (b'.received == [] <==> b'.toClient.stage == Left(None) && b'.fromClient.stage == Left(None)))
    decreases |es|
  {
    if es != [] {
      StepValid(b, es[0]);
      ChannelDiscipline(Step(b, es[0]), es[1..]);
    } else {
      DrainedClean(b);
    }
  }

  lemma DrainedClean(b: Broker)
    requires Valid(b)
    ensures b.closed && b.queue == [] ==>
      b.received == b.history
      && (b.received == [] <==> b.toClient.stage == Left(None) && b.fromClient.stage == Left(None))
  {
    assert b.queue == [] ==> b.received + b.queue == b.received;
  }
}
