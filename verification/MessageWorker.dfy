/**
 * The queue worker as a protocol between a broker and one consumer.
 * The consumer acknowledges a message before it runs the handler; acknowledgements can get lost,
 * connections can break at any moment, and the process can die.
 */
module MessageWorker {
  import opened Prelude

  const RECONNECT_DELAY := 5
  const MAX_DELAY := 60

  /** A message; the body either decodes to a payload or does not. */
  datatype Message = Message(id: nat, decodable: bool)

  // ---------------------------------------------------------------------------
  // The worker
  // ---------------------------------------------------------------------------

  datatype Reaction = PutBack | Ignore | AckThenHandle

  /** What the callback decides to do with a delivery. */
  function React(stopping: bool, m: Message): Reaction {
    if stopping then PutBack
    else if !m.decodable then Ignore
    else AckThenHandle
  }

  datatype Event = Acked(m: Message) | Nacked(m: Message) | Handled(m: Message)

  /** How one connection attempt ended. */
  datatype Attempt =
    | Refused      // no usable channel was set up
    | Disconnected // consumed for a while, then the connection was noticed to be gone
    | Broken       // consumed for a while, then another error came through

  /** Consecutive errors after an attempt. */
  function CountAfter(count: nat, a: Attempt): nat {
    match a
    case Refused => count + 1
    case Disconnected => 0
    case Broken => 1
  }

  function Delay(count: nat): nat {
    if RECONNECT_DELAY * count <= MAX_DELAY then RECONNECT_DELAY * count else MAX_DELAY
  }

  /** Consecutive errors after a series of attempts. */
  function CountAfterAll(count: nat, attempts: seq<Attempt>): nat {
    if attempts == [] then count
    else CountAfter(CountAfterAll(count, attempts[..|attempts| - 1]), attempts[|attempts| - 1])
  }

  class RabbitMQWorker {
    var stopping: bool
    var reconnectCount: nat
    var log: seq<Event>

    constructor ()
      ensures !stopping && reconnectCount == 0 && log == []
    {
      stopping, reconnectCount, log := false, 0, [];
    }

    method Start()
      modifies this`stopping
      ensures !stopping
    {
      stopping := false;
    }

    method Stop()
      modifies this`stopping
      ensures stopping
    {
      stopping := true;
    }

    /** An acknowledgement goes out if the channel lets it; a failure to send is swallowed. */
    method SafeAck(m: Message, canSend: bool)
      modifies this`log
      ensures log == old(log) + if canSend then [Acked(m)] else []
    {
      if canSend {
        log := log + [Acked(m)];
      }
    }

    method SafeNack(m: Message, canSend: bool)
      modifies this`log
      ensures log == old(log) + if canSend then [Nacked(m)] else []
    {
      if canSend {
        log := log + [Nacked(m)];
      }
    }

    method Callback(m: Message, canSend: bool)
      modifies this`log
      ensures log == old(log) +
                match React(stopping, m)
                case PutBack => if canSend then [Nacked(m)] else []
                case Ignore => []
                case AckThenHandle => (if canSend then [Acked(m)] else []) + [Handled(m)]
    {
      if stopping {
        SafeNack(m, canSend);
        return;
      }
      if m.decodable {
        SafeAck(m, canSend);
        log := log + [Handled(m)];
      }
    }

    /** The reconnect loop, with the pause after each attempt. The worker is told to stop when `stopAfter` attempts have
        been made; the loop looks at that before every further one. */
    method Run(attempts: seq<Attempt>, stopAfter: nat) returns (pauses: seq<nat>)
      modifies this`reconnectCount, this`stopping
      ensures |pauses| == if old(stopping) then 0 else if stopAfter < |attempts| then stopAfter else |attempts|
      ensures stopping == (old(stopping) || stopAfter <= |attempts|)
      ensures reconnectCount == CountAfterAll(old(reconnectCount), attempts[..|pauses|])
      ensures forall i :: 0 <= i < |pauses| ==>
                pauses[i] == Delay(CountAfterAll(old(reconnectCount), attempts[..i + 1]))
    {
      pauses := [];
      ghost var first, stoppedBefore := reconnectCount, stopping;
      var i := 0;
      if stopAfter == 0 {
        stopping := true;
      }
      while i < |attempts| && !stopping
        invariant 0 <= i <= |attempts| && |pauses| == i && (stoppedBefore ==> i == 0)
        invariant stopping == (stoppedBefore || stopAfter <= i) && (stoppedBefore || i <= stopAfter)
        invariant reconnectCount == CountAfterAll(first, attempts[..i])
        invariant forall j :: 0 <= j < i ==> pauses[j] == Delay(CountAfterAll(first, attempts[..j + 1]))
        decreases |attempts| - i
      {
        assert attempts[..i + 1][..i] == attempts[..i];
        var pause := 0;
        if !attempts[i].Refused? {
          reconnectCount := 0;
        }
        if !attempts[i].Disconnected? {
          reconnectCount := reconnectCount + 1;
          pause := RECONNECT_DELAY * reconnectCount;
          if pause > MAX_DELAY {
            pause := MAX_DELAY;
          }
        }
        pauses, i := pauses + [pause], i + 1;
        if i == stopAfter {
          stopping := true;
        }
      }
    }
  }

  /** How many of the last attempts were refused. */
  function Refusals(attempts: seq<Attempt>): (n: nat)
    ensures n <= |attempts|
  {
    if attempts == [] || attempts[|attempts| - 1] != Refused then 0
    else 1 + Refusals(attempts[..|attempts| - 1])
  }

  /** The pause grows by five seconds per refusal in a row, up to a minute, and starts over at any connection made. */
  lemma {:induction false} PauseFollowsRefusals(attempts: seq<Attempt>)
    ensures var n := Refusals(attempts);
            var before := attempts[..|attempts| - n];
            CountAfterAll(0, attempts) == n + (if before != [] && before[|before| - 1] == Broken then 1 else 0)
  {
    if attempts != [] && attempts[|attempts| - 1] == Refused {
      var front := attempts[..|attempts| - 1];
      PauseFollowsRefusals(front);
      assert attempts[..|attempts| - Refusals(attempts)] == front[..|front| - Refusals(front)];
    }
  }

  /** The pause after a series of attempts: five seconds for every refusal since a connection was last made, counting a
   *  consumption that broke and the errors before the series, and a minute from the twelfth on. */
  lemma {:induction false} PauseInFigures(first: nat, attempts: seq<Attempt>, n: nat)
    requires n <= |attempts| && forall i :: |attempts| - n <= i < |attempts| ==> attempts[i].Refused?
    requires n < |attempts| ==> !attempts[|attempts| - n - 1].Refused?
    ensures var count := n + if n == |attempts| then first else if attempts[|attempts| - n - 1].Broken? then 1 else 0;
            && CountAfterAll(first, attempts) == count
            && Delay(CountAfterAll(first, attempts)) == if count <= 12 then 5 * count else 60
  {
    if n > 0 {
      var front := attempts[..|attempts| - 1];
      assert forall i :: 0 <= i < |front| ==> front[i] == attempts[i];
      PauseInFigures(first, front, n - 1);
    }
  }

  // ---------------------------------------------------------------------------
  // The protocol
  // ---------------------------------------------------------------------------

  datatype Answer = Silent | Ack | Nack

  datatype State = State(
    // the broker
    removed: seq<Message>,      // acknowledged, in the order of removal
    unacked: Option<Message>,   // delivered on the open channel and not settled; prefetch is one
    ready: seq<Message>,
    // the channel
    open: bool,
    answer: Answer,             // on its way to the broker, about the unacked message
    inbox: Option<Message>,     // on its way to the callback
    // the worker
    stopping: bool,
    running: Option<Message>,   // past its acknowledgement, handler about to run
    // history
    handled: multiset<Message>, // runs of the handler
    lost: multiset<Message>,    // acknowledgements that never reached the broker
    killed: multiset<Message>)  // handler runs lost with the process

  datatype Step =
    | Publish(m: Message)
    | Connect
    | Deliver
    | Take(sent: bool)          // the callback picks up the delivery; `sent`: its answer gets onto the channel
    | Handle
    | Arrive                    // the answer reaches the broker
    | Drop(late: bool)          // the connection breaks; `late`: a delivery already read is still dispatched
    | Crash                     // the process dies and is started again
    | SetStop(stop: bool)

  function Bag(x: Option<Message>): multiset<Message> {
    match x
    case None => multiset{}
    case Some(m) => multiset{m}
  }

  function List(x: Option<Message>): seq<Message> {
    match x
    case None => []
    case Some(m) => [m]
  }

  /** The messages not removed, oldest first. */
  function Waiting(s: State): seq<Message> {
    List(s.unacked) + s.ready
  }

  /** All messages of the queue's life, oldest first. */
  function Line(s: State): seq<Message> {
    s.removed + Waiting(s)
  }

  /** The acknowledgement on its way, if the answer is one. */
  function Pending(s: State): multiset<Message> {
    if s.answer.Ack? then Bag(s.unacked) else multiset{}
  }

  predicate Enabled(s: State, a: Step) {
    match a
    case Publish(m) => m !in Line(s)
    case Connect => !s.open && s.running.None?
    case Deliver => s.open && s.unacked.None? && s.ready != []
    case Take(_) => s.inbox.Some? && s.running.None?
    case Handle => s.running.Some?
    case Arrive => !s.answer.Silent?
    case Drop(_) => s.open
    case Crash => true
    case SetStop(_) => true
  }

  /** The channel is gone: the broker puts an unsettled message back in its place; an answer on its way is lost. */
  function Disconnect(s: State): State {
    s.(open := false, unacked := None, ready := List(s.unacked) + s.ready, answer := Silent,
       lost := s.lost + Pending(s))
  }

  function TakeStep(s: State, sent: bool): State
    requires s.inbox.Some?
  {
    var m, next, reaches := s.inbox.value, s.(inbox := None), sent && s.open;
    match React(s.stopping, m)
    case PutBack => if reaches then next.(answer := Nack) else next
    case Ignore => next
    case AckThenHandle =>
      if reaches then next.(answer := Ack, running := Some(m))
      else next.(running := Some(m), lost := s.lost + multiset{m})
  }

  function Next(s: State, a: Step): State
    requires Enabled(s, a)
  {
    match a
    case Publish(m) => s.(ready := s.ready + [m])
    case Connect => s.(open := true, inbox := None)
    case Deliver => s.(unacked := Some(s.ready[0]), inbox := Some(s.ready[0]), ready := s.ready[1..])
    case Take(sent) => TakeStep(s, sent)
    case Handle => s.(running := None, handled := s.handled + Bag(s.running))
    case Arrive =>
      if s.answer.Ack? then s.(removed := s.removed + List(s.unacked), unacked := None, answer := Silent)
      else s.(ready := List(s.unacked) + s.ready, unacked := None, answer := Silent)
    case Drop(late) => if late then Disconnect(s) else Disconnect(s).(inbox := None)
    case Crash => Disconnect(s).(inbox := None, running := None, killed := s.killed + Bag(s.running), stopping := false)
    case SetStop(stop) => s.(stopping := stop)
  }

  const EMPTY := State([], None, [], false, Silent, None, false, None, multiset{}, multiset{}, multiset{})

  ghost predicate Feasible(s: State, steps: seq<Step>)
    decreases |steps|
  {
    steps == [] || (Enabled(s, steps[0]) && Feasible(Next(s, steps[0]), steps[1..]))
  }

  ghost function After(s: State, steps: seq<Step>): State
    requires Feasible(s, steps)
    decreases |steps|
  {
    if steps == [] then s else After(Next(s, steps[0]), steps[1..])
  }

  function Published(steps: seq<Step>): seq<Message> {
    if steps == [] then []
    else (if steps[0].Publish? then [steps[0].m] else []) + Published(steps[1..])
  }

  // ---------------------------------------------------------------------------
  // Safety of every step
  // ---------------------------------------------------------------------------

  ghost predicate Distinct(xs: seq<Message>) {
    forall m <- xs :: multiset(xs)[m] == 1
  }

  /** Runs of the handler for a message, with one about to start and those that died with the process. */
  ghost function Runs(s: State, m: Message): nat {
    s.handled[m] + Bag(s.running)[m] + s.killed[m]
  }

  /** Acknowledgements of a message: the one that removed it, those that got lost, and one on its way. */
  ghost function Acks(s: State, m: Message): nat {
    multiset(s.removed)[m] + s.lost[m] + Pending(s)[m]
  }

  /** Every handler run is accounted for by an acknowledgement: one that removed the message, one that got lost, or one
   *  on its way. */
  ghost predicate Accounted(s: State) {
    forall m: Message :: Runs(s, m) == Acks(s, m)
  }

  ghost predicate Inv(s: State) {
    && Distinct(Line(s))
    && (forall m <- s.removed :: m.decodable)
    && Accounted(s)
    && Channels(s)
  }

  /** What the channel carries concerns the message at the head of the queue. */
  ghost predicate Channels(s: State) {
    && (s.unacked.Some? ==> s.open)
    && (!s.answer.Silent? ==> s.unacked.Some? && s.inbox.None?)
    && (s.answer.Ack? ==> s.unacked.value.decodable)
    && (s.open && s.inbox.Some? ==> s.unacked == s.inbox)
    && (s.inbox.Some? ==> Waiting(s) != [] && Waiting(s)[0] == s.inbox.value)
  }

  /** Only an arriving acknowledgement and a publication change what waits. */
  lemma StepKeepsWaiting(s: State, a: Step)
    requires Channels(s) && Enabled(s, a)
    ensures var next := Next(s, a);
            if a.Publish? then next.removed == s.removed && Waiting(next) == Waiting(s) + [a.m]
            else if a.Arrive? && s.answer.Ack? then
              next.removed == s.removed + [s.unacked.value] && Waiting(s) == [s.unacked.value] + Waiting(next)
            else next.removed == s.removed && Waiting(next) == Waiting(s)
  {
    hide TakeStep;
    match a
    case Publish(m) => assert List(s.unacked) + (s.ready + [m]) == Waiting(s) + [m];
    case Deliver => assert [s.ready[0]] + s.ready[1..] == s.ready;
    case Take(sent) => TakeMovesNothing(s, sent);
    case _ =>
  }

  lemma TakeMovesNothing(s: State, sent: bool)
    requires s.inbox.Some?
    ensures var next := TakeStep(s, sent);
            next.removed == s.removed && next.unacked == s.unacked && next.ready == s.ready && next.open == s.open
  {
  }

  /** No step loses, duplicates or reorders a message; publishing appends one. */
  lemma StepKeepsLine(s: State, a: Step)
    requires Channels(s) && Enabled(s, a)
    ensures Line(Next(s, a)) == Line(s) + if a.Publish? then [a.m] else []
  {
    StepKeepsWaiting(s, a);
    hide Waiting, Next;
    var w := Waiting(Next(s, a));
    if a.Publish? {
      assert s.removed + (Waiting(s) + [a.m]) == Line(s) + [a.m];
    } else if a.Arrive? && s.answer.Ack? {
      assert (s.removed + [s.unacked.value]) + w == s.removed + ([s.unacked.value] + w);
    }
  }

  lemma StepKeepsChannels(s: State, a: Step)
    requires Channels(s) && Enabled(s, a)
    ensures Channels(Next(s, a))
  {
    StepKeepsWaiting(s, a);
  }

  lemma TakeKeepsBalance(s: State, sent: bool, m: Message)
    requires Channels(s) && s.inbox.Some? && s.running.None? && Runs(s, m) == Acks(s, m)
    ensures Runs(TakeStep(s, sent), m) == Acks(TakeStep(s, sent), m)
  {
    hide Waiting, Next;
    assert s.answer.Silent? && TakeStep(s, sent).removed == s.removed;
  }

  lemma ArriveKeepsBalance(s: State, m: Message)
    requires Channels(s) && Enabled(s, Arrive) && Runs(s, m) == Acks(s, m)
    ensures Runs(Next(s, Arrive), m) == Acks(Next(s, Arrive), m)
  {
    hide Waiting, TakeStep, Disconnect;
    assert multiset(s.removed + [s.unacked.value]) == multiset(s.removed) + multiset{s.unacked.value};
  }

  lemma DropKeepsBalance(s: State, late: bool, m: Message)
    requires s.open
    ensures Acks(Next(s, Drop(late)), m) == Acks(s, m) && Runs(Next(s, Drop(late)), m) == Runs(s, m)
  {
    hide Bag, List;
    assert Pending(Next(s, Drop(late))) == multiset{};
  }

  lemma CrashKeepsBalance(s: State, m: Message)
    ensures Acks(Next(s, Crash), m) == Acks(s, m) && Runs(Next(s, Crash), m) == Runs(s, m)
  {
    assert Pending(Next(s, Crash)) == multiset{};
    assert (s.killed + Bag(s.running))[m] == s.killed[m] + Bag(s.running)[m];
    hide Bag, List;
  }

  lemma HandleKeepsBalance(s: State, m: Message)
    requires s.running.Some?
    ensures Acks(Next(s, Handle), m) == Acks(s, m) && Runs(Next(s, Handle), m) == Runs(s, m)
  {
    hide List;
    assert (s.handled + Bag(s.running))[m] == s.handled[m] + Bag(s.running)[m];
  }

  lemma OtherStepKeepsBalance(s: State, a: Step, m: Message)
    requires Channels(s) && Enabled(s, a) && (a.Publish? || a.Connect? || a.Deliver? || a.SetStop?)
    ensures Acks(Next(s, a), m) == Acks(s, m) && Runs(Next(s, a), m) == Runs(s, m)
  {
    hide Waiting, Line, Bag, List;
    assert Pending(Next(s, a)) == Pending(s);
  }

  lemma StepKeepsBalance(s: State, a: Step, m: Message)
    requires Channels(s) && Enabled(s, a) && Runs(s, m) == Acks(s, m)
    ensures Runs(Next(s, a), m) == Acks(Next(s, a), m)
  {
    hide Waiting, Line, Channels, Runs, Acks, Disconnect, TakeStep, Bag, List;
    match a
    case Take(sent) => TakeKeepsBalance(s, sent, m);
    case Arrive => ArriveKeepsBalance(s, m);
    case Drop(late) => DropKeepsBalance(s, late, m);
    case Crash => CrashKeepsBalance(s, m);
    case Handle => HandleKeepsBalance(s, m);
    case _ => OtherStepKeepsBalance(s, a, m);
  }

  lemma StepKeepsAccount(s: State, a: Step)
    requires Channels(s) && Accounted(s) && Enabled(s, a)
    ensures Accounted(Next(s, a))
  {
    hide Channels, Runs, Acks, Next, Enabled;
    forall m: Message ensures Runs(Next(s, a), m) == Acks(Next(s, a), m) {
      StepKeepsBalance(s, a, m);
    }
  }

  lemma PublishKeepsDistinct(xs: seq<Message>, m: Message)
    requires Distinct(xs) && m !in xs
    ensures Distinct(xs + [m])
  {
    assert multiset(xs + [m]) == multiset(xs) + multiset{m};
    assert multiset(xs)[m] == 0;
  }

  lemma StepKeepsInv(s: State, a: Step)
    requires Inv(s) && Enabled(s, a)
    ensures Inv(Next(s, a))
  {
    StepKeepsLine(s, a);
    StepKeepsWaiting(s, a);
    StepKeepsChannels(s, a);
    StepKeepsAccount(s, a);
    if a.Publish? {
      PublishKeepsDistinct(Line(s), a.m);
    }
    hide Line, Waiting, Accounted, Distinct, Next;
  }

  // ---------------------------------------------------------------------------
  // Safety of every run
  // ---------------------------------------------------------------------------

  lemma Regroup(a: seq<Message>, b: seq<Message>, c: seq<Message>)
    ensures (a + b) + c == a + (b + c)
  {
  }

  lemma InvHasChannels(s: State)
    requires Inv(s)
    ensures Channels(s)
  {
  }

  lemma {:induction false} RunKeepsInv(s: State, steps: seq<Step>)
    requires Inv(s) && Feasible(s, steps)
    ensures Inv(After(s, steps)) && Line(After(s, steps)) == Line(s) + Published(steps)
    decreases |steps|
  {
    hide Inv, Line, Next, Enabled;
    if steps != [] {
      StepKeepsInv(s, steps[0]);
      InvHasChannels(s);
      StepKeepsLine(s, steps[0]);
      RunKeepsInv(Next(s, steps[0]), steps[1..]);
      Regroup(Line(s), if steps[0].Publish? then [steps[0].m] else [], Published(steps[1..]));
    }
  }

  /** In every run each published message is in exactly one of removed, unacked and ready, and these three keep the
      order of publication. */
  lemma OnePlaceInOrder(steps: seq<Step>)
    requires Feasible(EMPTY, steps)
    ensures var s := After(EMPTY, steps);
            && s.removed + (List(s.unacked) + s.ready) == Published(steps)
            && forall m <- Published(steps) :: multiset(s.removed)[m] + Bag(s.unacked)[m] + multiset(s.ready)[m] == 1
  {
    RunKeepsInv(EMPTY, steps);
    var s := After(EMPTY, steps);
    assert Line(EMPTY) == [];
    assert multiset(Line(s)) == multiset(s.removed) + Bag(s.unacked) + multiset(s.ready);
  }

  lemma OnePlaceCount(s: State, m: Message)
    requires Distinct(Line(s))
    ensures multiset(s.removed)[m] + Pending(s)[m] <= 1
  {
    assert multiset(Line(s)) == multiset(s.removed) + Bag(s.unacked) + multiset(s.ready);
    assert m in Line(s) ==> multiset(Line(s))[m] == 1;
  }

  /** In every run only decoded messages are removed, and a message is handled at most once more than its
      acknowledgements got lost: at most once when none was. */
  lemma HandledAtMostOncePlusLost(steps: seq<Step>, m: Message)
    requires Feasible(EMPTY, steps)
    ensures var s := After(EMPTY, steps);
            && s.handled[m] <= 1 + s.lost[m]
            && (m in s.removed ==> m.decodable)
  {
    RunKeepsInv(EMPTY, steps);
    var s := After(EMPTY, steps);
    OnePlaceCount(s, m);
    hide Line, Distinct, Pending, Waiting, Channels;
    assert Runs(s, m) == Acks(s, m);
  }

  /** Between deliveries, a removed message was handled exactly once more than its acknowledgements got lost, less the
   *  times the process died on it; so it was handled at all exactly when the process did not die on it more often than
   *  its acknowledgements got lost. */
  lemma RemovedWasHandled(steps: seq<Step>, m: Message)
    requires Feasible(EMPTY, steps)
    ensures var s := After(EMPTY, steps);
            s.running.None? && m in s.removed ==>
              && s.handled[m] + s.killed[m] == 1 + s.lost[m]
              && (s.handled[m] >= 1 <==> s.killed[m] <= s.lost[m])
  {
    RunKeepsInv(EMPTY, steps);
    var s := After(EMPTY, steps);
    OnePlaceCount(s, m);
    hide Line, Distinct, Pending, Waiting, Channels;
    assert Runs(s, m) == Acks(s, m);
  }

  /** Acknowledging first can lose a message: removed, and never handled. */
  lemma RemovedUnhandled()
    ensures exists steps, m ::
              Feasible(EMPTY, steps) && m in After(EMPTY, steps).removed && After(EMPTY, steps).handled[m] == 0
  {
    var m := Message(0, true);
    var s1 := Next(EMPTY, Publish(m));
    var s2 := Next(s1, Connect);
    var s3 := Next(s2, Deliver);
    var s4 := Next(s3, Take(true));
    var s5 := Next(s4, Arrive);
    var s6 := Next(s5, Crash);
    ghost var tail: seq<Step> := [];
    tail := Prepend(s5, Crash, tail);
    tail := Prepend(s4, Arrive, tail);
    tail := Prepend(s3, Take(true), tail);
    tail := Prepend(s2, Deliver, tail);
    tail := Prepend(s1, Connect, tail);
    tail := Prepend(EMPTY, Publish(m), tail);
    assert m in After(EMPTY, tail).removed && After(EMPTY, tail).handled[m] == 0;
  }

  lemma Prepend(s: State, a: Step, tail: seq<Step>) returns (steps: seq<Step>)
    requires Enabled(s, a) && Feasible(Next(s, a), tail)
    ensures steps == [a] + tail && Feasible(s, steps) && After(s, steps) == After(Next(s, a), tail)
  {
    steps := [a] + tail;
    assert steps[1..] == tail;
  }

  // ---------------------------------------------------------------------------
  // A worker that is told to stop
  // ---------------------------------------------------------------------------

  /** A delivery that reaches a stopping worker is handed back: once its refusal arrives, it is at the head of the queue
   *  again, and nothing else has changed. */
  lemma StoppingHandsBack(s: State)
    requires Channels(s) && s.open && s.inbox.Some? && s.running.None? && s.stopping
    ensures Feasible(s, [Take(true), Arrive])
    ensures After(s, [Take(true), Arrive]) == s.(unacked := None, inbox := None, ready := [s.inbox.value] + s.ready)
  {
    var mid := Next(s, Take(true));
    var steps := Prepend(mid, Arrive, []);
    steps := Prepend(s, Take(true), steps);
    assert steps == [Take(true), Arrive];
  }

  /** The worker is neither started again nor replaced by a new process. */
  predicate StaysStopped(a: Step) {
    !a.Crash? && a != SetStop(false)
  }

  lemma StoppedStep(s: State, a: Step)
    requires Channels(s) && s.stopping && Enabled(s, a) && StaysStopped(a)
    ensures var next := Next(s, a);
            && next.stopping && next.lost + Pending(next) + multiset(next.removed)
                                == s.lost + Pending(s) + multiset(s.removed)
            && next.handled + Bag(next.running) == s.handled + Bag(s.running) && next.killed == s.killed
  {
    match a
    case Take(sent) => StoppedTake(s, sent);
    case Arrive => StoppedArrive(s);
    case _ => hide Waiting, Line, TakeStep;
  }

  lemma StoppedTake(s: State, sent: bool)
    requires Channels(s) && s.stopping && s.inbox.Some?
    ensures TakeStep(s, sent) == s.(inbox := None, answer := if sent && s.open then Nack else Silent)
  {
    hide Waiting;
  }

  lemma StoppedArrive(s: State)
    requires Channels(s) && Enabled(s, Arrive)
    ensures var next := Next(s, Arrive);
            && next.lost + Pending(next) + multiset(next.removed) == s.lost + Pending(s) + multiset(s.removed)
            && next.handled + Bag(next.running) == s.handled + Bag(s.running)
  {
    hide Waiting, TakeStep, Disconnect;
    assert multiset(s.removed + [s.unacked.value]) == multiset(s.removed) + multiset{s.unacked.value};
  }

  /** As long as a worker stays stopped, whatever connections are made and lost, no handler is started and no message is
   *  acknowledged: what is handled was already past its acknowledgement, and what is removed had its acknowledgement on
   *  the way. */
  lemma {:induction false} StoppedStartsNothing(s: State, steps: seq<Step>)
    requires Channels(s) && s.stopping && Feasible(s, steps) && forall a <- steps :: StaysStopped(a)
    ensures var end := After(s, steps);
            && end.stopping && end.handled + Bag(end.running) == s.handled + Bag(s.running)
            && end.lost + Pending(end) + multiset(end.removed) == s.lost + Pending(s) + multiset(s.removed)
    decreases |steps|
  {
    if steps != [] {
      StoppedStep(s, steps[0]);
      StepKeepsChannels(s, steps[0]);
      hide Channels, Next, Enabled, Pending, Bag, StaysStopped;
      StoppedStartsNothing(Next(s, steps[0]), steps[1..]);
    }
  }

  // ---------------------------------------------------------------------------
  // Messages that do not decode
  // ---------------------------------------------------------------------------

  /** The oldest message not removed is one that does not decode. */
  ghost predicate Blocked(s: State, poison: Message) {
    !poison.decodable && Waiting(s) != [] && Waiting(s)[0] == poison
  }

  lemma PoisonIsNotTaken(s: State, sent: bool, poison: Message)
    requires s.inbox == Some(poison) && !poison.decodable
    ensures TakeStep(s, sent).handled == s.handled && TakeStep(s, sent).running == s.running
  {
  }

  /** The handler is started by nothing but the callback. */
  lemma OthersStartNothing(s: State, a: Step)
    requires Enabled(s, a) && !a.Take?
    ensures Next(s, a).handled + Bag(Next(s, a).running) <= s.handled + Bag(s.running)
  {
    hide TakeStep, Waiting, Line, Pending, List;
  }

  lemma InboxIsPoison(s: State, poison: Message)
    requires Channels(s) && Blocked(s, poison) && s.inbox.Some?
    ensures s.inbox == Some(poison)
  {
  }

  lemma AckedDecodes(s: State, poison: Message)
    requires Channels(s) && Blocked(s, poison)
    ensures !s.answer.Ack?
  {
  }

  lemma StepStaysBlocked(s: State, a: Step, poison: Message)
    requires Channels(s) && Blocked(s, poison) && Enabled(s, a)
    ensures Blocked(Next(s, a), poison)
    ensures Next(s, a).removed == s.removed
    ensures Next(s, a).handled + Bag(Next(s, a).running) <= s.handled + Bag(s.running)
  {
    StepKeepsWaiting(s, a);
    AckedDecodes(s, poison);
    if a.Take? {
      InboxIsPoison(s, poison);
      PoisonIsNotTaken(s, a.sent, poison);
    } else {
      OthersStartNothing(s, a);
    }
    hide Waiting, Channels, TakeStep, Disconnect, Bag, List;
  }

  /** Neither acknowledged nor refused, a message that does not decode stays at the head of the queue: from the moment
      it gets there, no run removes any message or starts the handler again, whatever reconnects and restarts happen. */
  lemma {:induction false} PoisonBlocksQueue(s: State, steps: seq<Step>, poison: Message)
    requires Channels(s) && Blocked(s, poison) && Feasible(s, steps)
    ensures var end := After(s, steps);
            && Blocked(end, poison)
            && end.removed == s.removed
            && end.handled + Bag(end.running) <= s.handled + Bag(s.running)
    decreases |steps|
  {
    if steps != [] {
      StepStaysBlocked(s, steps[0], poison);
      StepKeepsChannels(s, steps[0]);
      hide Channels, Blocked, Next, Enabled, Bag;
      PoisonBlocksQueue(Next(s, steps[0]), steps[1..], poison);
    }
  }

  /** A run that leaves the worker idle and disconnected, with the stop request withdrawn. */
  lemma Quiet(s: State) returns (steps: seq<Step>, end: State)
    requires Channels(s)
    ensures Feasible(s, steps) && end == After(s, steps)
    ensures end.removed == s.removed && Waiting(end) == Waiting(s)
    ensures !end.open && end.running.None? && !end.stopping && Channels(end)
  {
    var start := Next(s, SetStop(false));
    var rested := if s.running.Some? then Next(start, Handle) else start;
    end := if rested.open then Next(rested, Drop(false)) else rested;
    steps := [];
    if rested.open {
      steps := Prepend(rested, Drop(false), steps);
    }
    if s.running.Some? {
      steps := Prepend(start, Handle, steps);
    }
    steps := Prepend(s, SetStop(false), steps);
  }

  /** From rest, the oldest message is fetched, acknowledged and handled, if it decodes. */
  lemma OneMessage(s: State) returns (steps: seq<Step>, end: State)
    requires Channels(s) && !s.open && s.running.None? && !s.stopping && s.ready != [] && s.ready[0].decodable
    ensures Feasible(s, steps) && end == After(s, steps)
    ensures end.removed == s.removed + [s.ready[0]] && end.handled == s.handled + multiset{s.ready[0]}
    ensures end.lost == s.lost
  {
    var s1 := Next(s, Connect);
    var s2 := Next(s1, Deliver);
    var s3 := Next(s2, Take(true));
    var s4 := Next(s3, Arrive);
    end := Next(s4, Handle);
    steps := [];
    steps := Prepend(s4, Handle, steps);
    steps := Prepend(s3, Arrive, steps);
    steps := Prepend(s2, Take(true), steps);
    steps := Prepend(s1, Deliver, steps);
    steps := Prepend(s, Connect, steps);
  }

  lemma {:induction false} RunsCompose(s: State, first: seq<Step>, second: seq<Step>)
    requires Feasible(s, first) && Feasible(After(s, first), second)
    ensures Feasible(s, first + second) && After(s, first + second) == After(After(s, first), second)
    decreases |first|
  {
    if first == [] {
      assert first + second == second;
    } else {
      assert (first + second)[1..] == first[1..] + second;
      hide Next, Enabled;
      RunsCompose(Next(s, first[0]), first[1..], second);
    }
  }

  /** A delivery whose acknowledgement gets lost is handled, and waits to be delivered again. */
  lemma LoseOnce(s: State) returns (steps: seq<Step>, end: State)
    requires Channels(s) && !s.open && s.running.None? && !s.stopping && s.ready != [] && s.ready[0].decodable
    ensures Feasible(s, steps) && end == After(s, steps) && Channels(end)
    ensures !end.open && end.running.None? && !end.stopping && end.ready == s.ready
    ensures end.handled == s.handled + multiset{s.ready[0]} && end.lost == s.lost + multiset{s.ready[0]}
  {
    var s1 := Next(s, Connect);
    var s2 := Next(s1, Deliver);
    var s3 := Next(s2, Take(false));
    var s4 := Next(s3, Handle);
    end := Next(s4, Drop(false));
    steps := [];
    steps := Prepend(s4, Drop(false), steps);
    steps := Prepend(s3, Handle, steps);
    steps := Prepend(s2, Take(false), steps);
    steps := Prepend(s1, Deliver, steps);
    steps := Prepend(s, Connect, steps);
    assert [s.ready[0]] + s.ready[1..] == s.ready;
  }

  lemma {:induction false} LoseRepeatedly(s: State, n: nat) returns (steps: seq<Step>, end: State)
    requires Channels(s) && !s.open && s.running.None? && !s.stopping && s.ready != [] && s.ready[0].decodable
    ensures Feasible(s, steps) && end == After(s, steps) && Channels(end)
    ensures !end.open && end.running.None? && !end.stopping && end.ready == s.ready
    ensures end.handled[s.ready[0]] == s.handled[s.ready[0]] + n && end.lost[s.ready[0]] == s.lost[s.ready[0]] + n
    decreases n
  {
    hide Channels, Feasible, After;
    if n == 0 {
      steps, end := [], s;
      NoSteps(s);
    } else {
      var first, mid := LoseOnce(s);
      var second;
      second, end := LoseRepeatedly(mid, n - 1);
      steps := first + second;
      RunsCompose(s, first, second);
    }
  }

  lemma NoSteps(s: State)
    ensures Feasible(s, []) && After(s, []) == s
  {
  }

  ghost predicate Attains(steps: seq<Step>, m: Message, n: nat) {
    Feasible(EMPTY, steps) && After(EMPTY, steps).lost[m] == n && After(EMPTY, steps).handled[m] == n + 1
  }

  /** The bound on handler runs is attained for every number of lost acknowledgements. */
  lemma BoundIsAttained(m: Message, n: nat)
    requires m.decodable
    ensures exists steps :: Attains(steps, m, n)
  {
    var s := Next(EMPTY, Publish(m));
    var published := Prepend(EMPTY, Publish(m), []);
    var losing, mid := LoseRepeatedly(s, n);
    var last, end := OneMessage(mid);
    hide Feasible, After;
    RunsCompose(s, losing, last);
    RunsCompose(EMPTY, published, losing + last);
    assert Attains(published + (losing + last), m, n);
  }

  ghost predicate CanRemove(s: State) {
    exists steps :: Feasible(s, steps) && |After(s, steps).removed| > |s.removed|
  }

  /** In any reachable state with a message left, some continuation removes one exactly when the oldest decodes. */
  lemma QueueMovesIff(s: State)
    requires Channels(s) && Waiting(s) != []
    ensures CanRemove(s) <==> Waiting(s)[0].decodable
  {
    if Waiting(s)[0].decodable {
      var first, rest := Quiet(s);
      var second, end := OneMessage(rest);
      RunsCompose(s, first, second);
    } else {
      forall steps | Feasible(s, steps) ensures After(s, steps).removed == s.removed {
        PoisonBlocksQueue(s, steps, Waiting(s)[0]);
      }
    }
  }
}
