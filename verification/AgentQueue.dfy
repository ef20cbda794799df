/** The send-then-ack message queue of an agent (facade/consumers/agent_queue.py): two Redis lists, and consumers that
    may be cancelled at any await (facade/consumers/agent_protocol.py). */
module AgentQueue {
  import opened Common

  type Message = string
  type ConsumerId = nat

  /** `LREM key 0 message`: every equal element goes. */
  function Without(list: seq<Message>, n: nat, m: Message): seq<Message>
    requires n <= |list|
  {
    if n == 0 then [] else Without(list, n - 1, m) + if list[n - 1] == m then [] else [list[n - 1]]
  }

  /** The two lists of one agent; index 0 is the left end. */
  class RedisAgentQueue {
    var queue: seq<Message>
    var processing: seq<Message>

    /** `LPUSH` */
    method Push(message: Message)
      modifies this
      ensures queue == [message] + old(queue) && processing == old(processing)
    {
      queue := [message] + queue;
    }

    /** `BLMOVE queue processing RIGHT LEFT`, once the queue has something. */
    method Pop() returns (message: Message)
      requires queue != []
      modifies this
      ensures old(queue) == queue + [message] && processing == [message] + old(processing)
    {
      message := Last(queue);
      queue := queue[..|queue| - 1];
      processing := [message] + processing;
    }

    method Ack(message: Message)
      modifies this
      ensures queue == old(queue) && processing == Without(old(processing), |old(processing)|, message)
      ensures forall x: Message :: multiset(processing)[x] == if x == message then 0 else multiset(old(processing))[x]
    {
      var kept := [];
      for i := 0 to |processing|
        invariant kept == Without(processing, i, message) && processing == old(processing)
      {
        if processing[i] != message {
          kept := kept + [processing[i]];
        }
      }
      assert processing[..|processing|] == processing;
      forall x: Message
        ensures multiset(kept)[x] == if x == message then 0 else multiset(processing)[x]
      {
        WithoutCounts(processing, |processing|, message, x);
      }
      processing := kept;
    }
  }

  // ------------------------------------------------------------------------------------------------------------
  // Runs
  // ------------------------------------------------------------------------------------------------------------

  /** Where a consumer's loop stands. */
  datatype Phase = Popping | Holding(message: Message) | Delivered(message: Message) | Cancelled

  /** The lists, the consumers, and what happened so far: all pushes, the messages moved to processing, the messages
      handed to a socket, and the messages acknowledged. */
  datatype System = System(
    queue: seq<Message>,
    processing: seq<Message>,
    consumers: map<ConsumerId, Phase>,
    pushed: seq<Message>,
    moved: seq<Message>,
    sent: seq<Message>,
    acked: seq<Message>)

  const START := System([], [], map[], [], [], [], [])

  /** A cancelled pop or ack may or may not have taken effect in Redis. */
  datatype Step =
    | Push(message: Message)
    | Listen(c: ConsumerId)
    | Pop(c: ConsumerId, cancelled: bool)
    | Send(c: ConsumerId)
    | Ack(c: ConsumerId, cancelled: bool)
    | Cancel(c: ConsumerId)

  predicate Is(s: System, c: ConsumerId, phase: Phase) {
    c in s.consumers && s.consumers[c] == phase
  }

  predicate Enabled(s: System, step: Step) {
    match step
    case Push(_) => true
    case Listen(c) => c !in s.consumers
    case Pop(c, _) => Is(s, c, Popping) && s.queue != []
    case Send(c) => c in s.consumers && s.consumers[c].Holding?
    case Ack(c, _) => c in s.consumers && s.consumers[c].Delivered?
    case Cancel(c) => c in s.consumers
  }

  /** An empty body is popped but neither sent nor acknowledged. */
  function Popped(s: System, c: ConsumerId, cancelled: bool): System
    requires s.queue != []
  {
    var m := Last(s.queue);
    s.(queue := s.queue[..|s.queue| - 1], processing := [m] + s.processing, moved := s.moved + [m],
       consumers := s.consumers[c := if cancelled then Cancelled else if m == "" then Popping else Holding(m)])
  }

  function Apply(s: System, step: Step): System {
    if !Enabled(s, step) then s
    else
      match step
      case Push(m) => s.(queue := [m] + s.queue, pushed := s.pushed + [m])
      case Listen(c) => s.(consumers := s.consumers[c := Popping])
      case Pop(c, cancelled) => Popped(s, c, cancelled)
      case Send(c) => s.(sent := s.sent + [s.consumers[c].message], consumers := s.consumers[c := Delivered(s.consumers[c].message)])
      case Ack(c, cancelled) =>
        s.(processing := Without(s.processing, |s.processing|, s.consumers[c].message), acked := s.acked + [s.consumers[c].message],
           consumers := s.consumers[c := if cancelled then Cancelled else Popping])
      case Cancel(c) => s.(consumers := s.consumers[c := Cancelled])
  }

  /** A pop moves the oldest message, at the right end, to the left end of processing; an acknowledgement takes every
      equal body out of processing and nothing else; a push comes in at the left. No other step touches the lists. */
  lemma {:induction false} StepsMoveMessages(s: System, step: Step)
    requires Enabled(s, step)
    ensures match step
      case Push(m) => Apply(s, step).queue == [m] + s.queue && Apply(s, step).processing == s.processing
      case Pop(_, _) => exists m | s.queue == Apply(s, step).queue + [m] :: Apply(s, step).processing == [m] + s.processing
      case Ack(c, _) =>
        && Apply(s, step).queue == s.queue
        && (forall x: Message ::
              multiset(Apply(s, step).processing)[x] == if x == s.consumers[c].message then 0 else multiset(s.processing)[x])
      case _ => Apply(s, step).queue == s.queue && Apply(s, step).processing == s.processing
  {
    match step
    case Pop(_, _) =>
      assert s.queue == Apply(s, step).queue + [Last(s.queue)];
    case Ack(c, _) =>
      assert s.processing[..|s.processing|] == s.processing;
      forall x: Message
        ensures multiset(Apply(s, step).processing)[x] == if x == s.consumers[c].message then 0 else multiset(s.processing)[x]
      {
        WithoutCounts(s.processing, |s.processing|, s.consumers[c].message, x);
      }
    case _ =>
  }

  /** After the first `n` steps. */
  function Run(steps: seq<Step>, n: nat): System
    requires n <= |steps|
  {
    if n == 0 then START else Apply(Run(steps, n - 1), steps[n - 1])
  }

  // ------------------------------------------------------------------------------------------------------------
  // Conservation
  // ------------------------------------------------------------------------------------------------------------

  /** Every pushed message is in exactly one place: waiting, in flight, or acknowledged. */
  ghost predicate Conserved(s: System) {
    multiset(s.pushed) == multiset(s.queue) + multiset(s.processing) + multiset(s.acked)
  }

  predicate Distinct(messages: seq<Message>) {
    forall i, j | 0 <= i < j < |messages| :: messages[i] != messages[j]
  }

  predicate Holds(phase: Phase) {
    phase.Holding? || phase.Delivered?
  }

  /** A consumer's message is in flight, and no other consumer's. */
  ghost predicate HeldOnce(s: System) {
    && (forall c | c in s.consumers && Holds(s.consumers[c]) :: s.consumers[c].message in s.processing)
    && (forall c, d | c in s.consumers && d in s.consumers && c != d && Holds(s.consumers[c]) && Holds(s.consumers[d]) ::
          s.consumers[c].message != s.consumers[d].message)
  }

  /** Acknowledged messages were sent. */
  ghost predicate SentFirst(s: System) {
    && (forall c | c in s.consumers && s.consumers[c].Delivered? :: s.consumers[c].message in s.sent)
    && (forall m | m in s.acked :: m in s.sent)
  }

  ghost predicate Inv(s: System) {
    Conserved(s) && HeldOnce(s) && SentFirst(s)
  }

  lemma {:induction false} DistinctCounts(messages: seq<Message>, m: Message)
    requires Distinct(messages)
    ensures multiset(messages)[m] <= 1
  {
    if messages != [] {
      var n := |messages| - 1;
      assert messages == messages[..n] + [messages[n]];
      DistinctCounts(messages[..n], m);
      if messages[n] == m {
        assert m !in messages[..n];
        assert m !in multiset(messages[..n]);
      }
    }
  }

  /** One more message, kept unless it is the one to remove. */
  lemma {:induction false} WithoutOne(before: seq<Message>, y: Message, after: seq<Message>, kept: seq<Message>,
        kept': seq<Message>, m: Message, x: Message)
    requires after == before + [y] && kept' == if y == m then kept else kept + [y]
    requires multiset(kept)[x] == if x == m then 0 else multiset(before)[x]
    ensures multiset(kept')[x] == if x == m then 0 else multiset(after)[x]
  {
    CountSnoc(before, y, after, x);
    if y != m {
      CountSnoc(kept, y, kept', x);
    }
  }

  lemma {:induction false} WithoutCounts(list: seq<Message>, n: nat, m: Message, x: Message)
    requires n <= |list|
    ensures multiset(Without(list, n, m))[x] == if x == m then 0 else multiset(list[..n])[x]
  {
    if n > 0 {
      WithoutCounts(list, n - 1, m, x);
      TakeSnoc(list, n);
      WithoutOne(list[..n - 1], list[n - 1], list[..n], Without(list, n - 1, m), Without(list, n, m), m, x);
    }
  }

  /** An acknowledgement keeps every message accounted for exactly when its body is in flight once. */
  lemma {:induction false} AckConservesIffBodyIsInFlightOnce(s: System, c: ConsumerId, cancelled: bool)
    requires Conserved(s) && Enabled(s, Ack(c, cancelled))
    ensures Conserved(Apply(s, Ack(c, cancelled))) <==> multiset(s.processing)[s.consumers[c].message] == 1
  {
    var m, t := s.consumers[c].message, Apply(s, Ack(c, cancelled));
    var lhs, rhs := multiset(t.pushed), multiset(t.queue) + multiset(t.processing) + multiset(t.acked);
    assert s.processing[..|s.processing|] == s.processing;
    forall x: Message
      ensures rhs[x] == multiset(s.queue)[x] + multiset(s.acked)[x] + if x == m then 1 else multiset(s.processing)[x]
    {
      WithoutCounts(s.processing, |s.processing|, m, x);
    }
    assert lhs[m] == multiset(s.queue)[m] + multiset(s.processing)[m] + multiset(s.acked)[m];
    if multiset(s.processing)[m] == 1 {
      forall x: Message
        ensures lhs[x] == rhs[x]
      {
      }
    }
  }

  lemma {:induction false} PopConserves(s: System, c: ConsumerId, cancelled: bool)
    requires Conserved(s) && s.queue != []
    ensures Conserved(Popped(s, c, cancelled))
  {
    assert s.queue == s.queue[..|s.queue| - 1] + [Last(s.queue)];
  }

  lemma {:induction false} InFlightOnce(s: System, m: Message)
    requires Conserved(s) && Distinct(s.pushed) && m in s.processing
    ensures multiset(s.processing)[m] == 1 && m !in s.queue && m !in s.acked
  {
    DistinctCounts(s.pushed, m);
    assert multiset(s.processing)[m] >= 1;
  }

  lemma {:induction false} ConservedStep(s: System, step: Step)
    requires Inv(s) && Distinct(Apply(s, step).pushed)
    ensures Conserved(Apply(s, step))
  {
    match step
    case Pop(c, cancelled) =>
      if Enabled(s, step) {
        PopConserves(s, c, cancelled);
      }
    case Ack(c, cancelled) =>
      if Enabled(s, step) {
        InFlightOnce(s, s.consumers[c].message);
        AckConservesIffBodyIsInFlightOnce(s, c, cancelled);
      }
    case _ =>
  }

  lemma {:induction false} HeldOnceStep(s: System, step: Step)
    requires Inv(s) && Distinct(s.pushed)
    ensures HeldOnce(Apply(s, step))
  {
    match step
    case Pop(c, cancelled) =>
      if Enabled(s, step) {
        forall d | d in s.consumers && Holds(s.consumers[d])
          ensures s.consumers[d].message != Last(s.queue)
        {
          InFlightOnce(s, s.consumers[d].message);
        }
      }
    case Ack(c, cancelled) =>
      if Enabled(s, step) {
        forall d | d in s.consumers && d != c && Holds(s.consumers[d])
          ensures s.consumers[d].message in Without(s.processing, |s.processing|, s.consumers[c].message)
        {
          OthersStay(s.processing, |s.processing|, s.consumers[c].message, s.consumers[d].message);
        }
      }
    case _ =>
  }

  lemma {:induction false} OthersStay(list: seq<Message>, n: nat, m: Message, other: Message)
    requires n <= |list| && other in list[..n] && other != m
    ensures other in Without(list, n, m)
  {
    assert list[..n] == list[..n - 1] + [list[n - 1]];
    if list[n - 1] != other {
      OthersStay(list, n - 1, m, other);
    }
  }

  lemma {:induction false} SentFirstStep(s: System, step: Step)
    requires SentFirst(s)
    ensures SentFirst(Apply(s, step))
  {
  }

  lemma {:induction false} InvStep(s: System, step: Step)
    requires Inv(s) && Distinct(Apply(s, step).pushed)
    ensures Distinct(s.pushed) && Inv(Apply(s, step))
  {
    EarlierPushesAreDistinct(s.pushed, Apply(s, step).pushed);
    ConservedStep(s, step);
    HeldOnceStep(s, step);
    SentFirstStep(s, step);
  }

  lemma {:induction false} EarlierPushesAreDistinct(a: seq<Message>, b: seq<Message>)
    requires a <= b && Distinct(b)
    ensures Distinct(a)
  {
  }

  lemma {:induction false} PushesGrow(s: System, step: Step)
    ensures s.pushed <= Apply(s, step).pushed
  {
  }

  lemma {:induction false} InvRun(steps: seq<Step>, n: nat)
    requires n <= |steps| && Distinct(Run(steps, n).pushed)
    ensures Inv(Run(steps, n))
  {
    if n > 0 {
      PushesGrow(Run(steps, n - 1), steps[n - 1]);
      EarlierPushesAreDistinct(Run(steps, n - 1).pushed, Run(steps, n).pushed);
      InvRun(steps, n - 1);
      InvStep(Run(steps, n - 1), steps[n - 1]);
    }
  }

  /** With distinct bodies, under any interleaving of pushes, consumers and cancellations: waiting, in flight and
      acknowledged are all the pushed messages and have none in common, and whatever left both lists was sent. */
  lemma {:induction false} NothingIsLost(steps: seq<Step>)
    requires Distinct(Run(steps, |steps|).pushed)
    ensures var s := Run(steps, |steps|);
      && Conserved(s)
      && (forall m | m in s.pushed :: m in s.queue || m in s.processing || m in s.acked)
      && (forall m | m in s.pushed && m !in s.queue && m !in s.processing :: m in s.sent)
      && (forall m | m in s.processing :: m !in s.queue && m !in s.acked)
      && (forall m | m in s.queue :: m !in s.acked)
  {
    InvRun(steps, |steps|);
    var s := Run(steps, |steps|);
    forall m | m in s.pushed
      ensures m in s.queue || m in s.processing || m in s.acked
    {
      assert m in multiset(s.pushed);
    }
    forall m: Message
      ensures m in s.processing ==> m !in s.queue && m !in s.acked
      ensures m in s.queue ==> m !in s.acked
    {
      DistinctCounts(s.pushed, m);
      assert multiset(s.pushed)[m] == multiset(s.queue)[m] + multiset(s.processing)[m] + multiset(s.acked)[m];
    }
  }

  function TwinSteps(m: Message): seq<Step> {
    [Push(m), Push(m), Listen(0), Listen(1), Pop(0, false), Pop(1, false), Send(0), Ack(0, false)]
  }

  lemma {:induction false} TwinsPushed(m: Message)
    ensures Run(TwinSteps(m), 4) == System([m, m], [], map[0 := Popping, 1 := Popping], [m, m], [], [], [])
  {
    assert Run(TwinSteps(m), 1) == START.(queue := [m], pushed := [m]);
    assert Run(TwinSteps(m), 2) == START.(queue := [m, m], pushed := [m, m]);
  }

  lemma {:induction false} TwinsInFlight(m: Message)
    requires m != ""
    ensures Run(TwinSteps(m), 6) == System([], [m, m], map[0 := Holding(m), 1 := Holding(m)], [m, m], [m, m], [], [])
  {
    TwinsPushed(m);
    assert Run(TwinSteps(m), 5) == System([m], [m], map[0 := Holding(m), 1 := Popping], [m, m], [m], [], []);
  }

  /** With equal bodies a message can leave both lists unsent: the first acknowledgement removes both copies. */
  lemma {:induction false} EqualBodiesAreAcknowledgedTogether(m: Message)
    requires m != ""
    ensures var s := Run(TwinSteps(m), 8);
      s.pushed == [m, m] && s.sent == [m] && s.queue == [] && s.processing == [] && Is(s, 1, Holding(m))
  {
    TwinsInFlight(m);
    assert Run(TwinSteps(m), 7) == System([], [m, m], map[0 := Delivered(m), 1 := Holding(m)], [m, m], [m, m], [m], []);
    assert Without([m, m], 1, m) == [];
  }

  // ------------------------------------------------------------------------------------------------------------
  // Order
  // ------------------------------------------------------------------------------------------------------------

  function Reverse(messages: seq<Message>): seq<Message> {
    seq(|messages|, i requires 0 <= i < |messages| => messages[|messages| - 1 - i])
  }

  /** Messages without the empty ones. */
  function NonEmpty(messages: seq<Message>, n: nat): seq<Message>
    requires n <= |messages|
  {
    if n == 0 then [] else NonEmpty(messages, n - 1) + if messages[n - 1] == "" then [] else [messages[n - 1]]
  }

  lemma {:induction false} NonEmptyOfPrefix(a: seq<Message>, b: seq<Message>, n: nat)
    requires a <= b && n <= |a|
    ensures NonEmpty(b, n) == NonEmpty(a, n)
  {
    if n > 0 {
      NonEmptyOfPrefix(a, b, n - 1);
    }
  }

  lemma {:induction false} NonEmptyGrows(messages: seq<Message>, n: nat, m: nat)
    requires n <= m <= |messages|
    ensures NonEmpty(messages, n) <= NonEmpty(messages, m)
  {
    if n < m {
      NonEmptyGrows(messages, n, m - 1);
    }
  }

  /** First in, first moved. */
  ghost predicate Fifo(s: System) {
    s.pushed == s.moved + Reverse(s.queue)
  }

  lemma {:induction false} ReverseSnoc(messages: seq<Message>)
    requires messages != []
    ensures Reverse(messages) == [Last(messages)] + Reverse(messages[..|messages| - 1])
  {
  }

  lemma {:induction false} ReverseCons(m: Message, messages: seq<Message>)
    ensures Reverse([m] + messages) == Reverse(messages) + [m]
  {
  }

  lemma {:induction false} FifoRun(steps: seq<Step>, n: nat)
    requires n <= |steps|
    ensures Fifo(Run(steps, n))
  {
    if n > 0 {
      FifoRun(steps, n - 1);
      var s := Run(steps, n - 1);
      match steps[n - 1]
      case Push(m) => ReverseCons(m, s.queue);
      case Pop(c, _) =>
        if s.queue != [] {
          ReverseSnoc(s.queue);
        }
      case _ =>
    }
  }

  predicate By(step: Step, c: ConsumerId) {
    step.Push? || step.c == c
  }

  /** All that a sole consumer moved was sent, but for a message it holds, or held when it was cancelled. */
  ghost predicate SendsInOrder(s: System, c: ConsumerId) {
    match if c in s.consumers then s.consumers[c] else Popping
    case Holding(m) => |s.moved| > 0 && m == Last(s.moved) != "" && s.sent == NonEmpty(s.moved, |s.moved| - 1)
    case Cancelled =>
      s.sent == NonEmpty(s.moved, |s.moved|) || (|s.moved| > 0 && s.sent == NonEmpty(s.moved, |s.moved| - 1))
    case _ => s.sent == NonEmpty(s.moved, |s.moved|)
  }

  ghost predicate Alone(s: System, c: ConsumerId) {
    s.consumers.Keys <= {c}
  }

  lemma {:induction false} SoleConsumerStep(s: System, step: Step, c: ConsumerId)
    requires Alone(s, c) && By(step, c) && SendsInOrder(s, c)
    ensures Alone(Apply(s, step), c) && SendsInOrder(Apply(s, step), c)
  {
    if step.Pop? && Enabled(s, step) {
      NonEmptyOfPrefix(s.moved, s.moved + [Last(s.queue)], |s.moved|);
    }
  }

  /** A sole consumer sends in push order, without gaps: at every moment it has sent a prefix of what was pushed, empty
      bodies aside. */
  lemma {:induction false} SoleConsumerSendsInPushOrder(steps: seq<Step>, c: ConsumerId)
    requires forall i | 0 <= i < |steps| :: By(steps[i], c)
    ensures var s := Run(steps, |steps|); s.sent <= NonEmpty(s.pushed, |s.pushed|)
  {
    SoleConsumerRun(steps, |steps|, c);
    FifoRun(steps, |steps|);
    var s := Run(steps, |steps|);
    NonEmptyOfPrefix(s.moved, s.pushed, |s.moved|);
    NonEmptyGrows(s.pushed, |s.moved|, |s.pushed|);
    if s.moved != [] {
      NonEmptyGrows(s.moved, |s.moved| - 1, |s.moved|);
    }
  }

  lemma {:induction false} SoleConsumerRun(steps: seq<Step>, n: nat, c: ConsumerId)
    requires n <= |steps| && forall i | 0 <= i < n :: By(steps[i], c)
    ensures var s := Run(steps, n); Alone(s, c) && SendsInOrder(s, c)
  {
    if n > 0 {
      SoleConsumerRun(steps, n - 1, c);
      SoleConsumerStep(Run(steps, n - 1), steps[n - 1], c);
    }
  }
}
