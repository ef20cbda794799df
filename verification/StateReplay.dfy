/** Checking out the state of an agent at a revision (facade/logic.py): a snapshot, then the patches after it. */
module StateReplay {
  import opened Common

  type StateId = nat
  type SessionId = nat

  /** One operation of a patch document. */
  datatype Op = Op(op: string, path: string, value: Json)

  datatype Patch = Patch(state: StateId, rev: int, ts: Time, op: Op)

  datatype Snapshot = Snapshot(state: StateId, session: SessionId, rev: int, ts: Time, value: Json)

  /** Patch application (section 4 of RFC 6902): a new document, or a failure. */
  type Apply = (Json, Op) -> Option<Json>

  /** The rows of one agent, and what is asked: a session, and a revision or the latest state. */
  datatype Query = Query(apply: Apply, log: seq<Patch>, snapshots: seq<Snapshot>, session: SessionId, upTo: Option<int>)

  function ByTime(p: Patch): real { p.ts }

  function ByRevision(p: Patch): real { p.rev as real }

  function LastRevisionFirst(p: Patch): real { -(p.rev as real) }

  function NewestFirst(s: Snapshot): real { -s.ts }

  function NewestRevisionFirst(s: Snapshot): real { -(s.rev as real) }

  // ------------------------------------------------------------------------------------------------------------
  // Ordered queries
  // ------------------------------------------------------------------------------------------------------------

  /** Where a new element goes among the first `n` of a sorted list: behind those not greater. */
  function Place<T>(sorted: seq<T>, n: nat, x: T, key: T -> real): (p: nat)
    requires n <= |sorted|
    ensures p <= n
  {
    if n == 0 || key(sorted[n - 1]) <= key(x) then n else Place(sorted, n - 1, x, key)
  }

  function InsertAt<T>(xs: seq<T>, p: nat, x: T): seq<T>
    requires p <= |xs|
  {
    xs[..p] + [x] + xs[p..]
  }

  function SortFirst<T>(xs: seq<T>, n: nat, key: T -> real): seq<T>
    requires n <= |xs|
  {
    if n == 0 then []
    else
      var sorted := SortFirst(xs, n - 1, key);
      InsertAt(sorted, Place(sorted, |sorted|, xs[n - 1], key), xs[n - 1])
  }

  /** The rows of a query in ascending order of a key. */
  function OrderBy<T>(xs: seq<T>, key: T -> real): seq<T> {
    SortFirst(xs, |xs|, key)
  }

  function Reverse<T>(xs: seq<T>): seq<T> {
    seq(|xs|, i requires 0 <= i < |xs| => xs[|xs| - 1 - i])
  }

  function Take<T>(xs: seq<T>, n: nat): seq<T> {
    if n <= |xs| then xs[..n] else xs
  }

  predicate Ascending<T>(xs: seq<T>, key: T -> real) {
    forall i, j | 0 <= i < j < |xs| :: key(xs[i]) < key(xs[j])
  }

  lemma {:induction false} SortAscending<T>(xs: seq<T>, n: nat, key: T -> real)
    requires Ascending(xs, key) && n <= |xs|
    ensures SortFirst(xs, n, key) == xs[..n]
  {
    if n > 0 {
      SortAscending(xs, n - 1, key);
      assert n > 1 ==> key(xs[n - 2]) < key(xs[n - 1]);
    }
  }

  lemma {:induction false} OrderByAscending<T>(xs: seq<T>, key: T -> real)
    requires Ascending(xs, key)
    ensures OrderBy(xs, key) == xs
  {
    SortAscending(xs, |xs|, key);
    assert xs[..|xs|] == xs;
  }

  lemma {:induction false} PlaceFirst<T>(sorted: seq<T>, n: nat, x: T, key: T -> real)
    requires n <= |sorted| && forall i | 0 <= i < |sorted| :: key(x) < key(sorted[i])
    ensures Place(sorted, n, x, key) == 0
  {
    if n > 0 {
      PlaceFirst(sorted, n - 1, x, key);
    }
  }

  lemma {:induction false} ReverseSnoc<T>(xs: seq<T>, n: nat)
    requires 0 < n <= |xs|
    ensures Reverse(xs[..n]) == [xs[n - 1]] + Reverse(xs[..n - 1])
  {
  }

  lemma {:induction false} SortDescending<T(!new)>(xs: seq<T>, n: nat, key: T -> real, down: T -> real)
    requires Ascending(xs, key) && n <= |xs| && forall x :: down(x) == -key(x)
    ensures SortFirst(xs, n, down) == Reverse(xs[..n])
  {
    if n > 0 {
      SortDescending(xs, n - 1, key, down);
      PlaceFirst(Reverse(xs[..n - 1]), n - 1, xs[n - 1], down);
      ReverseSnoc(xs, n);
    }
  }

  lemma {:induction false} OrderByDescending<T(!new)>(xs: seq<T>, key: T -> real, down: T -> real)
    requires Ascending(xs, key) && forall x :: down(x) == -key(x)
    ensures OrderBy(xs, down) == Reverse(xs)
  {
    SortDescending(xs, |xs|, key, down);
    assert xs[..|xs|] == xs;
  }

  // ------------------------------------------------------------------------------------------------------------
  // Replaying patches
  // ------------------------------------------------------------------------------------------------------------

  datatype Replayed = Replayed(value: Json, rev: int, ts: Option<Time>)

  /** A patch that cannot be applied is passed over; it moves neither the revision nor the time. */
  function Step(apply: Apply, r: Replayed, p: Patch): Replayed {
    match apply(r.value, p.op)
    case Some(value) => Replayed(value, p.rev, Some(p.ts))
    case None => r
  }

  /** After the first `n` patches. */
  function Fold(apply: Apply, start: Replayed, patches: seq<Patch>, n: nat): Replayed
    requires n <= |patches|
  {
    if n == 0 then start else Step(apply, Fold(apply, start, patches, n - 1), patches[n - 1])
  }

  predicate Within(rev: int, upTo: Option<int>) {
    upTo.None? || rev <= upTo.value
  }

  /** The patches of a state, among the first `n`, later than a time and not beyond a revision. */
  function Selected(log: seq<Patch>, n: nat, state: StateId, after: Time, upTo: Option<int>): seq<Patch>
    requires n <= |log|
  {
    if n == 0 then []
    else
      var p := log[n - 1];
      Selected(log, n - 1, state, after, upTo) + if p.state == state && p.ts > after && Within(p.rev, upTo) then [p] else []
  }

  function Usable(snapshots: seq<Snapshot>, n: nat, state: StateId, session: SessionId, upTo: Option<int>): seq<Snapshot>
    requires n <= |snapshots|
  {
    if n == 0 then []
    else
      var s := snapshots[n - 1];
      Usable(snapshots, n - 1, state, session, upTo) + if s.state == state && s.session == session && Within(s.rev, upTo) then [s] else []
  }

  /** The first row of a query in ascending order of a key. */
  function First<T>(xs: seq<T>, n: nat, key: T -> real): (i: nat)
    requires 0 < n <= |xs|
    ensures i < n && forall j | 0 <= j < n :: key(xs[i]) <= key(xs[j])
  {
    if n == 1 then 0
    else
      var i := First(xs, n - 1, key);
      if key(xs[n - 1]) < key(xs[i]) then n - 1 else i
  }

  /** With a target revision the usable snapshot of highest revision, otherwise the latest one. */
  function Anchor(q: Query, state: StateId): Option<Snapshot> {
    var usable := Usable(q.snapshots, |q.snapshots|, state, q.session, q.upTo);
    if usable == [] then None else Some(usable[First(usable, |usable|, if q.upTo.Some? then NewestRevisionFirst else NewestFirst)])
  }

  /** The state as asked, from one snapshot. */
  function Checkout(q: Query, s: Snapshot): Replayed {
    var patches := OrderBy(Selected(q.log, |q.log|, s.state, s.ts, q.upTo), ByTime);
    Fold(q.apply, Replayed(s.value, s.rev, None), patches, |patches|)
  }

  function Later(log: seq<Patch>, n: nat, rev: int): seq<Patch>
    requires n <= |log|
  {
    if n == 0 then [] else Later(log, n - 1, rev) + if log[n - 1].rev > rev then [log[n - 1]] else []
  }

  function Earlier(log: seq<Patch>, n: nat, rev: int): seq<Patch>
    requires n <= |log|
  {
    if n == 0 then [] else Earlier(log, n - 1, rev) + if log[n - 1].rev <= rev then [log[n - 1]] else []
  }

  /** The next patches of the whole agent after a revision. */
  function Forward(log: seq<Patch>, rev: int, count: int): seq<Patch> {
    if count <= 0 then [] else Take(OrderBy(Later(log, |log|, rev), ByRevision), count)
  }

  /** The last patches of the whole agent up to a revision, oldest first. */
  function Backward(log: seq<Patch>, rev: int, count: int): seq<Patch> {
    if count <= 0 then [] else Reverse(Take(OrderBy(Earlier(log, |log|, rev), LastRevisionFirst), count))
  }

  // ------------------------------------------------------------------------------------------------------------
  // The query
  // ------------------------------------------------------------------------------------------------------------

  datatype State = State(id: StateId, name: string)

  datatype Payload = Payload(states: map<string, Json>, rev: int, forward: seq<Patch>, backward: seq<Patch>, ts: Time)

  function CheckoutOf(q: Query, state: StateId): Option<Replayed> {
    var anchor := Anchor(q, state);
    if anchor.None? then None else Some(Checkout(q, anchor.value))
  }

  function Checkouts(q: Query, states: seq<State>): seq<Option<Replayed>> {
    seq(|states|, i requires 0 <= i < |states| => CheckoutOf(q, states[i].id))
  }

  predicate AllFound(checkouts: seq<Option<Replayed>>, n: nat)
    requires n <= |checkouts|
  {
    forall i | 0 <= i < n :: checkouts[i].Some?
  }

  /** The values of the first `n` states by name; a later state of the same name wins. */
  function Values(states: seq<State>, checkouts: seq<Option<Replayed>>, n: nat): map<string, Json>
    requires n <= |states| == |checkouts| && AllFound(checkouts, n)
  {
    if n == 0 then map[] else Values(states, checkouts, n - 1)[states[n - 1].name := checkouts[n - 1].value.value]
  }

  /** The highest revision any of the first `n` checkouts has reached, and never below 0. */
  function MaxRevision(checkouts: seq<Option<Replayed>>, n: nat): int
    requires n <= |checkouts| && AllFound(checkouts, n)
  {
    if n == 0 then 0
    else
      var before := MaxRevision(checkouts, n - 1);
      if checkouts[n - 1].value.rev > before then checkouts[n - 1].value.rev else before
  }

  /** The time of the last patch that applied to any state, states in order; the session's creation if none did. */
  function LatestTime(checkouts: seq<Option<Replayed>>, n: nat, created: Time): Time
    requires n <= |checkouts| && AllFound(checkouts, n)
  {
    if n == 0 then created
    else if checkouts[n - 1].value.ts.Some? then checkouts[n - 1].value.ts.value
    else LatestTime(checkouts, n - 1, created)
  }

  method Replay(apply: Apply, s: Snapshot, patches: seq<Patch>) returns (value: Json, rev: int, ts: Option<Time>)
    ensures Replayed(value, rev, ts) == Fold(apply, Replayed(s.value, s.rev, None), patches, |patches|)
  {
    value, rev, ts := s.value, s.rev, None;
    for i := 0 to |patches|
      invariant Replayed(value, rev, ts) == Fold(apply, Replayed(s.value, s.rev, None), patches, i)
    {
      var applied := apply(value, patches[i].op);
      if applied.Some? {
        value := applied.value;
        rev := patches[i].rev;
        ts := Some(patches[i].ts);
      }
    }
  }

  method CheckoutState(q: Query, state: StateId) returns (r: Option<Replayed>)
    ensures r == CheckoutOf(q, state)
  {
    var anchor := Anchor(q, state);
    if anchor.None? {
      return None;
    }
    AnchorIsUsable(q, state);
    var patches := OrderBy(Selected(q.log, |q.log|, state, anchor.value.ts, q.upTo), ByTime);
    var value, rev, ts := Replay(q.apply, anchor.value, patches);
    r := Some(Replayed(value, rev, ts));
  }

  /** What the loop over the states has gathered. */
  datatype Totals = Totals(values: map<string, Json>, reached: int, latest: Time)

  /** After the first `n` checkouts. */
  function TotalsAfter(states: seq<State>, checkouts: seq<Option<Replayed>>, n: nat, created: Time): Totals
    requires n <= |states| == |checkouts| && AllFound(checkouts, n)
  {
    Totals(Values(states, checkouts, n), MaxRevision(checkouts, n), LatestTime(checkouts, n, created))
  }

  /** One checkout more. */
  method Tally(states: seq<State>, ghost checkouts: seq<Option<Replayed>>, i: nat, created: Time, checkout: Replayed, totals: Totals)
    returns (more: Totals)
    requires i < |states| == |checkouts| && AllFound(checkouts, i) && checkouts[i] == Some(checkout)
    requires totals == TotalsAfter(states, checkouts, i, created)
    ensures AllFound(checkouts, i + 1) && more == TotalsAfter(states, checkouts, i + 1, created)
  {
    var values, reached, latest := totals.values, totals.reached, totals.latest;
    if checkout.ts.Some? {
      latest := checkout.ts.value;
    }
    if checkout.rev > reached {
      reached := checkout.rev;
    }
    more := Totals(values[states[i].name := checkout.value], reached, latest);
  }

  method CheckoutStates(q: Query, states: seq<State>, created: Time) returns (r: Option<Totals>)
    ensures r.Some? <==> AllFound(Checkouts(q, states), |states|)
    ensures r.Some? ==> r.value == TotalsAfter(states, Checkouts(q, states), |states|, created)
  {
    ghost var checkouts := Checkouts(q, states);
    var totals := Totals(map[], 0, created);
    for i := 0 to |states|
      invariant AllFound(checkouts, i) && totals == TotalsAfter(states, checkouts, i, created)
    {
      var checkout := CheckoutState(q, states[i].id);
      assert checkouts[i] == checkout;
      if checkout.None? {
        return None;
      }
      totals := Tally(states, checkouts, i, created, checkout.value, totals);
    }
    r := Some(totals);
  }

  /** What a checkout answers: nothing when a state has no usable snapshot, otherwise values, revision, time and the patches around. */
  predicate IsAnswer(q: Query, states: seq<State>, created: Time, forwardCount: int, backwardCount: int, r: Option<Payload>) {
    var checkouts := Checkouts(q, states);
    && (r.Some? <==> AllFound(checkouts, |states|))
    && (r.Some? ==>
      var reference := if q.upTo.Some? then q.upTo.value else r.value.rev;
      && r.value.states == Values(states, checkouts, |states|)
      && r.value.rev == MaxRevision(checkouts, |states|)
      && r.value.forward == Forward(q.log, reference, forwardCount)
      && r.value.backward == Backward(q.log, reference, backwardCount)
      && r.value.ts == LatestTime(checkouts, |states|, created))
  }

  /** All states of one session at a revision, or at their latest, with the patches around. */
  method GetLatestState(q: Query, states: seq<State>, created: Time, forwardCount: int,
        backwardCount: int) returns (r: Option<Payload>)
    ensures IsAnswer(q, states, created, forwardCount, backwardCount, r)
  {
    var totals := CheckoutStates(q, states, created);
    if totals.None? {
      return None;
    }
    var reference := if q.upTo.Some? then q.upTo.value else totals.value.reached;
    r := Some(Payload(totals.value.values, totals.value.reached, Forward(q.log, reference, forwardCount),
                      Backward(q.log, reference, backwardCount), totals.value.latest));
  }

  lemma {:induction false} UsableMembers(snapshots: seq<Snapshot>, n: nat, state: StateId, session: SessionId,
        upTo: Option<int>, s: Snapshot)
    requires n <= |snapshots|
    ensures s in Usable(snapshots, n, state, session, upTo)
      <==> s in snapshots[..n] && s.state == state && s.session == session && Within(s.rev, upTo)
  {
    if n > 0 {
      UsableMembers(snapshots, n - 1, state, session, upTo, s);
      assert snapshots[..n] == snapshots[..n - 1] + [snapshots[n - 1]];
    }
  }

  lemma {:induction false} AnchorIsUsable(q: Query, state: StateId)
    ensures var anchor := Anchor(q, state);
      anchor.Some? ==>
        anchor.value in q.snapshots && anchor.value.state == state && anchor.value.session == q.session && Within(anchor.value.rev, q.upTo)
  {
    var anchor := Anchor(q, state);
    if anchor.Some? {
      UsableMembers(q.snapshots, |q.snapshots|, state, q.session, q.upTo, anchor.value);
      assert q.snapshots[..|q.snapshots|] == q.snapshots;
    }
  }

  // ------------------------------------------------------------------------------------------------------------
  // Laws of folding and selecting
  // ------------------------------------------------------------------------------------------------------------

  /** Revisions and times order the patches alike, and the log lists them in that order. */
  predicate Chronological(log: seq<Patch>) {
    forall i, j | 0 <= i < j < |log| :: log[i].rev < log[j].rev && log[i].ts < log[j].ts
  }

  /** The snapshot lies between the same patches by revision as by time. */
  predicate Aligned(s: Snapshot, log: seq<Patch>) {
    forall p | p in log :: p.ts > s.ts <==> p.rev > s.rev
  }

  /** The patches of a state, among the first `n`, with a revision in a range. */
  function Range(log: seq<Patch>, n: nat, state: StateId, after: int, upTo: Option<int>): seq<Patch>
    requires n <= |log|
  {
    if n == 0 then []
    else
      var p := log[n - 1];
      Range(log, n - 1, state, after, upTo) + if p.state == state && p.rev > after && Within(p.rev, upTo) then [p] else []
  }

  /** The value after all patches of a state in a range, whatever fails. */
  function ValueAfter(apply: Apply, value: Json, patches: seq<Patch>): Json {
    Fold(apply, Replayed(value, 0, None), patches, |patches|).value
  }

  lemma {:induction false} FoldValue(apply: Apply, a: Replayed, b: Replayed, patches: seq<Patch>, n: nat)
    requires n <= |patches| && a.value == b.value
    ensures Fold(apply, a, patches, n).value == Fold(apply, b, patches, n).value
  {
    if n > 0 {
      FoldValue(apply, a, b, patches, n - 1);
    }
  }

  lemma {:induction false} FoldOfFirst(apply: Apply, start: Replayed, a: seq<Patch>, b: seq<Patch>, n: nat)
    requires n <= |a|
    ensures Fold(apply, start, a + b, n) == Fold(apply, start, a, n)
  {
    if n > 0 {
      FoldOfFirst(apply, start, a, b, n - 1);
    }
  }

  lemma {:induction false} FoldAppend(apply: Apply, start: Replayed, a: seq<Patch>, b: seq<Patch>, n: nat)
    requires n <= |b|
    ensures Fold(apply, start, a + b, |a| + n) == Fold(apply, Fold(apply, start, a, |a|), b, n)
  {
    if n == 0 {
      FoldOfFirst(apply, start, a, b, |a|);
    } else {
      FoldAppend(apply, start, a, b, n - 1);
    }
  }

  lemma {:induction false} ValueAfterBoth(apply: Apply, value: Json, a: seq<Patch>, b: seq<Patch>)
    ensures ValueAfter(apply, value, a + b) == ValueAfter(apply, ValueAfter(apply, value, a), b)
  {
    var start := Replayed(value, 0, None);
    FoldAppend(apply, start, a, b, |b|);
    FoldValue(apply, Fold(apply, start, a, |a|), Replayed(ValueAfter(apply, value, a), 0, None), b, |b|);
  }

  lemma {:induction false} SelectedIsRange(log: seq<Patch>, n: nat, s: Snapshot, upTo: Option<int>)
    requires n <= |log| && Aligned(s, log)
    ensures Selected(log, n, s.state, s.ts, upTo) == Range(log, n, s.state, s.rev, upTo)
  {
    if n > 0 {
      SelectedIsRange(log, n - 1, s, upTo);
      assert log[n - 1] in log;
    }
  }

  lemma {:induction false} RangeFrom(log: seq<Patch>, n: nat, state: StateId, after: int, upTo: Option<int>, i: nat) returns (j: nat)
    requires n <= |log| && i < |Range(log, n, state, after, upTo)|
    ensures j < n && Range(log, n, state, after, upTo)[i] == log[j]
  {
    if i < |Range(log, n - 1, state, after, upTo)| {
      j := RangeFrom(log, n - 1, state, after, upTo, i);
    } else {
      j := n - 1;
    }
  }

  lemma {:induction false} RangeIsChronological(log: seq<Patch>, n: nat, state: StateId, after: int, upTo: Option<int>)
    requires n <= |log| && Chronological(log)
    ensures Ascending(Range(log, n, state, after, upTo), ByTime)
  {
    if n > 0 {
      RangeIsChronological(log, n - 1, state, after, upTo);
      var earlier := Range(log, n - 1, state, after, upTo);
      forall i: nat | i < |earlier|
        ensures earlier[i].ts < log[n - 1].ts
      {
        var j := RangeFrom(log, n - 1, state, after, upTo, i);
      }
    }
  }

  lemma {:induction false} EmptyRange(log: seq<Patch>, n: nat, state: StateId, after: int, upTo: Option<int>)
    requires n <= |log| && forall i | 0 <= i < n :: log[i].rev <= after
    ensures Range(log, n, state, after, upTo) == []
  {
    if n > 0 {
      EmptyRange(log, n - 1, state, after, upTo);
    }
  }

  /** Neighbouring ranges join. */
  lemma {:induction false} RangesJoin(log: seq<Patch>, n: nat, state: StateId, after: int, mid: int, upTo: Option<int>)
    requires n <= |log| && Chronological(log) && after <= mid && Within(mid, upTo)
    ensures Range(log, n, state, after, upTo) == Range(log, n, state, after, Some(mid)) + Range(log, n, state, mid, upTo)
  {
    if n > 0 {
      RangesJoin(log, n - 1, state, after, mid, upTo);
      if log[n - 1].rev <= mid {
        EmptyRange(log, n - 1, state, mid, upTo);
        EmptyRange(log, n, state, mid, upTo);
      }
    }
  }

  /** A checkout plays exactly the patches of the state after its snapshot, up to the target. */
  lemma {:induction false} CheckoutPlaysTheRange(q: Query, s: Snapshot)
    requires Chronological(q.log) && Aligned(s, q.log)
    ensures Checkout(q, s).value == ValueAfter(q.apply, s.value, Range(q.log, |q.log|, s.state, s.rev, q.upTo))
  {
    var patches := Range(q.log, |q.log|, s.state, s.rev, q.upTo);
    SelectedIsRange(q.log, |q.log|, s, q.upTo);
    RangeIsChronological(q.log, |q.log|, s.state, s.rev, q.upTo);
    OrderByAscending(patches, ByTime);
    FoldValue(q.apply, Replayed(s.value, s.rev, None), Replayed(s.value, 0, None), patches, |patches|);
  }

  // ------------------------------------------------------------------------------------------------------------
  // Main results
  // ------------------------------------------------------------------------------------------------------------

  /** The snapshot holds what replaying from an earlier one gives. */
  predicate Faithful(q: Query, first: Snapshot, s: Snapshot) {
    && s.state == first.state && first.rev <= s.rev
    && s.value == ValueAfter(q.apply, first.value, Range(q.log, |q.log|, s.state, first.rev, Some(s.rev)))
  }

  /** Whichever faithful snapshot anchors a checkout, it is the replay of every patch since the first snapshot. */
  lemma {:induction false} AnchoringIsIrrelevant(q: Query, first: Snapshot, s: Snapshot)
    requires Chronological(q.log) && Aligned(s, q.log) && Faithful(q, first, s) && Within(s.rev, q.upTo)
    ensures Checkout(q, s).value == ValueAfter(q.apply, first.value, Range(q.log, |q.log|, s.state, first.rev, q.upTo))
  {
    CheckoutPlaysTheRange(q, s);
    RangesJoin(q.log, |q.log|, s.state, first.rev, s.rev, q.upTo);
    ValueAfterBoth(q.apply, first.value, Range(q.log, |q.log|, s.state, first.rev, Some(s.rev)), Range(q.log, |q.log|, s.state, s.rev, q.upTo));
  }

  /** Every snapshot of a state in the session is aligned and holds the replay since the first one. */
  predicate Replayable(q: Query, first: Snapshot, state: StateId) {
    forall s | s in q.snapshots && s.state == state && s.session == q.session :: Aligned(s, q.log) && Faithful(q, first, s)
  }

  /** So the value the query picks is the full replay, whatever snapshots there are, as long as they are faithful. */
  lemma {:induction false} QueryIsTheFullReplay(q: Query, first: Snapshot, state: StateId)
    requires Chronological(q.log) && Anchor(q, state).Some? && Replayable(q, first, state)
    ensures CheckoutOf(q, state).Some?
      && CheckoutOf(q, state).value.value == ValueAfter(q.apply, first.value, Range(q.log, |q.log|, state, first.rev, q.upTo))
  {
    AnchorIsUsable(q, state);
    AnchoringIsIrrelevant(q, first, Anchor(q, state).value);
  }

  /** How many patches are not beyond a revision; in a chronological log these come first. */
  function Split(log: seq<Patch>, n: nat, rev: int): (c: nat)
    requires n <= |log|
    ensures c <= n
  {
    if n == 0 then 0 else Split(log, n - 1, rev) + if log[n - 1].rev <= rev then 1 else 0
  }

  lemma {:induction false} SplitsTheLog(log: seq<Patch>, n: nat, rev: int)
    requires n <= |log| && Chronological(log)
    ensures forall i | 0 <= i < Split(log, n, rev) :: log[i].rev <= rev
    ensures forall i | Split(log, n, rev) <= i < n :: log[i].rev > rev
  {
    if n > 0 {
      SplitsTheLog(log, n - 1, rev);
      var c := Split(log, n - 1, rev);
      assert c < n - 1 ==> log[c].rev < log[n - 1].rev;
    }
  }

  lemma {:induction false} EarlierIsThePrefix(log: seq<Patch>, n: nat, c: nat, rev: int)
    requires c <= |log| && n <= |log|
    requires (forall i | 0 <= i < c :: log[i].rev <= rev) && (forall i | c <= i < |log| :: log[i].rev > rev)
    ensures Earlier(log, n, rev) == log[..if n <= c then n else c]
  {
    if n > 0 {
      EarlierIsThePrefix(log, n - 1, c, rev);
    }
  }

  lemma {:induction false} LaterIsTheRest(log: seq<Patch>, n: nat, c: nat, rev: int)
    requires c <= n <= |log|
    requires (forall i | 0 <= i < c :: log[i].rev <= rev) && (forall i | c <= i < |log| :: log[i].rev > rev)
    ensures Later(log, n, rev) == log[c..n]
  {
    if n > c {
      LaterIsTheRest(log, n - 1, c, rev);
    } else {
      NothingLater(log, n, rev);
    }
  }

  lemma {:induction false} NothingLater(log: seq<Patch>, n: nat, rev: int)
    requires n <= |log| && forall i | 0 <= i < n :: log[i].rev <= rev
    ensures Later(log, n, rev) == []
  {
    if n > 0 {
      NothingLater(log, n - 1, rev);
    }
  }

  function Clamp(n: int, most: nat): nat {
    if n <= 0 then 0 else if n <= most then n else most
  }

  lemma {:induction false} ReverseTwice<T>(xs: seq<T>, n: nat)
    requires n <= |xs|
    ensures Reverse(Reverse(xs)[..n]) == xs[|xs| - n..]
  {
  }

  lemma {:induction false} ForwardIsASlice(log: seq<Patch>, rev: int, count: int)
    requires Chronological(log)
    ensures var c := Split(log, |log|, rev); Forward(log, rev, count) == log[c..c + Clamp(count, |log| - c)]
  {
    SplitsTheLog(log, |log|, rev);
    LaterInOrder(log, rev, Split(log, |log|, rev));
    ForwardTakes(log, rev, count, log[Split(log, |log|, rev)..|log|]);
    TakeIsASlice(log, Split(log, |log|, rev), log[Split(log, |log|, rev)..|log|], count);
  }

  lemma {:induction false} ForwardTakes(log: seq<Patch>, rev: int, count: int, rest: seq<Patch>)
    requires OrderBy(Later(log, |log|, rev), ByRevision) == rest
    ensures Forward(log, rev, count) == if count <= 0 then [] else Take(rest, count)
  {
  }

  lemma {:induction false} LaterInOrder(log: seq<Patch>, rev: int, c: nat)
    requires Chronological(log) && c <= |log|
    requires (forall i | 0 <= i < c :: log[i].rev <= rev) && (forall i | c <= i < |log| :: log[i].rev > rev)
    ensures OrderBy(Later(log, |log|, rev), ByRevision) == log[c..|log|]
  {
    LaterIsTheRest(log, |log|, c, rev);
    SliceIsAscending(log, c);
    OrderByAscending(log[c..|log|], ByRevision);
  }

  lemma {:induction false} SliceIsAscending(log: seq<Patch>, c: nat)
    requires c <= |log| && Chronological(log)
    ensures Ascending(log[c..|log|], ByRevision)
  {
  }

  lemma {:induction false} TakeIsASlice(log: seq<Patch>, c: nat, rest: seq<Patch>, count: int)
    requires c <= |log| && rest == log[c..|log|]
    ensures count > 0 ==> Take(rest, count) == log[c..c + Clamp(count, |log| - c)]
    ensures count <= 0 ==> log[c..c + Clamp(count, |log| - c)] == []
  {
  }

  lemma {:induction false} BackwardIsASlice(log: seq<Patch>, rev: int, count: int)
    requires Chronological(log)
    ensures var c := Split(log, |log|, rev); Backward(log, rev, count) == log[c - Clamp(count, c)..c]
  {
    var c := Split(log, |log|, rev);
    var back := Reverse(log[..c]);
    assert OrderBy(Earlier(log, |log|, rev), LastRevisionFirst) == back by {
      SplitsTheLog(log, |log|, rev);
      EarlierInReverse(log, rev, c);
    }
    ReversedTakeIsASlice(log, c, back, count);
  }

  lemma {:induction false} EarlierInReverse(log: seq<Patch>, rev: int, c: nat)
    requires Chronological(log) && c <= |log|
    requires (forall i | 0 <= i < c :: log[i].rev <= rev) && (forall i | c <= i < |log| :: log[i].rev > rev)
    ensures OrderBy(Earlier(log, |log|, rev), LastRevisionFirst) == Reverse(log[..c])
  {
    EarlierIsThePrefix(log, |log|, c, rev);
    OrderByDescending(log[..c], ByRevision, LastRevisionFirst);
  }

  lemma {:induction false} ReversedTakeIsASlice(log: seq<Patch>, c: nat, back: seq<Patch>, count: int)
    requires c <= |log| && back == Reverse(log[..c])
    ensures count > 0 ==> Reverse(Take(back, count)) == log[c - Clamp(count, c)..c]
    ensures count <= 0 ==> log[c - Clamp(count, c)..c] == []
  {
    if count > 0 {
      ReverseTwice(log[..c], Clamp(count, c));
      assert Take(back, count) == Reverse(log[..c])[..Clamp(count, c)];
    }
  }

  /** Two neighbouring slices of a list are one slice, of so many before and so many after a place. */
  predicate IsWindow<T(==)>(xs: seq<T>, c: nat, before: seq<T>, after: seq<T>, beforeCount: int, afterCount: int)
    requires c <= |xs|
  {
    && before == xs[c - Clamp(beforeCount, c)..c]
    && after == xs[c..c + Clamp(afterCount, |xs| - c)]
    && before + after == xs[c - Clamp(beforeCount, c)..c + Clamp(afterCount, |xs| - c)]
  }

  lemma {:induction false} SlicesJoin<T>(xs: seq<T>, c: nat, before: seq<T>, after: seq<T>, beforeCount: int, afterCount: int)
    requires c <= |xs|
    requires before == xs[c - Clamp(beforeCount, c)..c] && after == xs[c..c + Clamp(afterCount, |xs| - c)]
    ensures IsWindow(xs, c, before, after, beforeCount, afterCount)
  {
  }

  /** Backward and forward patches are one contiguous window of the log, split at the reference revision. */
  lemma {:induction false} WindowIsContiguous(log: seq<Patch>, rev: int, forwardCount: int, backwardCount: int)
    requires Chronological(log)
    ensures IsWindow(log, Split(log, |log|, rev), Backward(log, rev, backwardCount), Forward(log, rev, forwardCount),
      backwardCount, forwardCount)
  {
    BackwardIsASlice(log, rev, backwardCount);
    ForwardIsASlice(log, rev, forwardCount);
    SlicesJoin(log, Split(log, |log|, rev), Backward(log, rev, backwardCount), Forward(log, rev, forwardCount), backwardCount, forwardCount);
  }

  /** Those of a list that belong to a state. */
  function OfState(patches: seq<Patch>, n: nat, state: StateId): seq<Patch>
    requires n <= |patches|
  {
    if n == 0 then [] else OfState(patches, n - 1, state) + if patches[n - 1].state == state then [patches[n - 1]] else []
  }

  /** A slice of the log, as the range of revisions it covers. */
  lemma {:induction false} SliceIsARange(log: seq<Patch>, from: nat, to: nat, n: nat, state: StateId, rev: int)
    requires from < to <= |log| && from <= n <= |log| && Chronological(log)
    requires (forall i | 0 <= i < from :: log[i].rev <= rev) && log[from].rev > rev
    ensures var upTo := Some(log[to - 1].rev);
      Range(log, n, state, rev, upTo) == OfState(log[from..to], if n <= to then n - from else to - from, state)
    decreases n
  {
    if n == from {
      EmptyRange(log, n, state, rev, Some(log[to - 1].rev));
    } else {
      SliceIsARange(log, from, to, n - 1, state, rev);
      assert from < n - 1 ==> log[from].rev < log[n - 1].rev;
      if n <= to {
        assert log[from..to][n - 1 - from] == log[n - 1];
        assert n < to ==> log[n - 1].rev < log[to - 1].rev;
      } else {
        assert log[to - 1].rev < log[n - 1].rev;
      }
    }
  }

  /** The revision that a list of forward patches leads to. */
  function Reached(rev: int, forward: seq<Patch>): int {
    if forward == [] then rev else Last(forward).rev
  }

  /** The forward patches of a state are the ones between two revisions. */
  lemma {:induction false} RangeLeadsOn(log: seq<Patch>, state: StateId, after: int, rev: int, count: int)
    requires Chronological(log) && after <= rev
    ensures var forward := Forward(log, rev, count);
      && Reached(rev, forward) >= rev
      && Range(log, |log|, state, after, Some(Reached(rev, forward)))
        == Range(log, |log|, state, after, Some(rev)) + OfState(forward, |forward|, state)
  {
    ForwardIsASlice(log, rev, count);
    SplitsTheLog(log, |log|, rev);
    ForwardLeadsOn(log, state, after, rev, Split(log, |log|, rev), Forward(log, rev, count));
  }

  lemma {:induction false} ForwardLeadsOn(log: seq<Patch>, state: StateId, after: int, rev: int, c: nat, forward: seq<Patch>)
    requires Chronological(log) && after <= rev && c + |forward| <= |log| && forward == log[c..c + |forward|]
    requires (forall i | 0 <= i < c :: log[i].rev <= rev) && (forall i | c <= i < |log| :: log[i].rev > rev)
    ensures Reached(rev, forward) >= rev
    ensures Range(log, |log|, state, after, Some(Reached(rev, forward)))
      == Range(log, |log|, state, after, Some(rev)) + OfState(forward, |forward|, state)
  {
    if forward != [] {
      assert Last(forward) == log[c + |forward| - 1];
      SliceLeadsOn(log, state, after, rev, c, c + |forward|);
    }
  }

  lemma {:induction false} SliceLeadsOn(log: seq<Patch>, state: StateId, after: int, rev: int, from: nat, to: nat)
    requires Chronological(log) && after <= rev && from < to <= |log|
    requires (forall i | 0 <= i < from :: log[i].rev <= rev) && log[from].rev > rev
    ensures var later := log[to - 1].rev;
      && later >= rev
      && Range(log, |log|, state, after, Some(later)) == Range(log, |log|, state, after, Some(rev)) + OfState(log[from..to], to - from, state)
  {
    assert from < to - 1 ==> log[from].rev < log[to - 1].rev;
    SliceIsARange(log, from, to, |log|, state, rev);
    RangesJoin(log, |log|, state, after, rev, Some(log[to - 1].rev));
  }

  /** Asking again at a later revision finds a snapshot again, perhaps a newer one. */
  lemma {:induction false} AnchorsPersist(q: Query, state: StateId, rev: int, later: int)
    requires rev <= later && Anchor(q.(upTo := Some(rev)), state).Some?
    ensures Anchor(q.(upTo := Some(later)), state).Some?
  {
    var s := Anchor(q.(upTo := Some(rev)), state).value;
    AnchorIsUsable(q.(upTo := Some(rev)), state);
    UsableMembers(q.snapshots, |q.snapshots|, state, q.session, Some(later), s);
    assert q.snapshots[..|q.snapshots|] == q.snapshots;
  }

  /** Applying the forward patches of a state to its checkout gives its checkout at the last of them, though that may
      start from another snapshot. */
  lemma {:induction false} ForwardLeadsToTheLaterCheckout(q: Query, first: Snapshot, state: StateId, rev: int, count: int)
    requires Chronological(q.log) && Replayable(q, first, state) && CheckoutOf(q.(upTo := Some(rev)), state).Some?
    ensures var forward := Forward(q.log, rev, count);
      var later := CheckoutOf(q.(upTo := Some(Reached(rev, forward))), state);
      && later.Some?
      && later.value.value
        == ValueAfter(q.apply, CheckoutOf(q.(upTo := Some(rev)), state).value.value, OfState(forward, |forward|, state))
  {
    var forward := Forward(q.log, rev, count);
    var before, after := q.(upTo := Some(rev)), q.(upTo := Some(Reached(rev, forward)));
    AnchorIsUsable(before, state);
    RangeLeadsOn(q.log, state, first.rev, rev, count);
    AnchorsPersist(q, state, rev, Reached(rev, forward));
    QueryIsTheFullReplay(before, first, state);
    QueryIsTheFullReplay(after, first, state);
    ValueAfterBoth(q.apply, first.value, Range(q.log, |q.log|, state, first.rev, Some(rev)), OfState(forward, |forward|, state));
  }

  /** Nothing later in the list has the same name. */
  predicate NameIsLast(states: seq<State>, n: nat, i: nat)
    requires i < n <= |states|
  {
    forall j | i < j < n :: states[j].name != states[i].name
  }

  lemma {:induction false} ValuesAt(states: seq<State>, checkouts: seq<Option<Replayed>>, n: nat, i: nat)
    requires i < n <= |states| == |checkouts| && AllFound(checkouts, n) && NameIsLast(states, n, i)
    ensures states[i].name in Values(states, checkouts, n) && Values(states, checkouts, n)[states[i].name] == checkouts[i].value.value
  {
    if i < n - 1 {
      ValuesAt(states, checkouts, n - 1, i);
    }
  }

  /** So a client that plays the forward patches of one answer over its states holds the answer to the later query. */
  lemma {:induction false} AnswersLeadOn(q: Query, states: seq<State>, created: Time, rev: int, forwardCount: int, backwardCount: int,
      firsts: seq<Snapshot>, a: Option<Payload>, b: Option<Payload>)
    requires Chronological(q.log) && |firsts| == |states| && forall i | 0 <= i < |states| :: Replayable(q, firsts[i], states[i].id)
    requires IsAnswer(q.(upTo := Some(rev)), states, created, forwardCount, backwardCount, a) && a.Some?
    requires IsAnswer(q.(upTo := Some(Reached(rev, a.value.forward))), states, created, forwardCount, backwardCount, b)
    ensures b.Some?
    ensures forall i | 0 <= i < |states| && NameIsLast(states, |states|, i) ::
      var forward := a.value.forward;
      && states[i].name in a.value.states && states[i].name in b.value.states
      && b.value.states[states[i].name] == ValueAfter(q.apply, a.value.states[states[i].name], OfState(forward, |forward|, states[i].id))
  {
    var before, after := q.(upTo := Some(rev)), q.(upTo := Some(Reached(rev, a.value.forward)));
    forall i | 0 <= i < |states|
      ensures Checkouts(after, states)[i].Some?
      ensures Checkouts(after, states)[i].value.value
        == ValueAfter(q.apply, Checkouts(before, states)[i].value.value, OfState(a.value.forward, |a.value.forward|, states[i].id))
    {
      assert Checkouts(before, states)[i].Some?;
      ForwardLeadsToTheLaterCheckout(q, firsts[i], states[i].id, rev, forwardCount);
    }
    forall i | 0 <= i < |states| && NameIsLast(states, |states|, i)
      ensures states[i].name in a.value.states && a.value.states[states[i].name] == Checkouts(before, states)[i].value.value
      ensures states[i].name in b.value.states && b.value.states[states[i].name] == Checkouts(after, states)[i].value.value
    {
      ValuesAt(states, Checkouts(before, states), |states|, i);
      ValuesAt(states, Checkouts(after, states), |states|, i);
    }
  }

  /** The revision a checkout reports is the one of the last patch that applied, or the snapshot's. */
  lemma {:induction false} ReportedRevision(apply: Apply, start: Replayed, patches: seq<Patch>, n: nat)
    requires n <= |patches|
    ensures var r := Fold(apply, start, patches, n);
      r == start || exists i: nat | i < n :: LastApplied(apply, start, patches, n, i) && r.rev == patches[i].rev && r.ts == Some(patches[i].ts)
  {
    if n > 0 {
      ReportedRevision(apply, start, patches, n - 1);
      if Applied(apply, start, patches, n - 1) {
        assert LastApplied(apply, start, patches, n, n - 1);
      } else {
        var before := Fold(apply, start, patches, n - 1);
        assert Fold(apply, start, patches, n) == before;
        if before != start {
          var i: nat :| i < n - 1 && LastApplied(apply, start, patches, n - 1, i) && before.rev == patches[i].rev && before.ts == Some(patches[i].ts);
          assert LastApplied(apply, start, patches, n, i);
        }
      }
    }
  }

  ghost predicate LastApplied(apply: Apply, start: Replayed, patches: seq<Patch>, n: nat, i: nat)
    requires i < n <= |patches|
  {
    Applied(apply, start, patches, i) && forall j | i < j < n :: !Applied(apply, start, patches, j)
  }

  predicate Applied(apply: Apply, start: Replayed, patches: seq<Patch>, i: nat)
    requires i < |patches|
  {
    apply(Fold(apply, start, patches, i).value, patches[i].op).Some?
  }

  // ------------------------------------------------------------------------------------------------------------
  // Any log, any snapshots
  // ------------------------------------------------------------------------------------------------------------

  predicate Ordered<T>(xs: seq<T>, key: T -> real) {
    forall i, j | 0 <= i < j < |xs| :: key(xs[i]) <= key(xs[j])
  }

  lemma {:induction false} PlaceSplits<T>(sorted: seq<T>, n: nat, x: T, key: T -> real)
    requires n <= |sorted| && Ordered(sorted, key)
    ensures forall i | 0 <= i < Place(sorted, n, x, key) :: key(sorted[i]) <= key(x)
    ensures forall i | Place(sorted, n, x, key) <= i < n :: key(x) <= key(sorted[i])
  {
    if n > 0 && key(sorted[n - 1]) > key(x) {
      PlaceSplits(sorted, n - 1, x, key);
    }
  }

  lemma {:induction false} InsertOrders<T>(sorted: seq<T>, p: nat, x: T, key: T -> real)
    requires p <= |sorted| && Ordered(sorted, key)
    requires (forall i | 0 <= i < p :: key(sorted[i]) <= key(x)) && (forall i | p <= i < |sorted| :: key(x) <= key(sorted[i]))
    ensures Ordered(InsertAt(sorted, p, x), key)
    ensures multiset(InsertAt(sorted, p, x)) == multiset(sorted) + multiset{x}
  {
    assert sorted == sorted[..p] + sorted[p..];
  }

  lemma {:induction false} InPlaceOrders<T>(sorted: seq<T>, x: T, key: T -> real)
    requires Ordered(sorted, key)
    ensures var more := InsertAt(sorted, Place(sorted, |sorted|, x, key), x);
      Ordered(more, key) && multiset(more) == multiset(sorted) + multiset{x}
  {
    PlaceSplits(sorted, |sorted|, x, key);
    InsertOrders(sorted, Place(sorted, |sorted|, x, key), x, key);
  }

  /** A query with an order returns what it selects, in that order. */
  lemma {:induction false} SortOrders<T>(xs: seq<T>, n: nat, key: T -> real)
    requires n <= |xs|
    ensures Ordered(SortFirst(xs, n, key), key) && multiset(SortFirst(xs, n, key)) == multiset(xs[..n])
  {
    if n > 0 {
      SortOrders(xs, n - 1, key);
      InPlaceOrders(SortFirst(xs, n - 1, key), xs[n - 1], key);
      assert xs[..n] == xs[..n - 1] + [xs[n - 1]];
    }
  }

  lemma {:induction false} OrderByOrders<T>(xs: seq<T>, key: T -> real)
    ensures Ordered(OrderBy(xs, key), key) && multiset(OrderBy(xs, key)) == multiset(xs)
  {
    SortOrders(xs, |xs|, key);
    assert xs[..|xs|] == xs;
  }

  predicate IsLaterPatch(p: Patch, state: StateId, after: Time, upTo: Option<int>) {
    p.state == state && p.ts > after && (upTo.None? || p.rev <= upTo.value)
  }

  lemma {:induction false} SelectedAreFlagged(log: seq<Patch>, flags: seq<bool>, n: nat, state: StateId, after: Time, upTo: Option<int>)
    requires n <= |log| == |flags| && forall i | 0 <= i < n :: flags[i] == IsLaterPatch(log[i], state, after, upTo)
    ensures Selected(log, n, state, after, upTo) == Flagged(log, flags, n)
  {
    if n > 0 {
      SelectedAreFlagged(log, flags, n - 1, state, after, upTo);
    }
  }

  lemma {:induction false} SelectedCounts(log: seq<Patch>, state: StateId, after: Time, upTo: Option<int>, p: Patch)
    ensures multiset(Selected(log, |log|, state, after, upTo))[p] == if IsLaterPatch(p, state, after, upTo) then multiset(log)[p] else 0
  {
    var flags := seq(|log|, i requires 0 <= i < |log| => IsLaterPatch(log[i], state, after, upTo));
    SelectedAreFlagged(log, flags, |log|, state, after, upTo);
    FlaggedCounts(log, flags, |log|, p, IsLaterPatch(p, state, after, upTo));
    assert log[..|log|] == log;
  }

  /** These are the patches of a state later than a time and not beyond a revision, each as often as it is logged, by time. */
  ghost predicate AllByTime(all: seq<Patch>, log: seq<Patch>, state: StateId, after: Time, upTo: Option<int>) {
    && (forall i, j | 0 <= i < j < |all| :: all[i].ts <= all[j].ts)
    && (forall p :: multiset(all)[p] == if IsLaterPatch(p, state, after, upTo) then multiset(log)[p] else 0)
  }

  lemma {:induction false} SelectedByTime(log: seq<Patch>, state: StateId, after: Time, upTo: Option<int>)
    ensures AllByTime(OrderBy(Selected(log, |log|, state, after, upTo), ByTime), log, state, after, upTo)
  {
    var selected := Selected(log, |log|, state, after, upTo);
    var all := OrderBy(selected, ByTime);
    OrderByOrders(selected, ByTime);
    assert forall i, j | 0 <= i < j < |all| :: ByTime(all[i]) <= ByTime(all[j]);
    forall p
      ensures multiset(all)[p] == if IsLaterPatch(p, state, after, upTo) then multiset(log)[p] else 0
    {
      SelectedCounts(log, state, after, upTo, p);
    }
  }

  /** Whatever the log: a checkout replays, in order of time, every patch of the state that is later than the snapshot
      and not beyond the revision, each as often as it is logged. */
  lemma {:induction false} CheckoutReplaysByTime(q: Query, s: Snapshot) returns (patches: seq<Patch>)
    ensures Checkout(q, s) == Fold(q.apply, Replayed(s.value, s.rev, None), patches, |patches|)
    ensures AllByTime(patches, q.log, s.state, s.ts, q.upTo)
  {
    patches := OrderBy(Selected(q.log, |q.log|, s.state, s.ts, q.upTo), ByTime);
    SelectedByTime(q.log, s.state, s.ts, q.upTo);
  }

  lemma {:induction false} LaterAreFlagged(log: seq<Patch>, flags: seq<bool>, n: nat, rev: int)
    requires n <= |log| == |flags| && forall i | 0 <= i < n :: flags[i] == (log[i].rev > rev)
    ensures Later(log, n, rev) == Flagged(log, flags, n)
  {
    if n > 0 {
      LaterAreFlagged(log, flags, n - 1, rev);
    }
  }

  lemma {:induction false} LaterCounts(log: seq<Patch>, rev: int, p: Patch)
    ensures multiset(Later(log, |log|, rev))[p] == if p.rev > rev then multiset(log)[p] else 0
  {
    var flags := seq(|log|, i requires 0 <= i < |log| => log[i].rev > rev);
    LaterAreFlagged(log, flags, |log|, rev);
    FlaggedCounts(log, flags, |log|, p, p.rev > rev);
    assert log[..|log|] == log;
  }

  lemma {:induction false} EarlierAreFlagged(log: seq<Patch>, flags: seq<bool>, n: nat, rev: int)
    requires n <= |log| == |flags| && forall i | 0 <= i < n :: flags[i] == (log[i].rev <= rev)
    ensures Earlier(log, n, rev) == Flagged(log, flags, n)
  {
    if n > 0 {
      EarlierAreFlagged(log, flags, n - 1, rev);
    }
  }

  lemma {:induction false} EarlierCounts(log: seq<Patch>, rev: int, p: Patch)
    ensures multiset(Earlier(log, |log|, rev))[p] == if p.rev <= rev then multiset(log)[p] else 0
  {
    var flags := seq(|log|, i requires 0 <= i < |log| => log[i].rev <= rev);
    EarlierAreFlagged(log, flags, |log|, rev);
    FlaggedCounts(log, flags, |log|, p, p.rev <= rev);
    assert log[..|log|] == log;
  }

  /** These are the patches of the log on one side of a revision, each as often as it is logged, in an order of revisions. */
  ghost predicate AllByRevision(all: seq<Patch>, log: seq<Patch>, rev: int, beyond: bool) {
    && (forall i, j | 0 <= i < j < |all| :: if beyond then all[i].rev <= all[j].rev else all[i].rev >= all[j].rev)
    && (forall p :: multiset(all)[p] == if (p.rev > rev) == beyond then multiset(log)[p] else 0)
  }

  lemma {:induction false} LaterByRevision(log: seq<Patch>, rev: int)
    ensures AllByRevision(OrderBy(Later(log, |log|, rev), ByRevision), log, rev, true)
  {
    var all := OrderBy(Later(log, |log|, rev), ByRevision);
    OrderByOrders(Later(log, |log|, rev), ByRevision);
    assert forall i, j | 0 <= i < j < |all| :: ByRevision(all[i]) <= ByRevision(all[j]);
    forall p
      ensures multiset(all)[p] == if p.rev > rev then multiset(log)[p] else 0
    {
      LaterCounts(log, rev, p);
    }
  }

  lemma {:induction false} EarlierByRevision(log: seq<Patch>, rev: int)
    ensures AllByRevision(OrderBy(Earlier(log, |log|, rev), LastRevisionFirst), log, rev, false)
  {
    var all := OrderBy(Earlier(log, |log|, rev), LastRevisionFirst);
    OrderByOrders(Earlier(log, |log|, rev), LastRevisionFirst);
    assert forall i, j | 0 <= i < j < |all| :: LastRevisionFirst(all[i]) <= LastRevisionFirst(all[j]);
    forall p
      ensures multiset(all)[p] == if p.rev <= rev then multiset(log)[p] else 0
    {
      EarlierCounts(log, rev, p);
    }
  }

  lemma {:induction false} TakeClamps<T>(xs: seq<T>, count: int)
    ensures (if count <= 0 then [] else Take(xs, count)) == xs[..Clamp(count, |xs|)]
  {
    assert xs[..|xs|] == xs;
  }

  /** Whatever the log: the forward patches are the first `count` beyond the revision, by revision; */
  lemma {:induction false} ForwardByRevision(log: seq<Patch>, rev: int, count: int) returns (all: seq<Patch>)
    ensures AllByRevision(all, log, rev, true) && Forward(log, rev, count) == all[..Clamp(count, |all|)]
  {
    all := OrderBy(Later(log, |log|, rev), ByRevision);
    LaterByRevision(log, rev);
    TakeClamps(all, count);
  }

  /** and the backward patches are the last `count` up to it, oldest first. */
  lemma {:induction false} BackwardByRevision(log: seq<Patch>, rev: int, count: int) returns (all: seq<Patch>)
    ensures AllByRevision(all, log, rev, false) && Backward(log, rev, count) == Reverse(all[..Clamp(count, |all|)])
  {
    all := OrderBy(Earlier(log, |log|, rev), LastRevisionFirst);
    EarlierByRevision(log, rev);
    TakeClamps(all, count);
  }

  /** A snapshot the query may start from. */
  predicate MayAnchor(q: Query, state: StateId, s: Snapshot) {
    s in q.snapshots && s.state == state && s.session == q.session && (q.upTo.None? || s.rev <= q.upTo.value)
  }

  lemma {:induction false} UsableMayAnchor(q: Query, state: StateId, s: Snapshot)
    ensures s in Usable(q.snapshots, |q.snapshots|, state, q.session, q.upTo) <==> MayAnchor(q, state, s)
  {
    assert q.snapshots[..|q.snapshots|] == q.snapshots;
    UsableMembers(q.snapshots, |q.snapshots|, state, q.session, q.upTo, s);
  }

  /** It finds none exactly when there is none. */
  lemma {:induction false} AnchorIsFound(q: Query, state: StateId)
    ensures Anchor(q, state).None? <==> forall s :: !MayAnchor(q, state, s)
  {
    var usable := Usable(q.snapshots, |q.snapshots|, state, q.session, q.upTo);
    if usable == [] {
      forall s
        ensures !MayAnchor(q, state, s)
      {
        UsableMayAnchor(q, state, s);
      }
    } else {
      UsableMayAnchor(q, state, usable[0]);
      assert MayAnchor(q, state, usable[0]);
    }
  }

  /** With a target revision it starts from a snapshot of highest revision, otherwise from a latest one. */
  lemma {:induction false} AnchorIsTheBest(q: Query, state: StateId)
    requires Anchor(q, state).Some?
    ensures MayAnchor(q, state, Anchor(q, state).value)
    ensures forall s | MayAnchor(q, state, s) ::
      if q.upTo.Some? then s.rev <= Anchor(q, state).value.rev else s.ts <= Anchor(q, state).value.ts
  {
    var usable := Usable(q.snapshots, |q.snapshots|, state, q.session, q.upTo);
    var key := if q.upTo.Some? then NewestRevisionFirst else NewestFirst;
    var anchor := usable[First(usable, |usable|, key)];
    UsableMayAnchor(q, state, anchor);
    forall s | MayAnchor(q, state, s)
      ensures if q.upTo.Some? then s.rev <= anchor.rev else s.ts <= anchor.ts
    {
      UsableMayAnchor(q, state, s);
      var j :| 0 <= j < |usable| && usable[j] == s;
      assert key(anchor) <= key(usable[j]);
    }
  }

  /** The reported revision is 0 or one that some state reached, and none reached a higher one. */
  lemma {:induction false} MaxRevisionIsReached(checkouts: seq<Option<Replayed>>, n: nat)
    requires n <= |checkouts| && AllFound(checkouts, n)
    ensures MaxRevision(checkouts, n) >= 0 && forall i | 0 <= i < n :: checkouts[i].value.rev <= MaxRevision(checkouts, n)
    ensures MaxRevision(checkouts, n) == 0 || exists i | 0 <= i < n :: checkouts[i].value.rev == MaxRevision(checkouts, n)
  {
    if n > 0 {
      MaxRevisionIsReached(checkouts, n - 1);
    }
  }

  /** The reported time is that of the last state to which a patch applied, and the session's creation if there is none. */
  lemma {:induction false} LatestTimeIsTheLast(checkouts: seq<Option<Replayed>>, n: nat, created: Time)
    requires n <= |checkouts| && AllFound(checkouts, n)
    ensures (forall i | 0 <= i < n :: checkouts[i].value.ts.None?) ==> LatestTime(checkouts, n, created) == created
    ensures forall i | 0 <= i < n && checkouts[i].value.ts.Some? && (forall j | i < j < n :: checkouts[j].value.ts.None?) ::
      LatestTime(checkouts, n, created) == checkouts[i].value.ts.value
  {
    if n > 0 {
      LatestTimeIsTheLast(checkouts, n - 1, created);
    }
  }

  /** The values are named by exactly the states' names. */
  lemma {:induction false} ValuesAreByName(states: seq<State>, checkouts: seq<Option<Replayed>>, n: nat, name: string)
    requires n <= |states| == |checkouts| && AllFound(checkouts, n)
    ensures name in Values(states, checkouts, n) <==> exists i | 0 <= i < n :: states[i].name == name
  {
    if n > 0 {
      ValuesAreByName(states, checkouts, n - 1, name);
      assert states[n - 1].name == name ==> exists i | 0 <= i < n :: states[i].name == name;
    }
  }
}
