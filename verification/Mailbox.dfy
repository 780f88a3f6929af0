/**
  The in-process control mailbox (agent_forge/control.py): one terminal signal and one queue of
  steering messages per run id, and one more of each for signals bound to no run.

  Every operation runs under one lock, so a history of the object is a sequence of operations.  A
  signal is stamped before the lock is taken, so request times need not follow the order of submission.
*/
module Mailbox {
  import opened Wrappers
  import opened Counting
  import opened Ordering

  type RunId = string

  /** The key of signals that are bound to no run. */
  const UNBOUND: RunId := ""

  datatype Kind = Pause | Cancel | Steer

  datatype Signal = Signal(kind: Kind, text: string, requestedAt: real)

  // ----- state and operations as values -----

  datatype State = State(terminal: map<RunId, Signal>, steers: map<RunId, seq<Signal>>)

  const EMPTY := State(map[], map[])

  function Queue(s: State, key: RunId): seq<Signal> {
    if key in s.steers then s.steers[key] else []
  }

  predicate Earlier(a: Signal, b: Signal) {
    a.requestedAt < b.requestedAt
  }

  function Steered(s: State, key: RunId, signal: Signal): State {
    s.(steers := s.steers[key := Queue(s, key) + [signal]])
  }

  /** `drain_steers` takes the run's own queue and then the unbound one. */
  function Drained(s: State, run: RunId): State {
    s.(steers := s.steers - {run} - {UNBOUND})
  }

  function DrainResult(s: State, run: RunId): seq<Signal> {
    StableSort(Queue(s, run) + (if run == UNBOUND then [] else Queue(s, UNBOUND)), Earlier)
  }

  /** `_set_terminal`: a pending cancel is not replaced. */
  function Terminated(s: State, key: RunId, signal: Signal): State {
    if key in s.terminal && s.terminal[key].kind == Cancel then s else s.(terminal := s.terminal[key := signal])
  }

  /** Which key `take_terminal` consumes. */
  function TakenKey(s: State, run: RunId): Option<RunId> {
    if run in s.terminal then Some(run) else if UNBOUND in s.terminal then Some(UNBOUND) else None
  }

  function Taken(s: State, run: RunId): State {
    match TakenKey(s, run)
    case Some(key) => s.(terminal := s.terminal - {key})
    case None => s
  }

  function TakeResult(s: State, run: RunId): Option<Signal> {
    match TakenKey(s, run)
    case Some(key) => Some(s.terminal[key])
    case None => None
  }

  datatype Op =
    | Submit(key: RunId, signal: Signal)
    | Drain(run: RunId)
    | Terminate(key: RunId, signal: Signal)
    | Take(run: RunId)

  function Step(s: State, op: Op): State {
    match op
    case Submit(key, signal) => Steered(s, key, signal)
    case Drain(run) => Drained(s, run)
    case Terminate(key, signal) => Terminated(s, key, signal)
    case Take(run) => Taken(s, run)
  }

  function After(ops: seq<Op>): State {
    if ops == [] then EMPTY else Step(After(ops[..|ops| - 1]), ops[|ops| - 1])
  }

  // ----- the object -----

  predicate Blank(message: string) {
    forall i :: 0 <= i < |message| ==> message[i] in " \t\n\r"
  }

  class RunController {
    var terminal: map<RunId, Signal>
    var steers: map<RunId, seq<Signal>>
    ghost var history: seq<Op>

    ghost predicate Valid()
      reads this
    {
      State(terminal, steers) == After(history)
    }

    constructor ()
      ensures Valid() && history == []
    {
      terminal, steers, history := map[], map[], [];
    }

    /** `steer`; false is the `ValueError` for an empty message. */
    method SubmitSteer(message: string, run: RunId, now: real) returns (ok: bool)
      requires Valid()
      modifies this
      ensures Valid() && (ok <==> exists i :: 0 <= i < |message| && message[i] !in {' ', '\t', '\n', '\r'})
      ensures history == if ok then old(history) + [Submit(run, Signal(Steer, message, now))] else old(history)
    {
      if Blank(message) { return false; }
      var signal := Signal(Steer, message, now);
      var queue := if run in steers then steers[run] else [];
      steers := steers[run := queue + [signal]];
      Record(Submit(run, signal));
      ok := true;
    }

    /** `drain_steers`. */
    method DrainSteers(run: RunId) returns (signals: seq<Signal>)
      requires Valid()
      modifies this
      ensures Valid() && history == old(history) + [Drain(run)]
      ensures signals == DrainResult(After(old(history)), run)
    {
      signals := if run in steers then steers[run] else [];
      steers := steers - {run};
      signals := signals + if UNBOUND in steers then steers[UNBOUND] else [];
      steers := steers - {UNBOUND};
      signals := StableSort(signals, Earlier);
      Record(Drain(run));
    }

    /** `pause` and `cancel` through `_set_terminal`. */
    method SetTerminal(kind: Kind, reason: string, run: RunId, now: real)
      requires Valid() && kind != Steer
      modifies this
      ensures Valid() && history == old(history) + [Terminate(run, Signal(kind, reason, now))]
    {
      var signal := Signal(kind, reason, now);
      if !(run in terminal && terminal[run].kind == Cancel) {
        terminal := terminal[run := signal];
      }
      Record(Terminate(run, signal));
    }

    /** `take_terminal`. */
    method TakeTerminal(run: RunId) returns (signal: Option<Signal>)
      requires Valid()
      modifies this
      ensures Valid() && history == old(history) + [Take(run)]
      ensures signal == TakeResult(After(old(history)), run)
    {
      if run in terminal {
        signal := Some(terminal[run]);
        terminal := terminal - {run};
      } else if UNBOUND in terminal {
        signal := Some(terminal[UNBOUND]);
        terminal := terminal - {UNBOUND};
      } else {
        signal := None;
      }
      Record(Take(run));
    }

    ghost method Record(op: Op)
      requires State(terminal, steers) == Step(After(history), op)
      modifies this`history
      ensures Valid() && history == old(history) + [op]
    {
      history := history + [op];
      assert history[..|history| - 1] == old(history);
    }
  }

  // ----- conservation of steering messages -----

  /** A submitted signal with the key it was submitted under. */
  datatype Tagged = Tagged(key: RunId, signal: Signal)

  function Signals(tagged: seq<Tagged>): seq<Signal> {
    if tagged == [] then [] else Signals(tagged[..|tagged| - 1]) + [tagged[|tagged| - 1].signal]
  }

  function ForKey(key: RunId): Tagged -> bool {
    (t: Tagged) => t.key == key
  }

  /** What a poll by this run takes. */
  function Visible(run: RunId): Tagged -> bool {
    (t: Tagged) => t.key == run || t.key == UNBOUND
  }

  function Hidden(run: RunId): Tagged -> bool {
    (t: Tagged) => !(t.key == run || t.key == UNBOUND)
  }

  function Submitted(ops: seq<Op>): seq<Tagged> {
    if ops == [] then []
    else
      var rest, last := Submitted(ops[..|ops| - 1]), ops[|ops| - 1];
      if last.Submit? then rest + [Tagged(last.key, last.signal)] else rest
  }

  /** What is still queued, in the order of submission. */
  function Outstanding(ops: seq<Op>): seq<Tagged> {
    if ops == [] then []
    else
      var rest, last := Outstanding(ops[..|ops| - 1]), ops[|ops| - 1];
      match last
      case Submit(key, signal) => rest + [Tagged(key, signal)]
      case Drain(run) => Filter(rest, Hidden(run))
      case _ => rest
  }

  function OwnThenUnbound(pending: seq<Tagged>, run: RunId): seq<Tagged> {
    Filter(pending, ForKey(run)) + if run == UNBOUND then [] else Filter(pending, ForKey(UNBOUND))
  }

  predicate TaggedEarlier(a: Tagged, b: Tagged) {
    Earlier(a.signal, b.signal)
  }

  /** What a poll by this run is given, with the keys. */
  function Delivery(ops: seq<Op>, run: RunId): seq<Tagged> {
    StableSort(OwnThenUnbound(Outstanding(ops), run), TaggedEarlier)
  }

  function Delivered(ops: seq<Op>): seq<Tagged> {
    if ops == [] then []
    else
      var rest, last := Delivered(ops[..|ops| - 1]), ops[|ops| - 1];
      if last.Drain? then rest + Delivery(ops[..|ops| - 1], last.run) else rest
  }

  lemma {:induction false} FilterFilter(s: seq<Tagged>, p: Tagged -> bool, q: Tagged -> bool, r: Tagged -> bool)
    requires forall t :: r(t) <==> p(t) && q(t)
    ensures Filter(Filter(s, p), q) == Filter(s, r)
  {
    if s != [] {
      var kept, last := Filter(s[..|s| - 1], p), s[|s| - 1];
      FilterFilter(s[..|s| - 1], p, q, r);
      if p(last) { assert (kept + [last])[..|kept|] == kept; } else { assert kept + [] == kept; }
    }
  }

  lemma SignalsAppend(a: seq<Tagged>, t: Tagged)
    ensures Signals(a + [t]) == Signals(a) + [t.signal]
  {
    assert (a + [t])[..|a|] == a;
  }

  lemma {:induction false} SignalsConcat(a: seq<Tagged>, b: seq<Tagged>)
    ensures Signals(a + b) == Signals(a) + Signals(b)
  {
    if b == [] {
      assert a + b == a;
    } else {
      var rest, last := b[..|b| - 1], b[|b| - 1];
      calc {
        Signals(a + b);
        { assert a + b == (a + rest) + [last]; }
        Signals((a + rest) + [last]);
        { SignalsAppend(a + rest, last); }
        Signals(a + rest) + [last.signal];
        { SignalsConcat(a, rest); }
        Signals(a) + Signals(rest) + [last.signal];
        Signals(a) + Signals(b);
      }
    }
  }

  lemma FilterAppend(s: seq<Tagged>, t: Tagged, p: Tagged -> bool)
    ensures Filter(s + [t], p) == if p(t) then Filter(s, p) + [t] else Filter(s, p)
  {
    assert (s + [t])[..|s|] == s;
  }

  lemma SubmitMatches(s: State, pending: seq<Tagged>, key: RunId, t: Tagged)
    requires Queue(s, key) == Signals(Filter(pending, ForKey(key)))
    ensures Queue(Steered(s, t.key, t.signal), key) == Signals(Filter(pending + [t], ForKey(key)))
  {
    FilterAppend(pending, t, ForKey(key));
    SignalsAppend(Filter(pending, ForKey(key)), t);
  }

  lemma DrainMatches(s: State, pending: seq<Tagged>, key: RunId, run: RunId)
    requires Queue(s, key) == Signals(Filter(pending, ForKey(key)))
    ensures Queue(Drained(s, run), key) == Signals(Filter(Filter(pending, Hidden(run)), ForKey(key)))
  {
    if key == run || key == UNBOUND {
      FilterFilter(pending, Hidden(run), ForKey(key), (t: Tagged) => false);
      FilterNone(pending);
    } else {
      FilterFilter(pending, Hidden(run), ForKey(key), ForKey(key));
    }
  }

  /** The queue of every key is what was submitted under it and not yet drained, in order. */
  lemma {:induction false} QueuesMatch(ops: seq<Op>, key: RunId)
    ensures Queue(After(ops), key) == Signals(Filter(Outstanding(ops), ForKey(key)))
  {
    if ops != [] {
      var rest, last := ops[..|ops| - 1], ops[|ops| - 1];
      QueuesMatch(rest, key);
      match last
      case Submit(k, signal) => SubmitMatches(After(rest), Outstanding(rest), key, Tagged(k, signal));
      case Drain(run) => DrainMatches(After(rest), Outstanding(rest), key, run);
      case _ =>
    }
  }

  lemma {:induction false} FilterNone(s: seq<Tagged>)
    ensures Filter(s, (t: Tagged) => false) == []
  {
    if s != [] { FilterNone(s[..|s| - 1]); }
  }

  lemma {:induction false} InsertSignals(s: seq<Tagged>, t: Tagged)
    ensures Signals(Insert(s, t, TaggedEarlier)) == Insert(Signals(s), t.signal, Earlier)
  {
    if s == [] || !TaggedEarlier(t, s[|s| - 1]) {
      SignalsAppend(s, t);
    } else {
      InsertSignals(s[..|s| - 1], t);
      SignalsAppend(Insert(s[..|s| - 1], t, TaggedEarlier), s[|s| - 1]);
    }
  }

  lemma {:induction false} SortSignals(s: seq<Tagged>)
    ensures Signals(StableSort(s, TaggedEarlier)) == StableSort(Signals(s), Earlier)
  {
    if s != [] {
      SortSignals(s[..|s| - 1]);
      InsertSignals(StableSort(s[..|s| - 1], TaggedEarlier), s[|s| - 1]);
    }
  }

  /** The list a poll returns is the delivery without its keys. */
  lemma DrainDelivers(ops: seq<Op>, run: RunId)
    ensures DrainResult(After(ops), run) == Signals(Delivery(ops, run))
  {
    var pending := Outstanding(ops);
    QueuesMatch(ops, run);
    QueuesMatch(ops, UNBOUND);
    SignalsConcat(Filter(pending, ForKey(run)), if run == UNBOUND then [] else Filter(pending, ForKey(UNBOUND)));
    SortSignals(OwnThenUnbound(pending, run));
  }

  lemma OwnAndUnbound(pending: seq<Tagged>, run: RunId)
    ensures multiset(OwnThenUnbound(pending, run)) == multiset(Filter(pending, Visible(run)))
  {
    FilterElements(pending, ForKey(run));
    FilterElements(pending, ForKey(UNBOUND));
    FilterElements(pending, Visible(run));
  }

  lemma VisibleAndHidden(pending: seq<Tagged>, run: RunId)
    ensures multiset(pending) == multiset(Filter(pending, Visible(run))) + multiset(Filter(pending, Hidden(run)))
  {
    FilterElements(pending, Visible(run));
    FilterElements(pending, Hidden(run));
  }

  /** A poll is given exactly what was queued for its run or for no run, sorted by request time. */
  lemma DeliveryIsVisible(ops: seq<Op>, run: RunId)
    ensures multiset(Delivery(ops, run)) == multiset(Filter(Outstanding(ops), Visible(run)))
    ensures forall t :: multiset(Delivery(ops, run))[t] ==
                        if t.key == run || t.key == UNBOUND then multiset(Outstanding(ops))[t] else 0
    ensures var d := Delivery(ops, run);
      forall i, j :: 0 <= i < j < |d| ==> d[i].signal.requestedAt <= d[j].signal.requestedAt
  {
    OwnAndUnbound(Outstanding(ops), run);
    StableSortSorts(OwnThenUnbound(Outstanding(ops), run), TaggedEarlier);
    FilterElements(Outstanding(ops), Visible(run));
    forall i, j | 0 <= i < j < |Delivery(ops, run)|
      ensures Delivery(ops, run)[i].signal.requestedAt <= Delivery(ops, run)[j].signal.requestedAt
    {
      assert !TaggedEarlier(Delivery(ops, run)[j], Delivery(ops, run)[i]);
    }
  }

  /** Over any history the submitted messages are the delivered ones and the queued ones, each once. */
  lemma {:induction false} Conservation(ops: seq<Op>)
    ensures multiset(Submitted(ops)) == multiset(Delivered(ops)) + multiset(Outstanding(ops))
  {
    if ops != [] {
      var rest, last := ops[..|ops| - 1], ops[|ops| - 1];
      Conservation(rest);
      if last.Drain? {
        DeliveryIsVisible(rest, last.run);
        VisibleAndHidden(Outstanding(rest), last.run);
      }
    }
  }

  // ----- the order of a delivery -----

  /** Earlier first, and at equal times the run's own messages before the unbound ones. */
  predicate InDelivery(run: RunId, a: Tagged, b: Tagged) {
    TaggedEarlier(a, b) || (a.signal.requestedAt == b.signal.requestedAt && a.key == run && b.key != run)
  }

  function DeliveryOrder(run: RunId): (Tagged, Tagged) -> bool {
    (a: Tagged, b: Tagged) => InDelivery(run, a, b)
  }

  /** The run's own messages are listed first. */
  ghost predicate OwnFirst(listed: seq<Tagged>, run: RunId) {
    forall i, j :: 0 <= i < j < |listed| && listed[j].key == run ==> listed[i].key == run
  }

  /** Sorting by time alone puts own messages before unbound ones, because they are listed first. */
  lemma {:induction false} SortByTime(listed: seq<Tagged>, run: RunId)
    requires OwnFirst(listed, run)
    ensures StableSort(listed, TaggedEarlier) == StableSort(listed, DeliveryOrder(run))
  {
    if listed != [] {
      SortByTime(listed[..|listed| - 1], run);
      InsertByTime(listed[..|listed| - 1], listed[|listed| - 1], run);
    }
  }

  lemma InsertByTime(rest: seq<Tagged>, last: Tagged, run: RunId)
    requires last.key == run ==> forall i :: 0 <= i < |rest| ==> rest[i].key == run
    ensures
      var sorted := StableSort(rest, TaggedEarlier);
      Insert(sorted, last, TaggedEarlier) == Insert(sorted, last, DeliveryOrder(run))
  {
    var sorted := StableSort(rest, TaggedEarlier);
    StableSortElements(rest, TaggedEarlier);
    forall i | 0 <= i < |sorted| ensures TaggedEarlier(last, sorted[i]) == DeliveryOrder(run)(last, sorted[i]) {
      assert sorted[i] in multiset(sorted);
      assert sorted[i] in rest;
    }
    InsertAgrees(sorted, last, TaggedEarlier, DeliveryOrder(run));
  }

  lemma FilterKeys(pending: seq<Tagged>, run: RunId)
    ensures forall i :: 0 <= i < |Filter(pending, ForKey(run))| ==> Filter(pending, ForKey(run))[i].key == run
  {
    FilterIn(pending, ForKey(run));
    forall i | 0 <= i < |Filter(pending, ForKey(run))| ensures Filter(pending, ForKey(run))[i].key == run {
      assert Filter(pending, ForKey(run))[i] in Filter(pending, ForKey(run));
    }
  }

  function VisibleTies(run: RunId, x: Tagged): Tagged -> bool {
    (t: Tagged) => Visible(run)(t) && Ties(x, DeliveryOrder(run))(t)
  }

  /** The tied messages of one key: all visible ones, or none. */
  lemma TiesOfKey(pending: seq<Tagged>, run: RunId, x: Tagged, key: RunId)
    requires key == run || key == UNBOUND
    ensures Filter(Filter(pending, ForKey(key)), Ties(x, DeliveryOrder(run))) ==
            if (x.key == run) == (key == run) then Filter(pending, VisibleTies(run, x)) else []
  {
    var p := Ties(x, DeliveryOrder(run));
    if (x.key == run) == (key == run) {
      forall t ensures VisibleTies(run, x)(t) <==> ForKey(key)(t) && p(t) {
        assert p(t) <==> !InDelivery(run, x, t) && !InDelivery(run, t, x);
      }
      FilterFilter(pending, ForKey(key), p, VisibleTies(run, x));
    } else {
      FilterFilter(pending, ForKey(key), p, (t: Tagged) => false);
      FilterNone(pending);
    }
  }

  /** Messages that tie in the delivery order have the same key, so they keep their order of submission. */
  lemma TiesAgree(pending: seq<Tagged>, run: RunId, x: Tagged)
    ensures Filter(OwnThenUnbound(pending, run), Ties(x, DeliveryOrder(run))) ==
            Filter(Filter(pending, Visible(run)), Ties(x, DeliveryOrder(run)))
  {
    var p := Ties(x, DeliveryOrder(run));
    FilterFilter(pending, Visible(run), p, VisibleTies(run, x));
    if run == UNBOUND {
      assert forall t :: ForKey(run)(t) <==> Visible(run)(t);
      FilterFilter(pending, ForKey(run), p, VisibleTies(run, x));
      assert OwnThenUnbound(pending, run) == Filter(pending, ForKey(run));
    } else {
      FilterConcat(Filter(pending, ForKey(run)), Filter(pending, ForKey(UNBOUND)), p);
      TiesOfKey(pending, run, x, run);
      TiesOfKey(pending, run, x, UNBOUND);
    }
  }

  lemma InDeliveryOrder(visible: seq<Tagged>, run: RunId)
    ensures Sorted(visible, DeliveryOrder(run)) <==>
      forall i, j :: 0 <= i < j < |visible| ==>
        && visible[i].signal.requestedAt <= visible[j].signal.requestedAt
        && (visible[i].signal.requestedAt == visible[j].signal.requestedAt && visible[j].key == run ==>
              visible[i].key == run)
  {
    forall i, j | 0 <= i < j < |visible|
      ensures DeliveryOrder(run)(visible[j], visible[i]) <==> InDelivery(run, visible[j], visible[i])
    {
    }
  }

  lemma SortedIsKept(ops: seq<Op>, run: RunId)
    ensures
      var visible := Filter(Outstanding(ops), Visible(run));
      Delivery(ops, run) == visible <==> Sorted(visible, DeliveryOrder(run))
  {
    var pending := Outstanding(ops);
    var visible, order, listed := Filter(pending, Visible(run)), DeliveryOrder(run), OwnThenUnbound(pending, run);
    FilterKeys(pending, run);
    FilterKeys(pending, UNBOUND);
    SortByTime(listed, run);
    assert WeakOrder(order);
    StableSortSorts(listed, order);
    if Sorted(visible, order) {
      forall x ensures Filter(Delivery(ops, run), Ties(x, order)) == Filter(visible, Ties(x, order)) {
        TiesAgree(pending, run, x);
        StableSortKeepsTies(listed, Ties(x, order), order);
      }
      SortedUnique(Delivery(ops, run), visible, order);
    }
  }

  /**
    A poll returns the messages in the order of their submission exactly when that order already has no
    later request time before an earlier one, and no unbound message before one for the run with the
    same time.
  */
  lemma OrderKeptIff(ops: seq<Op>, run: RunId)
    ensures
      var visible := Filter(Outstanding(ops), Visible(run));
      Delivery(ops, run) == visible <==>
        forall i, j :: 0 <= i < j < |visible| ==>
          && visible[i].signal.requestedAt <= visible[j].signal.requestedAt
          && (visible[i].signal.requestedAt == visible[j].signal.requestedAt && visible[j].key == run ==>
                visible[i].key == run)
  {
    SortedIsKept(ops, run);
    InDeliveryOrder(Filter(Outstanding(ops), Visible(run)), run);
  }

  // ----- terminal signals -----

  predicate TakesFrom(s: State, op: Op, key: RunId) {
    op.Take? && TakenKey(s, op.run) == Some(key)
  }

  predicate Untouched(before: seq<Op>, later: seq<Op>, key: RunId) {
    forall i :: 0 <= i < |later| ==> !TakesFrom(After(before + later[..i]), later[i], key)
  }

  predicate CancelPending(s: State, key: RunId, cancel: Signal) {
    key in s.terminal && s.terminal[key] == cancel && cancel.kind == Cancel
  }

  lemma AfterAppend(before: seq<Op>, later: seq<Op>)
    requires later != []
    ensures
      var n := |later| - 1;
      After(before + later) == Step(After(before + later[..n]), later[n])
  {
    assert (before + later)[..|before + later| - 1] == before + later[..|later| - 1];
  }

  lemma StepKeepsCancel(s: State, op: Op, key: RunId, cancel: Signal)
    requires CancelPending(s, key, cancel) && !TakesFrom(s, op, key)
    ensures CancelPending(Step(s, op), key, cancel)
  {
  }

  lemma UntouchedPrefix(before: seq<Op>, later: seq<Op>, key: RunId)
    requires Untouched(before, later, key) && later != []
    ensures Untouched(before, later[..|later| - 1], key)
    ensures !TakesFrom(After(before + later[..|later| - 1]), later[|later| - 1], key)
  {
    var n := |later| - 1;
    assert forall i :: 0 <= i < n ==> later[..n][i] == later[i] && later[..n][..i] == later[..i];
  }

  /** A pending cancel outlasts every later pause, cancel, message and poll, until a poll takes it. */
  lemma {:induction false} CancelSurvives(before: seq<Op>, later: seq<Op>, key: RunId, cancel: Signal)
    requires CancelPending(After(before), key, cancel) && Untouched(before, later, key)
    ensures CancelPending(After(before + later), key, cancel)
  {
    if later == [] {
      assert before + later == before;
    } else {
      var n := |later| - 1;
      UntouchedPrefix(before, later, key);
      CancelSurvives(before, later[..n], key, cancel);
      AfterAppend(before, later);
      StepKeepsCancel(After(before + later[..n]), later[n], key, cancel);
    }
  }

  /** The poll that takes it is given the cancel itself, and leaves nothing under the key. */
  lemma CancelTakenOnce(before: seq<Op>, later: seq<Op>, key: RunId, cancel: Signal, run: RunId)
    requires CancelPending(After(before), key, cancel) && Untouched(before, later, key)
    requires TakesFrom(After(before + later), Take(run), key)
    ensures TakeResult(After(before + later), run) == Some(cancel)
    ensures key !in After(before + later + [Take(run)]).terminal
  {
    CancelSurvives(before, later, key, cancel);
    AfterAppend(before + later, [Take(run)]);
    assert before + later + [] == before + later;
  }

  predicate TakesAt(ops: seq<Op>, key: RunId, j: nat)
    requires j < |ops|
  {
    TakesFrom(After(ops[..j]), ops[j], key)
  }

  /** This submission, with no poll that took from its key since. */
  ghost predicate HeldSince(ops: seq<Op>, key: RunId, signal: Signal, i: nat) {
    i < |ops| && ops[i] == Terminate(key, signal) && forall j :: i < j < |ops| ==> !TakesAt(ops, key, j)
  }

  /** A step leaves a signal pending by submitting it or by not taking it. */
  lemma StepPending(s: State, op: Op, key: RunId)
    requires key in Step(s, op).terminal
    ensures
      var pending := Step(s, op).terminal[key];
      op == Terminate(key, pending) || (key in s.terminal && s.terminal[key] == pending && !TakesFrom(s, op, key))
  {
  }

  lemma TakesAtPrefix(ops: seq<Op>, key: RunId, n: nat, j: nat)
    requires j < n <= |ops|
    ensures TakesAt(ops[..n], key, j) == TakesAt(ops, key, j)
  {
    assert ops[..n][..j] == ops[..j];
  }

  lemma StillHeld(ops: seq<Op>, key: RunId, signal: Signal, i: nat)
    requires ops != [] && HeldSince(ops[..|ops| - 1], key, signal, i) && !TakesAt(ops, key, |ops| - 1)
    ensures HeldSince(ops, key, signal, i)
  {
    forall j | i < j < |ops| ensures !TakesAt(ops, key, j) {
      if j < |ops| - 1 { TakesAtPrefix(ops, key, |ops| - 1, j); }
    }
  }

  /** What is pending was submitted under its key after the last poll that took from it: nothing is taken twice. */
  lemma {:induction false} PendingIsFresh(ops: seq<Op>, key: RunId) returns (i: nat)
    requires key in After(ops).terminal
    ensures HeldSince(ops, key, After(ops).terminal[key], i)
  {
    var n, signal := |ops| - 1, After(ops).terminal[key];
    StepPending(After(ops[..n]), ops[n], key);
    if ops[n] == Terminate(key, signal) {
      i := n;
    } else {
      i := PendingIsFresh(ops[..n], key);
      StillHeld(ops, key, signal, i);
    }
  }

  /** Submission number `i` is a terminal signal for the key that no poll has taken from it since. */
  ghost predicate HeldAt(ops: seq<Op>, key: RunId, i: nat) {
    i < |ops| && ops[i].Terminate? && HeldSince(ops, key, ops[i].signal, i)
  }

  ghost predicate SignalHeld(ops: seq<Op>, key: RunId) {
    exists i: nat :: HeldAt(ops, key, i)
  }

  ghost predicate CancelHeld(ops: seq<Op>, key: RunId) {
    exists i: nat :: HeldAt(ops, key, i) && ops[i].signal.kind == Cancel
  }

  lemma HeldStep(ops: seq<Op>, key: RunId, i: nat)
    requires ops != []
    ensures
      var n := |ops| - 1;
      HeldAt(ops, key, i) <==>
      if i == n then ops[n].Terminate? && ops[n].key == key
      else HeldAt(ops[..n], key, i) && !TakesAt(ops, key, n)
  {
    var n := |ops| - 1;
    if i < n {
      if HeldAt(ops[..n], key, i) && !TakesAt(ops, key, n) { StillHeld(ops, key, ops[i].signal, i); }
      if HeldAt(ops, key, i) {
        forall j | i < j < n ensures !TakesAt(ops[..n], key, j) { TakesAtPrefix(ops, key, n, j); }
      }
    }
  }

  lemma HeldSteps(ops: seq<Op>, key: RunId)
    requires ops != []
    ensures
      var n := |ops| - 1;
      var own, kept := ops[n].Terminate? && ops[n].key == key, !TakesAt(ops, key, n);
      && (SignalHeld(ops, key) <==> own || (SignalHeld(ops[..n], key) && kept))
      && (CancelHeld(ops, key) <==> (own && ops[n].signal.kind == Cancel) || (CancelHeld(ops[..n], key) && kept))
  {
    var n := |ops| - 1;
    forall i: nat
      ensures HeldAt(ops, key, i) <==>
              if i == n then ops[n].Terminate? && ops[n].key == key
              else HeldAt(ops[..n], key, i) && !TakesAt(ops, key, n)
    {
      HeldStep(ops, key, i);
    }
    HeldStep(ops, key, n);
    assert forall i: nat :: HeldAt(ops[..n], key, i) ==> i < n && HeldAt(ops, key, i) == !TakesAt(ops, key, n);
  }

  /** What is pending, told from the history: a signal or a cancel submitted and not taken since. */
  lemma {:induction false} PendingIff(ops: seq<Op>, key: RunId)
    ensures key in After(ops).terminal <==> SignalHeld(ops, key)
    ensures key in After(ops).terminal && After(ops).terminal[key].kind == Cancel <==> CancelHeld(ops, key)
  {
    if ops == [] {
      assert forall i: nat :: !HeldAt(ops, key, i);
    } else {
      PendingIff(ops[..|ops| - 1], key);
      HeldSteps(ops, key);
    }
  }

  /** Which of the signals held for a key is pending: the first cancel, or the last pause if there is no cancel. */
  ghost predicate PendingAt(ops: seq<Op>, key: RunId, i: nat) {
    && HeldAt(ops, key, i)
    && (ops[i].signal.kind == Cancel ==>
          forall j: nat :: HeldAt(ops, key, j) && j < i ==> ops[j].signal.kind != Cancel)
    && (ops[i].signal.kind != Cancel ==>
          forall j: nat :: HeldAt(ops, key, j) ==> j <= i && ops[j].signal.kind != Cancel)
  }

  lemma PendingAtLater(ops: seq<Op>, key: RunId, i: nat)
    requires ops != [] && PendingAt(ops[..|ops| - 1], key, i) && !TakesAt(ops, key, |ops| - 1)
    requires ops[|ops| - 1].Terminate? && ops[|ops| - 1].key == key ==> ops[i].signal.kind == Cancel
    ensures PendingAt(ops, key, i)
  {
    forall j: nat
      ensures HeldAt(ops, key, j) <==>
              if j == |ops| - 1 then ops[|ops| - 1].Terminate? && ops[|ops| - 1].key == key
              else HeldAt(ops[..|ops| - 1], key, j) && !TakesAt(ops, key, |ops| - 1)
    {
      HeldStep(ops, key, j);
    }
  }

  lemma PendingAtNow(ops: seq<Op>, key: RunId)
    requires ops != [] && ops[|ops| - 1].Terminate? && ops[|ops| - 1].key == key
    requires !CancelHeld(ops[..|ops| - 1], key)
    ensures PendingAt(ops, key, |ops| - 1)
  {
    forall j: nat | HeldAt(ops, key, j) ensures j <= |ops| - 1 && (j < |ops| - 1 ==> ops[j].signal.kind != Cancel) {
      HeldStep(ops, key, j);
    }
    HeldStep(ops, key, |ops| - 1);
  }

  /** What is pending after any history. */
  lemma {:induction false} PendingIs(ops: seq<Op>, key: RunId) returns (i: nat)
    requires key in After(ops).terminal
    ensures PendingAt(ops, key, i) && After(ops).terminal[key] == ops[i].signal
  {
    var n := |ops| - 1;
    PendingIff(ops[..n], key);
    if ops[n].Terminate? && ops[n].key == key && !CancelHeld(ops[..n], key) {
      PendingAtNow(ops, key);
      i := n;
    } else {
      StepPending(After(ops[..n]), ops[n], key);
      i := PendingIs(ops[..n], key);
      PendingAtLater(ops, key, i);
    }
  }

  /**
    What a poll is given after any history: the signal pending for its run, else the one pending for no run,
    else nothing; and that one is not pending any more, while the other key keeps what it had.
  */
  lemma PollTells(ops: seq<Op>, run: RunId)
    ensures
      var result, key := TakeResult(After(ops), run), if SignalHeld(ops, run) then run else UNBOUND;
      && (result.Some? <==> SignalHeld(ops, run) || SignalHeld(ops, UNBOUND))
      && (result.Some? ==> exists i: nat :: PendingAt(ops, key, i) && result == Some(ops[i].signal))
      && After(ops + [Take(run)]).terminal == After(ops).terminal - {key}
  {
    PendingIff(ops, run);
    PendingIff(ops, UNBOUND);
    var key := if SignalHeld(ops, run) then run else UNBOUND;
    if key in After(ops).terminal { var i := PendingIs(ops, key); }
    AfterAppend(ops, [Take(run)]);
    assert ops + [] == ops;
  }

  /**
    A poll after any history in which a cancel for the run, or one for any run, was submitted and not
    taken since.  It is given a cancel except exactly when only a pause is held for the run itself: the
    code gives a cancel no priority over the other key.
  */
  lemma CancelSeenIff(ops: seq<Op>, run: RunId)
    requires CancelHeld(ops, run) || CancelHeld(ops, UNBOUND)
    ensures TakeResult(After(ops), run).Some?
    ensures TakeResult(After(ops), run).value.kind == Cancel <==> CancelHeld(ops, run) || !SignalHeld(ops, run)
  {
    PendingIff(ops, run);
    PendingIff(ops, UNBOUND);
  }

  // ----- histories in which the two promises fail -----

  lemma AfterTwo(a: Op, b: Op)
    ensures After([a, b]) == Step(Step(EMPTY, a), b)
    ensures Outstanding([a, b]) == match b
      case Submit(key, signal) => Outstanding([a]) + [Tagged(key, signal)]
      case Drain(run) => Filter(Outstanding([a]), Hidden(run))
      case _ => Outstanding([a])
    ensures a.Submit? ==> Outstanding([a]) == [Tagged(a.key, a.signal)]
  {
    assert [a, b][..1] == [a] && [a][..0] == [];
    assert After([a]) == Step(EMPTY, a);
    assert Outstanding([]) == [] && (a.Submit? ==> Outstanding([a]) == [] + [Tagged(a.key, a.signal)]);
  }

  /** Both messages of a run are pending and the second was stamped first: a poll returns them the other way round. */
  lemma EarlierStampWitness(run: RunId, x: Signal, y: Signal)
    requires y.requestedAt < x.requestedAt
    ensures
      var ops := [Submit(run, x), Submit(run, y)];
      Filter(Outstanding(ops), Visible(run)) == [Tagged(run, x), Tagged(run, y)] &&
      Delivery(ops, run) != [Tagged(run, x), Tagged(run, y)]
  {
    OutOfOrder(run, Tagged(run, x), Tagged(run, y));
  }

  /** An unbound message and one for the run with the same stamp: the later one is returned first. */
  lemma EqualStampWitness(run: RunId, x: Signal, y: Signal)
    requires run != UNBOUND && x.requestedAt == y.requestedAt
    ensures
      var ops := [Submit(UNBOUND, x), Submit(run, y)];
      Filter(Outstanding(ops), Visible(run)) == [Tagged(UNBOUND, x), Tagged(run, y)] &&
      Delivery(ops, run) != [Tagged(UNBOUND, x), Tagged(run, y)]
  {
    OutOfOrder(run, Tagged(UNBOUND, x), Tagged(run, y));
  }

  lemma PendingTwo(run: RunId, a: Tagged, b: Tagged)
    requires Visible(run)(a) && Visible(run)(b)
    ensures Filter(Outstanding([Submit(a.key, a.signal), Submit(b.key, b.signal)]), Visible(run)) == [a, b]
  {
    OutstandingTwo(a, b);
    FilterAppend([a], b, Visible(run));
    FilterAppend([], a, Visible(run));
    assert [] + [a] == [a] && [a] + [b] == [a, b];
  }

  lemma OutstandingTwo(a: Tagged, b: Tagged)
    ensures Outstanding([Submit(a.key, a.signal), Submit(b.key, b.signal)]) == [a, b]
  {
    var first, second := Submit(a.key, a.signal), Submit(b.key, b.signal);
    AfterTwo(first, second);
    assert [first][..0] == [] && Outstanding([first]) == [] + [a];
  }

  lemma NotInOrder(run: RunId, pair: seq<Tagged>)
    requires |pair| == 2 && InDelivery(run, pair[1], pair[0])
    ensures !Sorted(pair, DeliveryOrder(run))
  {
    assert DeliveryOrder(run)(pair[1], pair[0]);
  }

  lemma OutOfOrder(run: RunId, a: Tagged, b: Tagged)
    requires Visible(run)(a) && Visible(run)(b) && InDelivery(run, b, a)
    ensures
      var ops := [Submit(a.key, a.signal), Submit(b.key, b.signal)];
      Filter(Outstanding(ops), Visible(run)) == [a, b] && Delivery(ops, run) != [a, b]
  {
    PendingTwo(run, a, b);
    NotInOrder(run, [a, b]);
    OrderKeptIff([Submit(a.key, a.signal), Submit(b.key, b.signal)], run);
  }

  /** An unbound cancel waits behind a pause for the run itself. */
  lemma PauseBeforeCancelWitness(run: RunId, cancel: Signal, pause: Signal)
    requires run != UNBOUND && cancel.kind == Cancel && pause.kind == Pause
    ensures
      var s := After([Terminate(UNBOUND, cancel), Terminate(run, pause)]);
      CancelPending(s, UNBOUND, cancel) && TakeResult(s, run) == Some(pause)
  {
    AfterTwo(Terminate(UNBOUND, cancel), Terminate(run, pause));
  }
}
