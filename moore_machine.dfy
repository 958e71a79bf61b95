/**
 * The generic Moore-machine engine: one current state, a transition
 * function delta, an optional output function lambda whose result is fed
 * back into `step` (bounded by a depth counter), and a fixed registry of
 * eight observer slots notified after every step.
 */
module MooreMachines {

  datatype Option<+T> = None | Some(value: T)

  /** Capacity of the observer registry. */
  const MAX_OBSERVERS: int := 8

  /** Follow-up inputs are re-entered only while the depth is below this. */
  const MAX_STEP_DEPTH: nat := 3

  /** An observer callback, identified by an opaque handle. */
  type ObserverId = int

  /** One call the engine makes into caller-supplied code. */
  datatype Event<S, I> =
    | Applied(before: S, input: I, after: S)              // delta(before, input) == after
    | Output(before: S, after: S)                         // lambda(before, after)
    | Notified(observer: ObserverId, previous: S, next: S) // observer(previous, next)

  /** The state a step leaves behind and the calls it made, in order. */
  datatype Trace<S, I> = Trace(final: S, events: seq<Event<S, I>>)

  /** One round of notification: every registered observer once, in index order. */
  function Broadcast<S, I>(observers: seq<ObserverId>, previous: S, next: S): seq<Event<S, I>>
  {
    if observers == [] then []
    else [Notified(observers[0], previous, next)] + Broadcast(observers[1..], previous, next)
  }

  /** Registering one more observer adds its call at the end of the round. */
  lemma {:induction false} BroadcastSnoc<S, I>(observers: seq<ObserverId>, x: ObserverId, previous: S, next: S)
    ensures Broadcast<S, I>(observers + [x], previous, next)
         == Broadcast<S, I>(observers, previous, next) + [Notified(x, previous, next)]
  {
    if observers == [] {
      assert [x][1..] == [];
    } else {
      var head: seq<Event<S, I>> := [Notified(observers[0], previous, next)];
      assert (observers + [x])[1..] == observers[1..] + [x];
      BroadcastSnoc<S, I>(observers[1..], x, previous, next);
      AppendAssoc(head, Broadcast<S, I>(observers[1..], previous, next), [Notified(x, previous, next)]);
    }
  }

  /** The observer calls of one round, as (observer, previous, next). */
  function Round<S>(observers: seq<ObserverId>, previous: S, next: S): seq<(ObserverId, S, S)>
  {
    seq(|observers|, k requires 0 <= k < |observers| => (observers[k], previous, next))
  }

  /**
   * The recursion of `step` as a function: apply delta; if lambda is set,
   * call it on (before, after) and re-enter with its result while the
   * depth is below the ceiling (the follow-up is dropped at the ceiling);
   * finally notify every observer with the state reached after the
   * recursion.
   */
  function Run<S, I>(delta: (S, I) -> S, lambda: Option<(S, S) -> I>, observers: seq<ObserverId>,
                     q: S, input: I, depth: nat): Trace<S, I>
    requires depth <= MAX_STEP_DEPTH
    decreases MAX_STEP_DEPTH - depth
  {
    var q' := delta(q, input);
    match lambda
    case None => Trace(q', [Applied(q, input, q')] + Broadcast(observers, q, q'))
    case Some(out) =>
      if depth < MAX_STEP_DEPTH then
        var inner := Run(delta, lambda, observers, q', out(q, q'), depth + 1);
        Trace(inner.final, [Applied(q, input, q'), Output(q, q')] + inner.events + Broadcast(observers, q, inner.final))
      else
        Trace(q', [Applied(q, input, q'), Output(q, q')] + Broadcast(observers, q, q'))
  }

  /** The delta application recorded by one event, if any. */
  function ApplicationOf<S, I>(e: Event<S, I>): seq<(S, I, S)>
  {
    match e
    case Applied(before, input, after) => [(before, input, after)]
    case _ => []
  }

  /** The lambda call recorded by one event, if any. */
  function OutputOf<S, I>(e: Event<S, I>): seq<(S, S)>
  {
    match e
    case Output(before, after) => [(before, after)]
    case _ => []
  }

  /** The observer call recorded by one event, if any, as (observer, previous, next). */
  function NoticeOf<S, I>(e: Event<S, I>): seq<(ObserverId, S, S)>
  {
    match e
    case Notified(observer, previous, next) => [(observer, previous, next)]
    case _ => []
  }

  /** The delta applications of an event sequence, as (before, input, after), in order. */
  function Applications<S, I>(es: seq<Event<S, I>>): seq<(S, I, S)>
  {
    if es == [] then [] else ApplicationOf(es[0]) + Applications(es[1..])
  }

  /** The lambda calls of an event sequence, as (before, after), in order. */
  function Outputs<S, I>(es: seq<Event<S, I>>): seq<(S, S)>
  {
    if es == [] then [] else OutputOf(es[0]) + Outputs(es[1..])
  }

  /** The observer calls of an event sequence, as (observer, previous, next), in order. */
  function Notices<S, I>(es: seq<Event<S, I>>): seq<(ObserverId, S, S)>
  {
    if es == [] then [] else NoticeOf(es[0]) + Notices(es[1..])
  }

  lemma {:induction false} ApplicationsAppend<S, I>(a: seq<Event<S, I>>, b: seq<Event<S, I>>)
    ensures Applications(a + b) == Applications(a) + Applications(b)
  {
    if a == [] {
      assert a + b == b;
    } else {
      calc {
        Applications(a + b);
        ApplicationOf((a + b)[0]) + Applications((a + b)[1..]);
        { assert (a + b)[0] == a[0]; assert (a + b)[1..] == a[1..] + b; }
        ApplicationOf(a[0]) + Applications(a[1..] + b);
        { ApplicationsAppend(a[1..], b); }
        ApplicationOf(a[0]) + (Applications(a[1..]) + Applications(b));
        { AppendAssoc(ApplicationOf(a[0]), Applications(a[1..]), Applications(b)); }
        (ApplicationOf(a[0]) + Applications(a[1..])) + Applications(b);
        Applications(a) + Applications(b);
      }
    }
  }

  lemma {:induction false} OutputsAppend<S, I>(a: seq<Event<S, I>>, b: seq<Event<S, I>>)
    ensures Outputs(a + b) == Outputs(a) + Outputs(b)
  {
    if a == [] {
      assert a + b == b;
    } else {
      calc {
        Outputs(a + b);
        OutputOf((a + b)[0]) + Outputs((a + b)[1..]);
        { assert (a + b)[0] == a[0]; assert (a + b)[1..] == a[1..] + b; }
        OutputOf(a[0]) + Outputs(a[1..] + b);
        { OutputsAppend(a[1..], b); }
        OutputOf(a[0]) + (Outputs(a[1..]) + Outputs(b));
        { AppendAssoc(OutputOf(a[0]), Outputs(a[1..]), Outputs(b)); }
        (OutputOf(a[0]) + Outputs(a[1..])) + Outputs(b);
        Outputs(a) + Outputs(b);
      }
    }
  }

  lemma {:induction false} NoticesAppend<S, I>(a: seq<Event<S, I>>, b: seq<Event<S, I>>)
    ensures Notices(a + b) == Notices(a) + Notices(b)
  {
    if a == [] {
      assert a + b == b;
    } else {
      calc {
        Notices(a + b);
        NoticeOf((a + b)[0]) + Notices((a + b)[1..]);
        { assert (a + b)[0] == a[0]; assert (a + b)[1..] == a[1..] + b; }
        NoticeOf(a[0]) + Notices(a[1..] + b);
        { NoticesAppend(a[1..], b); }
        NoticeOf(a[0]) + (Notices(a[1..]) + Notices(b));
        { AppendAssoc(NoticeOf(a[0]), Notices(a[1..]), Notices(b)); }
        (NoticeOf(a[0]) + Notices(a[1..])) + Notices(b);
        Notices(a) + Notices(b);
      }
    }
  }

  /** A one-event sequence contributes what its event records. */
  lemma ExtractSingle<S, I>(e: Event<S, I>)
    ensures Applications([e]) == ApplicationOf(e)
    ensures Outputs([e]) == OutputOf(e)
    ensures Notices([e]) == NoticeOf(e)
  {
    assert [e][1..] == [];
    assert ApplicationOf(e) + [] == ApplicationOf(e);
    assert OutputOf(e) + [] == OutputOf(e);
    assert NoticeOf(e) + [] == NoticeOf(e);
  }

  /** The events a level issues before recursing: one delta application, then one lambda call. */
  lemma ExtractHead<S, I>(q: S, input: I, q': S)
    ensures Applications<S, I>([Applied(q, input, q'), Output(q, q')]) == [(q, input, q')]
    ensures Outputs<S, I>([Applied(q, input, q'), Output(q, q')]) == [(q, q')]
    ensures Notices<S, I>([Applied(q, input, q'), Output(q, q')]) == []
  {
    var a: seq<Event<S, I>> := [Applied(q, input, q')];
    var o: seq<Event<S, I>> := [Output(q, q')];
    assert a + o == [Applied(q, input, q'), Output(q, q')];
    ExtractSingle(a[0]);
    ExtractSingle(o[0]);
    ApplicationsAppend(a, o);
    OutputsAppend(a, o);
    NoticesAppend(a, o);
  }

  lemma {:induction false} ExtractBroadcast<S, I>(observers: seq<ObserverId>, previous: S, next: S)
    ensures Applications(Broadcast<S, I>(observers, previous, next)) == []
    ensures Outputs(Broadcast<S, I>(observers, previous, next)) == []
    ensures Notices(Broadcast<S, I>(observers, previous, next)) == Round(observers, previous, next)
  {
    if observers != [] {
      var first: seq<Event<S, I>> := [Notified(observers[0], previous, next)];
      var rest: seq<Event<S, I>> := Broadcast(observers[1..], previous, next);
      ExtractBroadcast<S, I>(observers[1..], previous, next);
      ExtractSingle(first[0]);
      ApplicationsAppend(first, rest);
      OutputsAppend(first, rest);
      NoticesAppend(first, rest);
      assert Round(observers, previous, next) == [(observers[0], previous, next)] + Round(observers[1..], previous, next);
    }
  }

  /** The three parts of one level of `Run`, extracted. */
  lemma ExtractLevel<S, I>(head: seq<Event<S, I>>, middle: seq<Event<S, I>>, observers: seq<ObserverId>, q: S, final: S)
    ensures var es := head + middle + Broadcast(observers, q, final);
      Applications(es) == Applications(head) + Applications(middle) &&
      Outputs(es) == Outputs(head) + Outputs(middle) &&
      Notices(es) == Notices(head) + Notices(middle) + Round(observers, q, final)
  {
    ApplicationsAppend(head, middle);
    ApplicationsAppend(head + middle, Broadcast(observers, q, final));
    OutputsAppend(head, middle);
    OutputsAppend(head + middle, Broadcast(observers, q, final));
    NoticesAppend(head, middle);
    NoticesAppend(head + middle, Broadcast(observers, q, final));
    ExtractBroadcast<S, I>(observers, q, final);
  }

  /**
   * A level that does not re-enter (no lambda, or the depth ceiling is
   * reached) applies delta once, calls lambda once if it is set (its
   * result is dropped), and notifies once with (before, after).
   */
  lemma RunLast<S, I>(delta: (S, I) -> S, lambda: Option<(S, S) -> I>, observers: seq<ObserverId>,
                      q: S, input: I, depth: nat)
    requires depth <= MAX_STEP_DEPTH
    requires lambda.None? || depth == MAX_STEP_DEPTH
    ensures var t := Run(delta, lambda, observers, q, input, depth);
      t.final == delta(q, input) &&
      Applications(t.events) == [(q, input, delta(q, input))] &&
      Outputs(t.events) == (if lambda.Some? then [(q, delta(q, input))] else []) &&
      Notices(t.events) == Round(observers, q, delta(q, input))
  {
    var q' := delta(q, input);
    var head: seq<Event<S, I>> :=
      if lambda.None? then [Applied(q, input, q')] else [Applied(q, input, q'), Output(q, q')];
    if lambda.Some? {
      ExtractHead(q, input, q');
    } else {
      assert head[1..] == [];
    }
    ExtractLevel(head, [], observers, q, q');
    assert head + [] == head;
  }

  /**
   * A level that re-enters applies delta, calls lambda on (before, after),
   * runs the inner level on lambda's result, and then notifies with
   * (before, the inner level's final state).
   */
  lemma RunLevel<S, I>(delta: (S, I) -> S, out: (S, S) -> I, observers: seq<ObserverId>,
                       q: S, input: I, depth: nat)
    requires depth < MAX_STEP_DEPTH
    ensures var q' := delta(q, input);
      var t := Run(delta, Some(out), observers, q, input, depth);
      var inner := Run(delta, Some(out), observers, q', out(q, q'), depth + 1);
      t.final == inner.final &&
      Applications(t.events) == [(q, input, q')] + Applications(inner.events) &&
      Outputs(t.events) == [(q, q')] + Outputs(inner.events) &&
      Notices(t.events) == Notices(inner.events) + Round(observers, q, inner.final)
  {
    var q' := delta(q, input);
    var t := Run(delta, Some(out), observers, q, input, depth);
    var inner := Run(delta, Some(out), observers, q', out(q, q'), depth + 1);
    var head: seq<Event<S, I>> := [Applied(q, input, q'), Output(q, q')];
    RunUnfold(delta, out, observers, q, input, depth);
    assert t.events == head + inner.events + Broadcast(observers, q, inner.final);
    ExtractHead(q, input, q');
    ExtractLevel(head, inner.events, observers, q, inner.final);
    assert Notices(t.events) == [] + Notices(inner.events) + Round(observers, q, inner.final);
    assert [] + Notices(inner.events) == Notices(inner.events);
  }

  /** One re-entering level of `Run`, unfolded. */
  lemma RunUnfold<S, I>(delta: (S, I) -> S, out: (S, S) -> I, observers: seq<ObserverId>,
                        q: S, input: I, depth: nat)
    requires depth < MAX_STEP_DEPTH
    ensures var q' := delta(q, input);
      var t := Run(delta, Some(out), observers, q, input, depth);
      var inner := Run(delta, Some(out), observers, q', out(q, q'), depth + 1);
      t.final == inner.final &&
      t.events == [Applied(q, input, q'), Output(q, q')] + inner.events + Broadcast(observers, q, inner.final)
  {
  }

  /** One more round adds one more round's worth of calls. */
  lemma MulSucc(n: nat, m: nat)
    ensures (n + 1) * m == n * m + m
  {
  }

  /** Regrouping a concatenation. */
  lemma AppendAssoc<T>(a: seq<T>, b: seq<T>, c: seq<T>)
    ensures (a + b) + c == a + (b + c)
  {
  }

  /**
   * One level of `Run` assembled from its parts: the application, the
   * lambda call if lambda is set, the calls of the re-entered level if
   * there is one, and the closing round of notification.
   */
  lemma RunAssembly<S, I>(delta: (S, I) -> S, lambda: Option<(S, S) -> I>, observers: seq<ObserverId>,
                          q: S, input: I, depth: nat, tail: seq<Event<S, I>>, final: S)
    requires depth <= MAX_STEP_DEPTH
    requires var q' := delta(q, input);
      if lambda.Some? && depth < MAX_STEP_DEPTH then
        var inner := Run(delta, lambda, observers, q', lambda.value(q, q'), depth + 1);
        tail == inner.events && final == inner.final
      else tail == [] && final == q'
    ensures var q' := delta(q, input);
      var t := Run(delta, lambda, observers, q, input, depth);
      t.final == final &&
      t.events == [Applied(q, input, q')] + (if lambda.Some? then [Output(q, q')] else []) + tail
                  + Broadcast(observers, q, final)
  {
    var q' := delta(q, input);
    var e: seq<Event<S, I>> := [Applied(q, input, q')];
    if lambda.None? {
      assert e + [] + tail == e;
    } else if depth == MAX_STEP_DEPTH {
      assert e + [Output(q, q')] + tail == [Applied(q, input, q'), Output(q, q')];
    } else {
      assert e + [Output(q, q')] == [Applied(q, input, q'), Output(q, q')];
    }
  }

  /**
   * Without an output function a step applies delta once, never calls
   * lambda, and notifies every observer exactly once, in index order, with
   * (old, delta(old, input)).
   */
  lemma StepWithoutOutput<S, I>(delta: (S, I) -> S, observers: seq<ObserverId>, q: S, input: I)
    ensures var t := Run(delta, None, observers, q, input, 0);
      t.final == delta(q, input) &&
      Applications(t.events) == [(q, input, delta(q, input))] &&
      Outputs(t.events) == [] &&
      Notices(t.events) == Round(observers, q, delta(q, input)) &&
      forall k :: 0 <= k < |observers| ==> Notices(t.events)[k] == (observers[k], q, delta(q, input))
  {
    RunLast(delta, None, observers, q, input, 0);
  }

  /**
   * With an output function, a step entered at `depth` applies delta and
   * lambda exactly `MAX_STEP_DEPTH - depth + 1` times each and notifies
   * every observer that many times.
   */
  lemma {:induction false} RunCounts<S, I>(delta: (S, I) -> S, out: (S, S) -> I, observers: seq<ObserverId>,
                                          q: S, input: I, depth: nat)
    requires depth <= MAX_STEP_DEPTH
    ensures var t := Run(delta, Some(out), observers, q, input, depth);
      |Applications(t.events)| == MAX_STEP_DEPTH - depth + 1 &&
      |Outputs(t.events)| == MAX_STEP_DEPTH - depth + 1 &&
      |Notices(t.events)| == (MAX_STEP_DEPTH - depth + 1) * |observers|
    decreases MAX_STEP_DEPTH - depth
  {
    if depth < MAX_STEP_DEPTH {
      var q' := delta(q, input);
      RunLevel(delta, out, observers, q, input, depth);
      RunCounts(delta, out, observers, q', out(q, q'), depth + 1);
      MulSucc(MAX_STEP_DEPTH - depth, |observers|);
    } else {
      RunLast(delta, Some(out), observers, q, input, depth);
    }
  }

  /**
   * An external step (depth 0) with an output function applies delta four
   * times and calls lambda four times; the fourth follow-up input is
   * dropped, and every observer is notified four times.
   */
  lemma ExternalStepCounts<S, I>(delta: (S, I) -> S, out: (S, S) -> I, observers: seq<ObserverId>, q: S, input: I)
    ensures var t := Run(delta, Some(out), observers, q, input, 0);
      |Applications(t.events)| == 4 && |Outputs(t.events)| == 4 && |Notices(t.events)| == 4 * |observers|
  {
    RunCounts(delta, out, observers, q, input, 0);
  }

  /**
   * The chain of delta applications of one step: the first starts at the
   * pre-step state with the external input; each later one starts where
   * the previous one ended, with lambda's follow-up for the previous pair;
   * lambda is called once per application with its pair (before, after);
   * the final state is where the last application ended.
   */
  ghost predicate Chain<S, I>(delta: (S, I) -> S, out: (S, S) -> I, q: S, input: I,
                              apps: seq<(S, I, S)>, outs: seq<(S, S)>, final: S)
  {
    |apps| > 0 && |outs| == |apps| &&
    apps[0].0 == q && apps[0].1 == input &&
    (forall k :: 0 <= k < |apps| ==> apps[k].2 == delta(apps[k].0, apps[k].1)) &&
    (forall k :: 0 <= k < |apps| ==> outs[k] == (apps[k].0, apps[k].2)) &&
    (forall k :: 0 <= k < |apps| - 1 ==>
       apps[k + 1].0 == apps[k].2 && apps[k + 1].1 == out(apps[k].0, apps[k].2)) &&
    final == apps[|apps| - 1].2
  }

  /** A chain from the follow-up of (q, input) extends to a chain from (q, input). */
  lemma ChainCons<S, I>(delta: (S, I) -> S, out: (S, S) -> I, q: S, input: I,
                        apps: seq<(S, I, S)>, outs: seq<(S, S)>, final: S)
    requires Chain(delta, out, delta(q, input), out(q, delta(q, input)), apps, outs, final)
    ensures var q' := delta(q, input);
      Chain(delta, out, q, input, [(q, input, q')] + apps, [(q, q')] + outs, final)
  {
    var q' := delta(q, input);
    var all := [(q, input, q')] + apps;
    forall k | 0 <= k < |all| - 1
      ensures all[k + 1].0 == all[k].2 && all[k + 1].1 == out(all[k].0, all[k].2)
    {
      if k > 0 {
        assert all[k] == apps[k - 1];
      }
    }
  }

  /** Every step with an output function follows the chain of applications. */
  lemma {:induction false} RunChain<S, I>(delta: (S, I) -> S, out: (S, S) -> I, observers: seq<ObserverId>,
                                         q: S, input: I, depth: nat)
    requires depth <= MAX_STEP_DEPTH
    ensures var t := Run(delta, Some(out), observers, q, input, depth);
      Chain(delta, out, q, input, Applications(t.events), Outputs(t.events), t.final)
    decreases MAX_STEP_DEPTH - depth
  {
    if depth < MAX_STEP_DEPTH {
      var q' := delta(q, input);
      var inner := Run(delta, Some(out), observers, q', out(q, q'), depth + 1);
      RunLevel(delta, out, observers, q, input, depth);
      RunChain(delta, out, observers, q', out(q, q'), depth + 1);
      ChainCons(delta, out, q, input, Applications(inner.events), Outputs(inner.events), inner.final);
    } else {
      RunLast(delta, Some(out), observers, q, input, depth);
    }
  }

  /** The pre-transition states of a list of delta applications. */
  function Befores<S, I>(apps: seq<(S, I, S)>): seq<S>
  {
    seq(|apps|, k requires 0 <= k < |apps| => apps[k].0)
  }

  /**
   * The notification rounds of nested levels whose pre-states are
   * `befores` (outermost first): the innermost level notifies first, the
   * outermost last, and every round carries the final state.
   */
  function Rounds<S>(observers: seq<ObserverId>, befores: seq<S>, final: S): seq<(ObserverId, S, S)>
  {
    if befores == [] then []
    else Rounds(observers, befores[1..], final) + Round(observers, befores[0], final)
  }

  /**
   * Observers run after the recursion: the observer calls of one step are
   * the rounds of its levels, innermost first, each with the level's
   * pre-state as `previous` and the step's final state as `next`.
   */
  lemma {:induction false} RunNotices<S, I>(delta: (S, I) -> S, lambda: Option<(S, S) -> I>, observers: seq<ObserverId>,
                                           q: S, input: I, depth: nat)
    requires depth <= MAX_STEP_DEPTH
    ensures var t := Run(delta, lambda, observers, q, input, depth);
      Notices(t.events) == Rounds(observers, Befores(Applications(t.events)), t.final)
    decreases MAX_STEP_DEPTH - depth
  {
    if lambda.Some? && depth < MAX_STEP_DEPTH {
      var q' := delta(q, input);
      RunNotices(delta, lambda, observers, q', lambda.value(q, q'), depth + 1);
      RunNoticesLevel(delta, lambda.value, observers, q, input, depth);
    } else {
      RunNoticesLast(delta, lambda, observers, q, input, depth);
    }
  }

  /** The base case of `RunNotices`: a level that does not re-enter issues one round. */
  lemma RunNoticesLast<S, I>(delta: (S, I) -> S, lambda: Option<(S, S) -> I>, observers: seq<ObserverId>,
                             q: S, input: I, depth: nat)
    requires depth <= MAX_STEP_DEPTH
    requires lambda.None? || depth == MAX_STEP_DEPTH
    ensures var t := Run(delta, lambda, observers, q, input, depth);
      Notices(t.events) == Rounds(observers, Befores(Applications(t.events)), t.final)
  {
    var t := Run(delta, lambda, observers, q, input, depth);
    RunLast(delta, lambda, observers, q, input, depth);
    assert Befores(Applications(t.events)) == [q];
    assert Rounds(observers, [q][1..], t.final) == [];
  }

  /** The inductive step of `RunNotices`: one re-entering level adds its round last. */
  lemma RunNoticesLevel<S, I>(delta: (S, I) -> S, out: (S, S) -> I, observers: seq<ObserverId>,
                              q: S, input: I, depth: nat)
    requires depth < MAX_STEP_DEPTH
    requires var q' := delta(q, input);
      var inner := Run(delta, Some(out), observers, q', out(q, q'), depth + 1);
      Notices(inner.events) == Rounds(observers, Befores(Applications(inner.events)), inner.final)
    ensures var t := Run(delta, Some(out), observers, q, input, depth);
      Notices(t.events) == Rounds(observers, Befores(Applications(t.events)), t.final)
  {
    var q' := delta(q, input);
    var t := Run(delta, Some(out), observers, q, input, depth);
    var inner := Run(delta, Some(out), observers, q', out(q, q'), depth + 1);
    RunLevel(delta, out, observers, q, input, depth);
    var bs := Befores(Applications(t.events));
    assert bs[0] == q;
    assert bs[1..] == Befores(Applications(inner.events));
  }

  /** Every observer call in a set of rounds carries the final state. */
  lemma {:induction false} RoundsCarryFinal<S>(observers: seq<ObserverId>, befores: seq<S>, final: S)
    ensures forall n :: n in Rounds(observers, befores, final) ==> n.2 == final
  {
    if befores != [] {
      RoundsCarryFinal(observers, befores[1..], final);
    }
  }

  /**
   * Every observer call of one external step carries the step's final
   * state, and the last round, issued by the outermost level, carries the
   * pre-step state as `previous`.
   */
  lemma NoticesCarryFinal<S, I>(delta: (S, I) -> S, lambda: Option<(S, S) -> I>, observers: seq<ObserverId>,
                                q: S, input: I)
    ensures var t := Run(delta, lambda, observers, q, input, 0);
      (forall n :: n in Notices(t.events) ==> n.2 == t.final) &&
      |Notices(t.events)| >= |observers| &&
      Notices(t.events)[|Notices(t.events)| - |observers|..] == Round(observers, q, t.final)
  {
    var t := Run(delta, lambda, observers, q, input, 0);
    RunNotices(delta, lambda, observers, q, input, 0);
    var bs := Befores(Applications(t.events));
    RoundsCarryFinal(observers, bs, t.final);
    match lambda
    case None => RunLast(delta, lambda, observers, q, input, 0);
    case Some(out) => RunChain(delta, out, observers, q, input, 0);
    assert bs[0] == q;
    assert Notices(t.events) == Rounds(observers, bs[1..], t.final) + Round(observers, q, t.final);
  }

  /** The registry without its first occurrence of `x`. */
  function RemoveFirst<T(==)>(s: seq<T>, x: T): seq<T>
  {
    if s == [] then []
    else if s[0] == x then s[1..]
    else [s[0]] + RemoveFirst(s[1..], x)
  }

  /** Removing an absent entry leaves the sequence unchanged. */
  lemma {:induction false} RemoveFirstAbsent<T>(s: seq<T>, x: T)
    requires x !in s
    ensures RemoveFirst(s, x) == s
  {
    if s != [] {
      RemoveFirstAbsent(s[1..], x);
    }
  }

  /**
   * When `i` is the first position holding `x`, removal deletes exactly
   * position `i` and keeps the other entries in their order.
   */
  lemma {:induction false} RemoveFirstAt<T>(s: seq<T>, x: T, i: nat)
    requires i < |s| && s[i] == x
    requires forall k :: 0 <= k < i ==> s[k] != x
    ensures RemoveFirst(s, x) == s[..i] + s[i + 1..]
  {
    if i > 0 {
      RemoveFirstAt(s[1..], x, i - 1);
      assert s[1..][..i - 1] == s[1..i];
      assert s[1..][i..] == s[i + 1..];
      assert [s[0]] + s[1..i] == s[..i];
    }
  }

  /** Removing a present entry drops exactly one copy of it and nothing else. */
  lemma {:induction false} RemoveFirstPresent<T>(s: seq<T>, x: T)
    requires x in s
    ensures |RemoveFirst(s, x)| == |s| - 1
    ensures multiset(RemoveFirst(s, x)) == multiset(s) - multiset{x}
  {
    if s[0] != x {
      RemoveFirstPresent(s[1..], x);
      assert s == [s[0]] + s[1..];
    } else {
      assert s == [s[0]] + s[1..];
    }
  }

  /** The registered handles, read off the occupied slots. */
  function Values(slots: seq<Option<ObserverId>>): seq<ObserverId>
    requires forall k :: 0 <= k < |slots| ==> slots[k].Some?
  {
    seq(|slots|, k requires 0 <= k < |slots| && slots[k].Some? => slots[k].value)
  }

  /**
   * Shifting the occupied slots after position `i` down by one deletes
   * exactly the handle at `i` from the registered handles.
   */
  lemma ShiftedValues(before: seq<Option<ObserverId>>, after: seq<Option<ObserverId>>, n: int, i: int)
    requires 0 <= i < n <= |before| && n - 1 <= |after|
    requires forall k :: 0 <= k < n ==> before[k].Some?
    requires forall k :: 0 <= k < n - 1 ==> after[k] == before[if k < i then k else k + 1]
    ensures forall k :: 0 <= k < n - 1 ==> after[k].Some?
    ensures var reg := Values(before[..n]);
      Values(after[..n - 1]) == reg[..i] + reg[i + 1..]
  {
    var reg := Values(before[..n]);
    var now := Values(after[..n - 1]);
    assert |now| == |reg[..i] + reg[i + 1..]|;
    forall k | 0 <= k < n - 1
      ensures now[k] == (reg[..i] + reg[i + 1..])[k]
    {
      if k < i {
        assert now[k] == before[k].value;
      } else {
        assert now[k] == before[k + 1].value;
      }
    }
  }

  /**
   * Registering a handle that was absent and then removing it restores
   * the registry exactly.
   */
  lemma {:induction false} RemoveAfterAppend(s: seq<ObserverId>, x: ObserverId)
    requires x !in s
    ensures RemoveFirst(s + [x], x) == s
  {
    if s != [] {
      assert (s + [x])[1..] == s[1..] + [x];
      RemoveAfterAppend(s[1..], x);
    }
  }


  /**
   * The engine. The observer registry is an array of eight slots whose
   * first `observerCount` entries are occupied. `events` is a ghost record
   * of every call made into delta, lambda and the observers, in order.
   */
  class MooreMachine<State, Input> {
    var currentState: State
    /** The transition function delta; `None` models a null pointer. */
    const delta: Option<(State, Input) -> State>
    /** The optional output function lambda producing follow-up inputs. */
    var lambda: Option<(State, State) -> Input>
    /** The observer slots; `None` is an empty (null) slot. */
    const observers: array<Option<ObserverId>>
    var observerCount: int
    /** The re-entry depth of `Step` (a function-local static in the original). */
    var depth: nat
    /** Every call made into caller-supplied code so far. */
    ghost var events: seq<Event<State, Input>>

    /**
     * The registry invariant: eight slots, `0 <= observerCount <= 8`, the
     * first `observerCount` slots occupied and the rest empty.
     */
    ghost predicate Valid()
      reads this`observerCount, observers
    {
      observers.Length == MAX_OBSERVERS &&
      0 <= observerCount <= MAX_OBSERVERS &&
      (forall k :: 0 <= k < observerCount ==> observers[k].Some?) &&
      (forall k :: observerCount <= k < MAX_OBSERVERS ==> observers[k].None?)
    }

    /** The registered observers, in registration order. */
    ghost function Registered(): seq<ObserverId>
      reads this`observerCount, observers
      requires Valid()
    {
      Values(observers[..observerCount])
    }

    /** A machine in `initialState` with no output function and no observers. */
    constructor (transitionFunc: Option<(State, Input) -> State>, initialState: State)
      ensures Valid() && fresh(observers)
      ensures currentState == initialState && delta == transitionFunc && lambda == None
      ensures observerCount == 0 && depth == 0 && events == []
      ensures forall k :: 0 <= k < MAX_OBSERVERS ==> observers[k] == None
      ensures Registered() == []
    {
      var slots := new Option<ObserverId>[MAX_OBSERVERS];
      var i := 0;
      while i < MAX_OBSERVERS
        invariant 0 <= i <= MAX_OBSERVERS
        invariant forall k :: 0 <= k < i ==> slots[k] == None
      {
        slots[i] := None;
        i := i + 1;
      }
      currentState := initialState;
      delta := transitionFunc;
      lambda := None;
      observers := slots;
      observerCount := 0;
      depth := 0;
      events := [];
    }

    /**
     * Processes one input. With no delta nothing happens. Otherwise the new
     * state and the calls made are exactly those of `Run` from the current
     * state and depth; the depth is restored on return.
     */
    method Step(input: Input)
      requires Valid() && depth <= MAX_STEP_DEPTH
      modifies this`currentState, this`depth, this`events
      decreases MAX_STEP_DEPTH - depth
      ensures Valid() && depth == old(depth)
      ensures delta == None ==> currentState == old(currentState) && events == old(events)
      ensures delta.Some? ==>
        var t := Run(delta.value, lambda, Registered(), old(currentState), input, old(depth));
        currentState == t.final && events == old(events) + t.events
    {
      if delta == None {
        return;
      }
      ghost var reg := Registered();
      ghost var start := events;
      ghost var tail: seq<Event<State, Input>> := [];
      var oldState := currentState;
      currentState := delta.value(currentState, input);
      ghost var q' := currentState;
      ghost var head: seq<Event<State, Input>> := [Applied(oldState, input, currentState)];
      if lambda.Some? {
        var followUpInput := lambda.value(oldState, currentState);
        head := head + [Output(oldState, currentState)];
        events := start + head;
        if depth < MAX_STEP_DEPTH {
          depth := depth + 1;
          Step(followUpInput);
          depth := depth - 1;
          tail := Run(delta.value, lambda, reg, q', followUpInput, depth + 1).events;
          AppendAssoc(start, head, tail);
        } else {
          assert head + tail == head;
        }
      } else {
        events := start + head;
        assert head + tail == head;
      }
      ghost var body := head + tail;
      assert events == start + body;
      RunAssembly(delta.value, lambda, reg, oldState, input, depth, tail, currentState);
      NotifyObservers(oldState, currentState);
      AppendAssoc(start, body, Broadcast(reg, oldState, currentState));
    }

    /** The current state. */
    function GetState(): (q: State)
      reads this
      ensures q == currentState
    {
      currentState
    }

    /** Installs (or, with `None`, removes) the output function lambda. */
    method SetOutputFunction(outputFunc: Option<(State, State) -> Input>)
      modifies this`lambda
      ensures lambda == outputFunc
    {
      lambda := outputFunc;
    }

    /**
     * Appends an observer. Fails, changing nothing, when all eight slots
     * are taken or the handle is null.
     */
    method AddStateObserver(observer: Option<ObserverId>) returns (added: bool)
      requires Valid()
      modifies this`observerCount, observers
      ensures Valid()
      ensures added <==> old(observerCount) < MAX_OBSERVERS && observer.Some?
      ensures added ==> Registered() == old(Registered()) + [observer.value]
      ensures !added ==> Registered() == old(Registered()) && observers[..] == old(observers[..])
      ensures observerCount == old(observerCount) + (if added then 1 else 0)
    {
      if observerCount >= MAX_OBSERVERS || observer == None {
        return false;
      }
      observers[observerCount] := observer;
      observerCount := observerCount + 1;
      assert observers[..observerCount] == old(observers[..observerCount]) + [observer];
      return true;
    }

    /**
     * Removes the first slot holding `observer`, shifting the later slots
     * down and emptying the vacated last slot. Fails, changing nothing,
     * when the observer is not registered.
     */
    method RemoveStateObserver(observer: Option<ObserverId>) returns (removed: bool)
      requires Valid()
      modifies this`observerCount, observers
      ensures Valid()
      ensures removed <==> observer.Some? && observer.value in old(Registered())
      ensures removed ==>
        Registered() == RemoveFirst(old(Registered()), observer.value) &&
        observerCount == old(observerCount) - 1
      ensures !removed ==>
        Registered() == old(Registered()) && observers[..] == old(observers[..]) &&
        observerCount == old(observerCount)
    {
      ghost var reg := Registered();
      ghost var slots := observers[..];
      var i := 0;
      while i < observerCount
        invariant 0 <= i <= observerCount == old(observerCount)
        invariant observers[..] == slots
        invariant forall k :: 0 <= k < i ==> observers[k] != observer
      {
        if observers[i] == observer {
          var j := i;
          while j < observerCount - 1
            invariant i <= j <= observerCount - 1 && observerCount == old(observerCount)
            invariant forall k :: 0 <= k < j ==> observers[k] == slots[if k < i then k else k + 1]
            invariant forall k :: j <= k < MAX_OBSERVERS ==> observers[k] == slots[k]
          {
            observers[j] := observers[j + 1];
            j := j + 1;
          }
          observerCount := observerCount - 1;
          observers[observerCount] := None;
          forall k | 0 <= k < i
            ensures reg[k] != observer.value
          {
            assert slots[k] == Some(reg[k]);
          }
          RemoveFirstAt(reg, observer.value, i);
          ShiftedValues(slots, observers[..], observerCount + 1, i);
          assert observers[..][..observerCount] == observers[..observerCount];
          return true;
        }
        i := i + 1;
      }
      forall k | 0 <= k < |reg|
        ensures Some(reg[k]) != observer
      {
        assert observers[k] == Some(reg[k]);
      }
      return false;
    }

    /** The number of registered observers. */
    function GetObserverCount(): (n: int)
      reads this`observerCount, observers
      requires Valid()
      ensures n == |Registered()|
      ensures 0 <= n <= MAX_OBSERVERS
    {
      observerCount
    }

    /**
     * Calls every registered observer, in index order, with
     * (previous, next); empty slots are skipped.
     */
    method NotifyObservers(previous: State, next: State)
      requires Valid()
      modifies this`events
      ensures events == old(events) + Broadcast(Registered(), previous, next)
    {
      var i := 0;
      while i < observerCount
        invariant 0 <= i <= observerCount
        invariant events == old(events) + Broadcast(Values(observers[..i]), previous, next)
      {
        if observers[i].Some? {
          ghost var done := Values(observers[..i]);
          assert Values(observers[..i + 1]) == done + [observers[i].value];
          BroadcastSnoc<State, Input>(done, observers[i].value, previous, next);
          AppendAssoc(old(events), Broadcast<State, Input>(done, previous, next), [Notified(observers[i].value, previous, next)]);
          events := events + [Notified(observers[i].value, previous, next)];
        }
        i := i + 1;
      }
    }
  }
}
