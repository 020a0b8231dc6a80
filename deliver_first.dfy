/**
 * DeliverFirst: the DeliverLatest pipeline behind take(1). The data stream's
 * first value is passed on followed at once by take(1)'s completion; every
 * later signal of the data stream is discarded before it reaches the gate.
 */
module DeliverFirst {
  import opened Notifications
  import opened DeliverLatest

  /** One input event, with take(1) in front of the gate. */
  function StepFirst<T>(g: Gate<T>, e: Event<T>): (Gate<T>, seq<Notification<T>>) {
    if e.Source? && e.n.Next? then
      // take(1) emits the value and completes in the same breath
      var (g1, o1) := Step(g, e);
      var (g2, o2) := Step(g1, Source(Complete));
      (g2, o1 + o2)
    else
      Step(g, e)
  }

  function RunFirst<T>(g: Gate<T>, t: seq<Event<T>>): (Gate<T>, seq<Notification<T>>)
    decreases |t|
  {
    if t == [] then (g, [])
    else
      var (g1, o1) := StepFirst(g, t[0]);
      var (g2, o2) := RunFirst(g1, t[1..]);
      (g2, o1 + o2)
  }

  /** Everything the output emits for a trace that starts at subscription. */
  function OutputFirst<T>(t: seq<Event<T>>): seq<Notification<T>> {
    RunFirst(Subscribed(), t).1
  }

  /** take(1) on the data stream, stated on a trace: the first value is followed by a completion and the data stream is cut off. */
  function TakeOne<T>(t: seq<Event<T>>): seq<Event<T>>
    decreases |t|
  {
    if t == [] then []
    else if t[0].Source? && t[0].n.Next? then [t[0], Source(Complete)] + DropSource(t[1..])
    else [t[0]] + TakeOne(t[1..])
  }

  /** What take(1) makes of a data stream whose first notification is `first`, as the consumer finally sees it. */
  function Taken<T>(first: Option<Notification<T>>): seq<Notification<T>> {
    match first
    case None => []
    case Some(n) => if n.Next? then [n, Complete] else [n]
  }

  lemma StepFirstClosed<T>(g: Gate<T>, e: Event<T>)
    requires Closed(g)
    ensures StepFirst(g, e) == Step(g, e)
  {
    StepKeepsClosed(g, e);
    if e.Source? && e.n.Next? {
      StepKeepsClosed(g, Source(Complete));
      var none: seq<Notification<T>> := [];
      assert none + none == none;
    }
  }

  /** Once the data stream has ended, take(1) in front of the gate makes no difference. */
  lemma {:induction false} FirstClosed<T>(g: Gate<T>, t: seq<Event<T>>)
    requires Closed(g)
    ensures RunFirst(g, t) == Run(g, t)
    decreases |t|
  {
    if t != [] {
      StepFirstClosed(g, t[0]);
      StepKeepsClosed(g, t[0]);
      FirstClosed(Step(g, t[0]).0, t[1..]);
    }
  }

  /**
   * DeliverFirst is DeliverLatest on the data stream cut down by take(1):
   * the same gate, fed the first value, its completion, and nothing else
   * from the data stream.
   */
  lemma {:induction false} FirstIsLatestOfTakeOne<T>(g: Gate<T>, t: seq<Event<T>>)
    ensures RunFirst(g, t) == Run(g, TakeOne(t))
    decreases |t|
  {
    if t != [] {
      var e := t[0];
      if e.Source? && e.n.Next? {
        var (g1, o1) := Step(g, e);
        var (g2, o2) := Step(g1, Source(Complete));
        assert Closed(g2);
        FirstClosed(g2, t[1..]);
        ClosedIgnoresSource(g2, t[1..]);
        var head := [e, Source(Complete)];
        RunAppend(g, head, DropSource(t[1..]));
        assert head[1..] == [Source(Complete)] && head[1..][1..] == [];
        assert head[0] == e && head[1..][0] == Source(Complete);
        assert Run(g2, head[1..][1..]) == (g2, []);
        assert o2 + [] == o2;
        assert Run(g1, head[1..]) == (g2, o2);
        assert Run(g, head) == (g2, o1 + o2);
      } else {
        FirstIsLatestOfTakeOne(StepFirst(g, e).0, t[1..]);
        var u := TakeOne(t);
        assert u[0] == e && u[1..] == TakeOne(t[1..]);
      }
    }
  }

  lemma {:induction false} TakeOneStaysAway<T>(t: seq<Event<T>>)
    requires StaysAway(t)
    ensures StaysAway(TakeOne(t))
    decreases |t|
  {
    if t != [] {
      assert StaysAway(t[1..]);
      if t[0].Source? && t[0].n.Next? {
        DropSourceStaysAway(t[1..]);
      } else {
        TakeOneStaysAway(t[1..]);
      }
    }
  }

  lemma {:induction false} DropSourceStaysAway<T>(t: seq<Event<T>>)
    requires StaysAway(t)
    ensures StaysAway(DropSource(t))
    decreases |t|
  {
    if t != [] {
      assert StaysAway(t[1..]);
      DropSourceStaysAway(t[1..]);
    }
  }

  lemma {:induction false} TakeOneNoSource<T>(t: seq<Event<T>>)
    requires NoSource(t)
    ensures TakeOne(t) == t
    decreases |t|
  {
    if t != [] {
      assert NoSource(t[1..]);
      TakeOneNoSource(t[1..]);
    }
  }

  // ---------------------------------------------------------------------------
  // Properties

  /**
   * The whole of what DeliverFirst can emit: nothing, a bare completion (the
   * view stream ended first), or exactly what take(1) makes of the data
   * stream: its first value followed by completion, or its error, or its
   * completion. No later value ever reaches the consumer.
   */
  lemma {:induction false} OnlyTheFirst<T>(g: Gate<T>, t: seq<Event<T>>)
    requires g.cached.None? && !g.pending
    ensures var out := RunFirst(g, t).1;
      out == [] || out == [Complete] || out == Taken(FirstSource(t))
    decreases |t|
  {
    if t != [] {
      var e := t[0];
      var (g1, o1) := StepFirst(g, e);
      if g.terminated {
        FirstClosed(g, t);
        TerminalIsFinal(g, t);
      } else if e.Source? {
        FirstSourceSettles(g, t);
      } else if o1 != [] {
        assert o1 == [Complete] && g1.terminated;
        FirstClosed(g1, t[1..]);
        TerminalIsFinal(g1, t[1..]);
        assert o1 + [] == o1;
      } else {
        OnlyTheFirst(g1, t[1..]);
        assert FirstSource(t) == FirstSource(t[1..]);
      }
    }
  }

  /** The data stream's first signal settles what the output can still emit. */
  lemma FirstSourceSettles<T>(g: Gate<T>, t: seq<Event<T>>)
    requires g.cached.None? && !g.pending && !g.terminated && t != [] && t[0].Source?
    ensures var out := RunFirst(g, t).1;
      out == [] || out == [Complete] || out == Taken(FirstSource(t))
  {
    var (g1, o1) := StepFirst(g, t[0]);
    StepFirstSource(g, t[0].n);
    var o2 := RunFirst(g1, t[1..]).1;
    assert RunFirst(g, t).1 == o1 + o2;
    assert FirstSource(t) == Some(t[0].n);
    FirstClosed(g1, t[1..]);
    if g1.terminated {
      TerminalIsFinal(g1, t[1..]);
      assert o1 + o2 == o1;
    } else {
      ClosedReleases(g1, t[1..]);
      assert o1 + o2 == o2;
    }
  }

  /** With nothing cached yet, the first data-stream signal either ends the output or is held by the gate. */
  lemma StepFirstSource<T>(g: Gate<T>, n: Notification<T>)
    requires g.cached.None? && !g.pending && !g.terminated
    ensures var (g1, o1) := StepFirst(g, Source(n));
      || (g1.terminated && (o1 == [Complete] || o1 == Taken(Some(n))))
      || (&& !g1.terminated && o1 == [] && Closed(g1) && Consistent(g1) && !Attached(g1)
          && Held(g1) == Taken(Some(n)))
  {
    if n.Next? && Attached(g) {
      var (g1, o1) := Step(g, Source(n));
      assert g1.terminated == false && o1 == [n];
      assert Step(g1, Source(Complete)) == (g1.(cached := Some(Complete), terminated := true), [Complete]);
    }
  }

  lemma OnlyTheFirstFromSubscription<T>(t: seq<Event<T>>)
    ensures var out := OutputFirst(t);
      out == [] || out == [Complete] || out == Taken(FirstSource(t))
    ensures forall i :: 0 <= i < |OutputFirst(t)| && OutputFirst(t)[i].Next? ==>
      FirstSource(t) == Some(OutputFirst(t)[i])
  {
    OnlyTheFirst(Subscribed(), t);
  }

  /** While the view never reports true and has not completed, nothing at all is emitted. */
  lemma SilentUntilAttachedFirst<T>(g: Gate<T>, t: seq<Event<T>>)
    requires !Attached(g) && !g.viewDone && StaysAway(t)
    ensures RunFirst(g, t).1 == []
  {
    FirstIsLatestOfTakeOne(g, t);
    TakeOneStaysAway(t);
    SilentUntilAttached(g, TakeOne(t));
  }

  /**
   * The first value, error or completion that arrives while the view is away
   * is held; the next attach delivers it, a value followed by its completion.
   */
  lemma {:induction false} HeldUntilAttach<T>(g: Gate<T>, t: seq<Event<T>>)
    requires !Attached(g) && !g.terminated && !g.viewDone && g.cached.None? && !g.pending && Quiet(t)
    ensures RunFirst(g, t + [View(true)]).1 == Taken(FirstSource(t))
    decreases |t|
  {
    var u := t + [View(true)];
    if t == [] {
      assert u == [View(true)];
    } else {
      assert u[0] == t[0] && u[1..] == t[1..] + [View(true)];
      assert Quiet(t[1..]);
      var (g1, o1) := StepFirst(g, t[0]);
      QuietStepFirst(g, t[0]);
      var o2 := RunFirst(g1, u[1..]).1;
      assert RunFirst(g, u).1 == o1 + o2 == o2;
      if t[0].Source? {
        assert FirstSource(t) == Some(t[0].n);
        FirstClosed(g1, u[1..]);
        ClosedHeldUntilAttach(g1, t[1..]);
      } else {
        assert FirstSource(t) == FirstSource(t[1..]);
        HeldUntilAttach(g1, t[1..]);
      }
    }
  }

  /** A detached gate with nothing cached: a data-stream signal is held, a detach changes nothing. */
  lemma QuietStepFirst<T>(g: Gate<T>, e: Event<T>)
    requires !Attached(g) && !g.terminated && !g.viewDone && g.cached.None? && !g.pending
    requires e.Source? || e == View(false)
    ensures var (g1, o1) := StepFirst(g, e);
      && o1 == [] && !Attached(g1) && !g1.terminated && !g1.viewDone
      && (e.Source? ==> Closed(g1) && Consistent(g1) && Held(g1) == Taken(Some(e.n)))
      && (!e.Source? ==> g1.cached.None? && !g1.pending)
  {
  }

  /** While attached, with the view stream live, the first notification of the data stream is delivered at once: a value and its completion, or the error or completion. */
  lemma AttachedTakesFirst<T>(g: Gate<T>, ns: seq<Notification<T>>)
    requires Attached(g) && !g.terminated && !g.viewDone && !SourceDone(g)
    ensures RunFirst(g, Sources(ns)).1 == Taken(FirstSource(Sources(ns)))
  {
    var t := Sources(ns);
    if ns != [] {
      assert t[0] == Source(ns[0]);
      var g1 := StepFirst(g, t[0]).0;
      assert g1.terminated;
      FirstClosed(g1, t[1..]);
      TerminalIsFinal(g1, t[1..]);
    }
  }

  /** A data stream that never signals produces no output unless the view stream completes before emitting. */
  lemma NoSourceSilentFirst<T>(t: seq<Event<T>>)
    requires NoSource(t)
    ensures OutputFirst(t) == [] || (OutputFirst(t) == [Complete] && FirstViewEvent(t) == Some(ViewComplete))
    ensures t != [] && t[0].View? ==> OutputFirst(t) == []
  {
    FirstIsLatestOfTakeOne(Subscribed(), t);
    TakeOneNoSource(t);
    NoSourceSilent(t);
  }

  /** The output obeys the stream contract: at most one terminal notification, and it comes last. */
  lemma TerminalIsFinalFirst<T>(t: seq<Event<T>>)
    ensures WellFormed(OutputFirst(t))
  {
    FirstIsLatestOfTakeOne(Subscribed(), t);
    TerminalIsFinal(Subscribed(), TakeOne(t));
  }

  // ---------------------------------------------------------------------------
  // The scenarios of the unit tests

  /** Data [0, 1, 2] while attached: exactly 0, then completion. */
  lemma FirstOfThreeWhileAttached()
    ensures OutputFirst([View(true)] + Sources(Values([0, 1, 2]) + [Complete])) == [Next(0), Complete]
  {
    var g := Step(Subscribed<int>(), View(true)).0;
    var t := Sources(Values([0, 1, 2]) + [Complete]);
    AttachedTakesFirst(g, Values([0, 1, 2]) + [Complete]);
    assert t[0] == Source(Next(0));
    assert ([View(true)] + t)[0] == View(true) && ([View(true)] + t)[1..] == t;
  }
}
