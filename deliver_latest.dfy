/**
 * DeliverLatest: the data stream, materialized, with every completion delayed
 * until the view reports true, paired with the view stream by combineLatest;
 * pairs whose view flag is false are dropped and the rest dematerialized.
 *
 * The pipeline holds no fields; its hidden state is what combineLatest
 * caches for each input, the completion held by the delay, and whether
 * dematerialize has ended the output. `Gate` is that state, `Step` is one
 * input event and `Run` folds `Step` over a trace. DeliverFirst reuses the
 * same gate behind take(1).
 */
module DeliverLatest {
  import opened Notifications

  datatype Gate<T> = Gate(
    view: Option<bool>,                // latest view flag held by combineLatest (None: none yet)
    viewDone: bool,                    // the view stream has completed
    cached: Option<Notification<T>>,   // latest data notification held by combineLatest
    pending: bool,                     // a completion held by the delay until the view reports true
    terminated: bool)                  // the output has ended or has been disposed

  /** The gate right after the output is subscribed. */
  function Subscribed<T>(): Gate<T> {
    Gate(None, false, None, false, false)
  }

  predicate Attached<T>(g: Gate<T>) {
    g.view.Some? && g.view.value
  }

  /** The data stream has ended: its completion is held, or its error is cached. */
  predicate SourceDone<T>(g: Gate<T>) {
    g.pending || (g.cached.Some? && g.cached.value.IsTerminal())
  }

  /** Past the point where the data stream can change anything. */
  predicate Closed<T>(g: Gate<T>) {
    g.terminated || SourceDone(g)
  }

  /** Facts every reachable gate has: a cached completion was delivered, a held completion follows a value. */
  predicate Consistent<T>(g: Gate<T>) {
    && (g.cached.Some? && g.cached.value.Complete? ==> g.terminated)
    && (g.pending ==> && (g.cached.None? || g.cached.value.Next?)
                      && !Attached(g))
  }

  /** What one attach hands out from a gate: the cached notification, then the held completion. */
  function Held<T>(g: Gate<T>): seq<Notification<T>> {
    (if g.cached.Some? then [g.cached.value] else []) + (if g.pending then [Complete] else [])
  }

  /**
   * combineLatest receives `n` from the delayed data side: it caches `n`
   * and, when the view flag is true, the pair passes the filter and
   * dematerialize emits `n`. An error that completes the data side while the
   * view has already completed completes combineLatest itself.
   */
  function Offer<T>(g: Gate<T>, n: Notification<T>): (Gate<T>, seq<Notification<T>>) {
    var g1 := g.(cached := Some(n));
    if Attached(g) then (g1.(terminated := n.IsTerminal()), [n])
    else if n.Error? && g.viewDone then (g1.(terminated := true), [Complete])
    else (g1, [])
  }

  /**
   * The view reports true: combineLatest re-emits its cached notification,
   * and then the delay, which subscribed to the view after combineLatest did,
   * sees the same true and releases a held completion.
   */
  function Reattach<T>(g: Gate<T>): (Gate<T>, seq<Notification<T>>) {
    var g1 := g.(view := Some(true));
    var (g2, o2) :=
      if g.cached.Some? then (g1.(terminated := g.cached.value.IsTerminal()), [g.cached.value])
      else (g1, []);
    if g2.pending && !g2.terminated then
      var (g3, o3) := Offer(g2.(pending := false), Complete);
      (g3, o2 + o3)
    else
      (g2, o2)
  }

  /** One input event: the new gate and what the output emits. */
  function Step<T>(g: Gate<T>, e: Event<T>): (Gate<T>, seq<Notification<T>>) {
    if g.terminated then (g, [])
    else match e
      case Cancel => (g.(terminated := true), [])
      case View(b) =>
        if g.viewDone then (g, [])
        else if b then Reattach(g)
        else (g.(view := Some(false)), [])
      case ViewComplete =>
        if g.viewDone then (g, [])
        // combineLatest completes once an input ends without a value, or both inputs have ended
        else if g.view.None? || (g.cached.Some? && g.cached.value.Error?) then
          (g.(viewDone := true, terminated := true), [Complete])
        else (g.(viewDone := true), [])
      case Source(n) =>
        if SourceDone(g) then (g, [])
        // the delay holds a completion until the view reports true
        else if n.Complete? && !Attached(g) then (g.(pending := true), [])
        else Offer(g, n)
  }

  /** The gate after a trace and everything the output emitted meanwhile. */
  function Run<T>(g: Gate<T>, t: seq<Event<T>>): (Gate<T>, seq<Notification<T>>)
    decreases |t|
  {
    if t == [] then (g, [])
    else
      var (g1, o1) := Step(g, t[0]);
      var (g2, o2) := Run(g1, t[1..]);
      (g2, o1 + o2)
  }

  /** Everything the output emits for a trace that starts at subscription. */
  function Output<T>(t: seq<Event<T>>): seq<Notification<T>> {
    Run(Subscribed(), t).1
  }

  /** The latest value or error among `ns`, or `held` when there is none. */
  function LatestOf<T>(held: Option<Notification<T>>, ns: seq<Notification<T>>): Option<Notification<T>>
    decreases |ns|
  {
    if ns == [] then held
    else LatestOf(if ns[0].Complete? then held else Some(ns[0]), ns[1..])
  }

  /**
   * What the documented rules promise an attach after `ns` arrived while the
   * view was away, with `held` cached from before: the latest value or error,
   * followed by the completion when the data stream completed.
   */
  function Released<T>(held: Option<Notification<T>>, ns: seq<Notification<T>>): seq<Notification<T>> {
    (if LatestOf(held, ns).Some? then [LatestOf(held, ns).value] else [])
    + (if EndsWithComplete(ns) then [Complete] else [])
  }

  // ---------------------------------------------------------------------------
  // Folding

  lemma {:induction false} RunAppend<T>(g: Gate<T>, a: seq<Event<T>>, b: seq<Event<T>>)
    ensures Run(g, a + b) == (Run(Run(g, a).0, b).0, Run(g, a).1 + Run(Run(g, a).0, b).1)
    decreases |a|
  {
    if a == [] {
      assert a + b == b;
      assert [] + Run(g, b).1 == Run(g, b).1;
    } else {
      assert (a + b)[0] == a[0] && (a + b)[1..] == a[1..] + b;
      var (g1, o1) := Step(g, a[0]);
      RunAppend(g1, a[1..], b);
      var (g2, o2) := Run(g1, a[1..]);
      var (g3, o3) := Run(g2, b);
      assert Run(g, a + b) == (g3, o1 + (o2 + o3));
      assert o1 + (o2 + o3) == (o1 + o2) + o3;
    }
  }

  /** One step emits a well-formed piece of output; a terminal one ends the gate; an ended gate ignores events. */
  lemma StepEndsOnce<T>(g: Gate<T>, e: Event<T>)
    ensures g.terminated ==> Step(g, e) == (g, [])
    ensures WellFormed(Step(g, e).1)
    ensures Terminated(Step(g, e).1) ==> Step(g, e).0.terminated
  {
  }

  lemma StepKeepsClosed<T>(g: Gate<T>, e: Event<T>)
    requires Closed(g)
    ensures Closed(Step(g, e).0)
    ensures e.Source? ==> Step(g, e) == (g, [])
  {
  }

  // ---------------------------------------------------------------------------
  // Properties

  /**
   * The output obeys the stream contract: at most one error or completion,
   * and nothing after it; an ended gate emits nothing more.
   */
  lemma {:induction false} TerminalIsFinal<T>(g: Gate<T>, t: seq<Event<T>>)
    ensures g.terminated ==> Run(g, t) == (g, [])
    ensures WellFormed(Run(g, t).1)
    ensures Terminated(Run(g, t).1) ==> Run(g, t).0.terminated
    decreases |t|
  {
    if t != [] {
      var (g1, o1) := Step(g, t[0]);
      StepEndsOnce(g, t[0]);
      TerminalIsFinal(g1, t[1..]);
      var o2 := Run(g1, t[1..]).1;
      if Terminated(o1) {
        assert o1 + o2 == o1;
      } else {
        WellFormedOpen(o1);
        WellFormedAppend(o1, o2);
      }
    }
  }

  /** Once the output has emitted an error or a completion, no later event adds anything. */
  lemma NothingAfterTerminal<T>(pre: seq<Event<T>>, post: seq<Event<T>>)
    requires Terminated(Output(pre))
    ensures Output(pre + post) == Output(pre)
  {
    RunAppend(Subscribed(), pre, post);
    TerminalIsFinal(Subscribed(), pre);
    TerminalIsFinal(Run(Subscribed(), pre).0, post);
  }

  /**
   * While the view is attached and its stream has not completed, the data
   * stream passes straight through: every value as it arrives, in order, then
   * its error or completion.
   */
  lemma {:induction false} LiveWhileAttached<T>(g: Gate<T>, ns: seq<Notification<T>>)
    requires Attached(g) && !g.terminated && !g.viewDone && !SourceDone(g) && WellFormed(ns)
    ensures Run(g, Sources(ns)).1 == ns
    ensures Terminated(ns) ==> Run(g, Sources(ns)).0.terminated
    ensures ns != [] && !Terminated(ns) ==> Run(g, Sources(ns)).0 == g.(cached := Some(ns[|ns| - 1]))
    decreases |ns|
  {
    if ns != [] {
      var g1 := LiveStep(g, ns);
      if !ns[0].IsTerminal() {
        LiveWhileAttached(g1, ns[1..]);
        if |ns| > 1 {
          LastOfTail(ns);
        } else {
          assert [ns[0]] + [] == ns;
        }
      }
    }
  }

  /** One data-stream signal while attached passes straight through and is cached. */
  lemma LiveStep<T>(g: Gate<T>, ns: seq<Notification<T>>) returns (g1: Gate<T>)
    requires Attached(g) && !g.terminated && !g.viewDone && !SourceDone(g) && WellFormed(ns) && ns != []
    ensures g1 == g.(cached := Some(ns[0]), terminated := ns[0].IsTerminal())
    ensures Run(g, Sources(ns)) == (Run(g1, Sources(ns[1..])).0, [ns[0]] + Run(g1, Sources(ns[1..])).1)
    ensures ns[0].IsTerminal() ==> ns == [ns[0]] && Run(g1, Sources(ns[1..])) == (g1, [])
    ensures !ns[0].IsTerminal() ==> Attached(g1) && !g1.terminated && !g1.viewDone && !SourceDone(g1) && WellFormed(ns[1..])
  {
    g1 := g.(cached := Some(ns[0]), terminated := ns[0].IsTerminal());
    var t := Sources(ns);
    assert t[0] == Source(ns[0]) && t[1..] == Sources(ns[1..]);
    assert Step(g, t[0]) == (g1, [ns[0]]);
  }

  /** A stream and its tail end the same way: a sequence fact kept apart so that `LiveWhileAttached` stays cheap to verify. */
  lemma LastOfTail<T>(ns: seq<Notification<T>>)
    requires |ns| > 1
    ensures ns[1..][|ns| - 2] == ns[|ns| - 1]
    ensures Terminated(ns[1..]) == Terminated(ns)
    ensures [ns[0]] + ns[1..] == ns
  {
  }

  /**
   * While the view never reports true and has not completed, the output emits
   * nothing at all: no value, no error, no completion, whatever the data
   * stream does.
   */
  lemma {:induction false} SilentUntilAttached<T>(g: Gate<T>, t: seq<Event<T>>)
    requires !Attached(g) && !g.viewDone && StaysAway(t)
    ensures Run(g, t).1 == []
    ensures !Attached(Run(g, t).0) && !Run(g, t).0.viewDone
    decreases |t|
  {
    if t != [] {
      assert StaysAway(t[1..]);
      SilentUntilAttached(Step(g, t[0]).0, t[1..]);
    }
  }

  lemma {:induction false} LatestOfShape<T>(held: Option<Notification<T>>, ns: seq<Notification<T>>)
    requires held.None? || held.value.Next?
    requires WellFormed(ns)
    ensures var r := LatestOf(held, ns);
      r.None? || r.value.Next? || (r.value.Error? && Terminated(ns) && !EndsWithComplete(ns))
    decreases |ns|
  {
    if ns != [] {
      assert WellFormed(ns[1..]);
      if ns[0].IsTerminal() {
        assert |ns| == 1;
      } else {
        LatestOfShape(Some(ns[0]), ns[1..]);
        if ns[1..] != [] {
          assert ns[1..][|ns[1..]| - 1] == ns[|ns| - 1];
        }
      }
    }
  }

  /** A stretch of detached events leaves the output silent and caches the latest notification. */
  lemma {:induction false} DetachedRun<T>(g: Gate<T>, t: seq<Event<T>>)
    requires !Attached(g) && !g.terminated && !g.viewDone && Quiet(t)
    requires !SourceDone(g) || SourceNotifications(t) == []
    requires WellFormed(SourceNotifications(t))
    ensures Run(g, t).1 == []
    ensures var h := Run(g, t).0;
      && !Attached(h) && !h.terminated && !h.viewDone
      && h.cached == LatestOf(g.cached, SourceNotifications(t))
      && h.pending == (g.pending || EndsWithComplete(SourceNotifications(t)))
    decreases |t|
  {
    if t != [] {
      var g1 := Step(g, t[0]).0;
      var rest := SourceNotifications(t[1..]);
      assert Quiet(t[1..]);
      if t[0].Source? {
        var n := t[0].n;
        assert SourceNotifications(t) == [n] + rest;
        assert ([n] + rest)[1..] == rest;
        assert WellFormed(rest);
        if n.IsTerminal() {
          assert SourceNotifications(t)[0] == n;
          assert rest == [];
        }
        DetachedRun(g1, t[1..]);
        if rest != [] {
          assert ([n] + rest)[|[n] + rest| - 1] == rest[|rest| - 1];
        }
      } else {
        assert SourceNotifications(t) == rest;
        DetachedRun(g1, t[1..]);
      }
    }
  }

  /**
   * The documented rules for a detached view, in one statement: when the view
   * reports true again, the output emits the latest value or error that
   * arrived meanwhile (or the one cached before), and then the completion if
   * the data stream completed.
   */
  lemma ReleasedOnAttach<T>(g: Gate<T>, t: seq<Event<T>>)
    requires !Attached(g) && !g.terminated && !g.viewDone && !SourceDone(g) && Quiet(t)
    requires WellFormed(SourceNotifications(t))
    ensures Run(g, t + [View(true)]).1 == Released(g.cached, SourceNotifications(t))
  {
    var ns := SourceNotifications(t);
    RunAppend(g, t, [View(true)]);
    DetachedRun(g, t);
    LatestOfShape(g.cached, ns);
  }

  lemma {:induction false} LatestOfValues<T>(held: Option<Notification<T>>, vs: seq<T>)
    requires vs != []
    ensures LatestOf(held, Values(vs)) == Some(Next(vs[|vs| - 1]))
    decreases |vs|
  {
    assert Values(vs)[1..] == Values(vs[1..]);
    if vs[1..] != [] {
      LatestOfValues(Some(Next(vs[0])), vs[1..]);
      assert vs[1..][|vs[1..]| - 1] == vs[|vs| - 1];
    }
  }

  lemma {:induction false} LatestOfAppend<T>(held: Option<Notification<T>>, a: seq<Notification<T>>, b: seq<Notification<T>>)
    ensures LatestOf(held, a + b) == LatestOf(LatestOf(held, a), b)
    decreases |a|
  {
    if a == [] {
      assert a + b == b;
    } else {
      assert (a + b)[0] == a[0] && (a + b)[1..] == a[1..] + b;
      LatestOfAppend(if a[0].Complete? then held else Some(a[0]), a[1..], b);
    }
  }

  /** Values produced while detached are coalesced: the attach delivers only the last of them. */
  lemma CoalescedOnAttach<T>(g: Gate<T>, vs: seq<T>)
    requires !Attached(g) && !g.terminated && !g.viewDone && !SourceDone(g) && vs != []
    ensures Run(g, Sources(Values(vs)) + [View(true)]).1 == [Next(vs[|vs| - 1])]
  {
    SourceNotificationsOfSources(Values(vs));
    ReleasedOnAttach(g, Sources(Values(vs)));
    LatestOfValues(g.cached, vs);
  }

  /** The latest value or error after one more notification. */
  lemma LatestOfSnoc<T>(held: Option<Notification<T>>, s: seq<Notification<T>>, n: Notification<T>)
    ensures LatestOf(held, s + [n]) == if n.Complete? then LatestOf(held, s) else Some(n)
  {
    LatestOfAppend(held, s, [n]);
    assert [n][1..] == [];
  }

  /** Values followed by the end of the stream: an error replaces every value, a completion follows the last one. */
  lemma ReleasedAfterValues<T>(held: Option<Notification<T>>, vs: seq<T>, n: Notification<T>)
    requires n.IsTerminal() && (n.Error? || vs != [])
    ensures WellFormed(Values(vs) + [n])
    ensures Released(held, Values(vs) + [n]) == if n.Error? then [Error] else [Next(vs[|vs| - 1]), Complete]
  {
    var ns := Values(vs) + [n];
    WellFormedAppend(Values(vs), [n]);
    LatestOfSnoc(held, Values(vs), n);
    assert EndsWithComplete(ns) == n.Complete?;
    if n.Complete? {
      LatestOfValues(held, vs);
      assert Released(held, ns) == [Next(vs[|vs| - 1])] + [Complete];
    } else {
      assert Released(held, ns) == [Error] + [];
    }
  }

  /** An error produced while detached replaces any value and is delivered on attach; the output then ends. */
  lemma ErrorHeldUntilAttach<T>(g: Gate<T>, vs: seq<T>, post: seq<Event<T>>)
    requires !Attached(g) && !g.terminated && !g.viewDone && !SourceDone(g)
    ensures Run(g, Sources(Values(vs) + [Error]) + [View(true)] + post).1 == [Error]
  {
    var ns := Values(vs) + [Error];
    var u := Sources(ns) + [View(true)];
    SourceNotificationsOfSources(ns);
    ReleasedAfterValues(g.cached, vs, Error);
    ReleasedOnAttach(g, Sources(ns));
    var (g1, o1) := Run(g, u);
    assert o1 == [Error];
    TerminalIsFinal(g, u);
    TerminalIsFinal(g1, post);
    RunAppend(g, u, post);
    assert Run(g, u + post).1 == o1 + [];
  }

  /** A completion produced while detached: the attach delivers the last value, then the completion. */
  lemma CompletedWhileDetached<T>(g: Gate<T>, vs: seq<T>)
    requires !Attached(g) && !g.terminated && !g.viewDone && !SourceDone(g) && vs != []
    ensures Run(g, Sources(Values(vs) + [Complete]) + [View(true)]).1 == [Next(vs[|vs| - 1]), Complete]
  {
    var ns := Values(vs) + [Complete];
    SourceNotificationsOfSources(ns);
    ReleasedAfterValues(g.cached, vs, Complete);
    ReleasedOnAttach(g, Sources(ns));
  }

  /**
   * Every attach re-delivers what combineLatest caches: values delivered live,
   * then a detach and a reattach, deliver the last of them a second time.
   */
  lemma RedeliveredOnReattach<T>(g: Gate<T>, vs: seq<T>)
    requires Attached(g) && !g.terminated && !g.viewDone && !SourceDone(g) && vs != []
    ensures Run(g, Sources(Values(vs)) + [View(false), View(true)]).1 == Values(vs) + [Next(vs[|vs| - 1])]
  {
    var t := Sources(Values(vs));
    LiveWhileAttached(g, Values(vs));
    RunAppend(g, t, [View(false), View(true)]);
  }

  /**
   * A data stream that never signals produces no output; the one exception is
   * combineLatest completing because the view stream completed before it
   * emitted anything.
   */
  lemma {:induction false} NoSourceNoOutput<T>(g: Gate<T>, t: seq<Event<T>>)
    requires g.cached.None? && !g.pending && NoSource(t)
    ensures var out := Run(g, t).1;
      || out == []
      || (&& out == [Complete] && g.view.None? && !g.viewDone && !g.terminated
          && FirstViewEvent(t) == Some(ViewComplete))
    decreases |t|
  {
    if t != [] {
      var (g1, o1) := Step(g, t[0]);
      assert NoSource(t[1..]);
      NoSourceNoOutput(g1, t[1..]);
      if o1 != [] {
        TerminalIsFinal(g1, t[1..]);
      }
    }
  }

  /** With the presenter's convention that the view stream starts with a value, a silent data stream means a silent output. */
  lemma NoSourceSilent<T>(t: seq<Event<T>>)
    requires NoSource(t)
    ensures Output(t) == [] || (Output(t) == [Complete] && FirstViewEvent(t) == Some(ViewComplete))
    ensures t != [] && t[0].View? ==> Output(t) == []
  {
    NoSourceNoOutput(Subscribed(), t);
  }

  /** Past the data stream's end, its further signals change nothing. */
  lemma {:induction false} ClosedIgnoresSource<T>(g: Gate<T>, t: seq<Event<T>>)
    requires Closed(g)
    ensures Run(g, t) == Run(g, DropSource(t))
    decreases |t|
  {
    if t != [] {
      StepKeepsClosed(g, t[0]);
      var g1 := Step(g, t[0]).0;
      ClosedIgnoresSource(g1, t[1..]);
      if t[0].Source? {
        assert [] + Run(g, t[1..]).1 == Run(g, t[1..]).1;
        assert DropSource(t) == DropSource(t[1..]);
      } else {
        var d := DropSource(t);
        assert d == [t[0]] + DropSource(t[1..]);
        assert d[0] == t[0] && d[1..] == DropSource(t[1..]);
      }
    }
  }

  /**
   * Once the data stream has ended while the view is away, the output emits
   * nothing, or a bare completion, or exactly what the gate holds.
   */
  lemma {:induction false} ClosedReleases<T>(g: Gate<T>, t: seq<Event<T>>)
    requires Closed(g) && Consistent(g) && (!Attached(g) || g.terminated)
    ensures var out := Run(g, t).1; out == [] || out == [Complete] || out == Held(g)
    decreases |t|
  {
    if t != [] && !g.terminated {
      var (g1, o1) := Step(g, t[0]);
      ClosedStep(g, t[0]);
      var o2 := Run(g1, t[1..]).1;
      if o1 == [] {
        ClosedReleases(g1, t[1..]);
        assert o1 + o2 == o2;
      } else {
        TerminalIsFinal(g1, t[1..]);
        assert o1 + o2 == o1;
      }
    } else if t != [] {
      TerminalIsFinal(g, t);
    }
  }

  /** One event at a closed, detached gate: nothing happens to what it holds, or the output ends with a completion or with what it holds. */
  lemma ClosedStep<T>(g: Gate<T>, e: Event<T>)
    requires Closed(g) && Consistent(g) && !Attached(g) && !g.terminated
    ensures var (g1, o1) := Step(g, e);
      || (&& o1 == [] && Closed(g1) && Consistent(g1) && (!Attached(g1) || g1.terminated)
          && Held(g1) == Held(g))
      || (o1 != [] && g1.terminated && (o1 == [Complete] || o1 == Held(g)))
  {
  }

  /** After the data stream has ended while the view is away, the next attach delivers what the gate holds. */
  lemma {:induction false} ClosedHeldUntilAttach<T>(g: Gate<T>, t: seq<Event<T>>)
    requires Closed(g) && Consistent(g) && !g.terminated && !Attached(g) && !g.viewDone && Quiet(t)
    ensures Run(g, t + [View(true)]).1 == Held(g)
    ensures Run(g, t + [View(true)]).0.terminated
    decreases |t|
  {
    if t == [] {
      assert t + [View(true)] == [View(true)];
    } else {
      var g1 := Step(g, t[0]).0;
      assert (t + [View(true)])[0] == t[0] && (t + [View(true)])[1..] == t[1..] + [View(true)];
      assert Quiet(t[1..]);
      ClosedHeldUntilAttach(g1, t[1..]);
      assert Held(g1) == Held(g);
    }
  }

  // ---------------------------------------------------------------------------
  // The scenarios of the unit tests

  /** Three values while detached, then an attach: only the last one is delivered. */
  lemma OnlyLastAfterDetach()
    ensures Output([View(false)] + Sources(Values([0, 1, 2])) + [View(true)]) == [Next(2)]
  {
    var g := Step(Subscribed<int>(), View(false)).0;
    CoalescedOnAttach(g, [0, 1, 2]);
    RunAppend(Subscribed<int>(), [View(false)], Sources(Values([0, 1, 2])) + [View(true)]);
    assert [View(false)] + Sources(Values([0, 1, 2])) + [View(true)]
        == [View(false)] + (Sources(Values([0, 1, 2])) + [View(true)]);
  }

  /** An error from a data stream subscribed before the view attaches is delivered on attach. */
  lemma ErrorWhenViewAttaches()
    ensures Output<int>([Source(Error), View(true), ViewComplete]) == [Error]
  {
    ErrorHeldUntilAttach(Subscribed<int>(), [], [ViewComplete]);
    assert Sources(Values<int>([]) + [Error]) + [View(true)] + [ViewComplete]
        == [Source(Error), View(true), ViewComplete];
  }
}
