/**
 * DeliverReplay: every notification of the data stream is recorded in a
 * replay buffer from the moment the output is subscribed, whatever the
 * attachment stream does; each time the attachment stream reports true the
 * whole buffer is replayed from its start, and notifications that arrive
 * while it stays true are passed on live. A false report switches the output
 * over to a stream that never signals.
 *
 * The forwarding observer, the replay buffer and the switch are state that the
 * callbacks update in place, so they are modelled as the class `Replay`, one
 * method per callback.
 */
module DeliverReplay {
  import opened Notifications

  // ---------------------------------------------------------------------------
  // Reference definitions

  /** `s` cut off after its first terminal notification: what a subject keeps of a stream. */
  function UpToTerminal<T>(s: seq<Notification<T>>): seq<Notification<T>> {
    if s == [] then []
    else if s[0].IsTerminal() then [s[0]]
    else [s[0]] + UpToTerminal(s[1..])
  }

  /** The events of `t` before the consumer first disposes the output. */
  function BeforeCancel<T>(t: seq<Event<T>>): (r: seq<Event<T>>)
    ensures Cancel !in r
  {
    if t == [] then []
    else if t[0].Cancel? then []
    else [t[0]] + BeforeCancel(t[1..])
  }

  /**
   * The buffer that the trace `t` leaves behind: the data stream's
   * notifications up to its first terminal one, as long as the output has not
   * been disposed. The attachment stream plays no part in it.
   */
  function Recorded<T>(t: seq<Event<T>>): seq<Notification<T>> {
    UpToTerminal(SourceNotifications(BeforeCancel(t)))
  }

  /**
   * What subscribing to the buffer delivers downstream of the switch: the
   * whole history in order, except that a recorded completion only ends the
   * inner subscription and reaches the consumer once the attachment stream
   * has completed too.
   */
  function Replayed<T>(buffer: seq<Notification<T>>, viewDone: bool): (r: seq<Notification<T>>)
    ensures r == buffer || (!viewDone && r + [Complete] == buffer)
  {
    if EndsWithComplete(buffer) && !viewDone then buffer[..|buffer| - 1] else buffer
  }

  // ---------------------------------------------------------------------------
  // Lemmas about the reference definitions

  /** What a subject keeps of a stream obeys the stream contract. */
  lemma {:induction false} UpToTerminalWellFormed<T>(s: seq<Notification<T>>)
    ensures WellFormed(UpToTerminal(s))
  {
    if s != [] && !s[0].IsTerminal() {
      UpToTerminalWellFormed(s[1..]);
      var r := UpToTerminal(s[1..]);
      assert UpToTerminal(s) == [s[0]] + r;
    }
  }

  lemma {:induction false} UpToTerminalOfWellFormed<T>(s: seq<Notification<T>>)
    requires WellFormed(s)
    ensures UpToTerminal(s) == s
  {
    if s != [] && !s[0].IsTerminal() {
      assert WellFormed(s[1..]);
      UpToTerminalOfWellFormed(s[1..]);
    }
  }

  /** A stream cut at its first terminal notification: what follows an ended prefix is dropped, otherwise it is cut in turn. */
  lemma {:induction false} UpToTerminalAppend<T>(a: seq<Notification<T>>, b: seq<Notification<T>>)
    ensures UpToTerminal(a + b) ==
      if Terminated(UpToTerminal(a)) then UpToTerminal(a) else UpToTerminal(a) + UpToTerminal(b)
  {
    if a == [] {
      assert a + b == b;
    } else if a[0].IsTerminal() {
      assert (a + b)[0] == a[0];
    } else {
      UpToTerminalAppend(a[1..], b);
      UpToTerminalCons(a, b);
    }
  }

  /** One step of the induction above, for a first notification that is not terminal. */
  lemma UpToTerminalCons<T>(a: seq<Notification<T>>, b: seq<Notification<T>>)
    requires a != [] && !a[0].IsTerminal()
    ensures UpToTerminal(a) == [a[0]] + UpToTerminal(a[1..])
    ensures UpToTerminal(a + b) == [a[0]] + UpToTerminal(a[1..] + b)
    ensures Terminated(UpToTerminal(a)) == Terminated(UpToTerminal(a[1..]))
  {
    var x, r := a[0], UpToTerminal(a[1..]);
    assert (a + b)[0] == x && (a + b)[1..] == a[1..] + b;
    assert r == [] || ([x] + r)[|r|] == r[|r| - 1];
  }

  lemma {:induction false} BeforeCancelAppend<T>(a: seq<Event<T>>, b: seq<Event<T>>)
    ensures BeforeCancel(a + b) == if Cancel in a then BeforeCancel(a) else a + BeforeCancel(b)
  {
    if a == [] {
      assert a + b == b;
    } else {
      assert (a + b)[0] == a[0] && (a + b)[1..] == a[1..] + b;
      BeforeCancelAppend(a[1..], b);
      if !a[0].Cancel? {
        assert Cancel in a <==> Cancel in a[1..] by { assert a == [a[0]] + a[1..]; }
      }
    }
  }

  /**
   * How the buffer grows: after the output has been disposed it never changes
   * again; before that it takes in the data-stream notifications of the rest
   * of the trace, until one of them ends the stream.
   */
  lemma RecordedAppend<T>(a: seq<Event<T>>, b: seq<Event<T>>)
    ensures Cancel in a ==> Recorded(a + b) == Recorded(a)
    ensures Cancel !in a ==>
      Recorded(a + b) == UpToTerminal(Recorded(a) + SourceNotifications(BeforeCancel(b)))
  {
    BeforeCancelAppend(a, b);
    if Cancel !in a {
      var x := SourceNotifications(a);
      var y := SourceNotifications(BeforeCancel(b));
      BeforeCancelWithout(a);
      assert Recorded(a) == UpToTerminal(x);
      SourceNotificationsAppend(a, BeforeCancel(b));
      assert Recorded(a + b) == UpToTerminal(x + y);
      UpToTerminalAppend(x, y);
      UpToTerminalWellFormed(x);
      UpToTerminalOfWellFormed(UpToTerminal(x));
      UpToTerminalAppend(UpToTerminal(x), y);
    }
  }

  lemma {:induction false} BeforeCancelWithout<T>(t: seq<Event<T>>)
    requires Cancel !in t
    ensures BeforeCancel(t) == t
  {
    if t != [] {
      assert t == [t[0]] + t[1..];
      BeforeCancelWithout(t[1..]);
    }
  }

  /** While not disposed, the buffer takes in the data stream's notifications in arrival order, up to the first terminal one. */
  lemma RecordedSources<T>(a: seq<Event<T>>, ns: seq<Notification<T>>)
    requires Cancel !in a
    ensures Recorded(a + Sources(ns)) == UpToTerminal(Recorded(a) + ns)
  {
    RecordedAppend(a, Sources(ns));
    BeforeCancelAppend(Sources(ns), []);
    assert Sources(ns) + [] == Sources(ns);
    SourceNotificationsOfSources(ns);
  }

  /** How the predicates on traces split into the first event and the rest. */
  lemma TraceFront<T>(t: seq<Event<T>>)
    requires t != []
    ensures t == [t[0]] + t[1..]
    ensures (Cancel in t) == (t[0].Cancel? || Cancel in t[1..])
    ensures (ViewComplete in t) == (t[0].ViewComplete? || ViewComplete in t[1..])
    ensures SourcesOnly(t) == (t[0].Source? && SourcesOnly(t[1..]))
    ensures NoAttach(t) == (!(t[0].View? && t[0].attached) && NoAttach(t[1..]))
  {
    assert t == [t[0]] + t[1..];
    assert forall i :: 0 < i < |t| ==> t[i] == t[1..][i - 1];
  }

  /** What one event does to the buffer: the forwarding observer passes a data-stream signal on unless disposed or the stream has ended. */
  function RecordEvent<T>(b: seq<Notification<T>>, disposed: bool, e: Event<T>): seq<Notification<T>> {
    if !disposed && e.Source? && !Terminated(b) then b + [e.n] else b
  }

  /** The buffer after the events of `t`, one at a time. */
  function RecordTrace<T>(b: seq<Notification<T>>, disposed: bool, t: seq<Event<T>>): seq<Notification<T>>
    decreases |t|
  {
    if t == [] then b
    else RecordTrace(RecordEvent(b, disposed, t[0]), disposed || t[0].Cancel?, t[1..])
  }

  /**
   * The event-by-event buffer is the reference one: once disposed it never
   * changes; otherwise it is the old buffer followed by the data-stream
   * notifications before disposal, cut at the end of the stream.
   */
  lemma {:induction false} RecordTraceIsRecorded<T>(b: seq<Notification<T>>, disposed: bool, t: seq<Event<T>>)
    requires WellFormed(b)
    ensures RecordTrace(b, disposed, t) ==
      if disposed then b else UpToTerminal(b + SourceNotifications(BeforeCancel(t)))
    decreases |t|
  {
    if t == [] {
      UpToTerminalOfWellFormed(b);
      assert b + [] == b;
    } else {
      var e, rest := t[0], t[1..];
      RecordEventWellFormed(b, disposed, e);
      RecordTraceIsRecorded(RecordEvent(b, disposed, e), disposed || e.Cancel?, rest);
      if !disposed && e.Cancel? {
        UpToTerminalOfWellFormed(b);
        assert b + [] == b;
      } else if !disposed {
        BeforeCancelCons(t);
        RecordEventStep(b, e, SourceNotifications(BeforeCancel(rest)));
      }
    }
  }

  lemma RecordEventWellFormed<T>(b: seq<Notification<T>>, disposed: bool, e: Event<T>)
    requires WellFormed(b)
    ensures WellFormed(RecordEvent(b, disposed, e))
  {
    if !disposed && e.Source? && !Terminated(b) {
      WellFormedOpen(b);
      WellFormedAppend(b, [e.n]);
    }
  }

  /** The data-stream notifications before disposal, split at the first event. */
  lemma BeforeCancelCons<T>(t: seq<Event<T>>)
    requires t != [] && !t[0].Cancel?
    ensures SourceNotifications(BeforeCancel(t)) ==
      (if t[0].Source? then [t[0].n] else []) + SourceNotifications(BeforeCancel(t[1..]))
  {
    var u := BeforeCancel(t);
    assert u == [t[0]] + BeforeCancel(t[1..]);
    assert u[0] == t[0] && u[1..] == BeforeCancel(t[1..]);
  }

  /** One event taken into the buffer, or not, as the cut at the end of the stream sees it. */
  lemma RecordEventStep<T>(b: seq<Notification<T>>, e: Event<T>, xs: seq<Notification<T>>)
    requires WellFormed(b) && !e.Cancel?
    ensures UpToTerminal(RecordEvent(b, false, e) + xs) ==
      UpToTerminal(b + ((if e.Source? then [e.n] else []) + xs))
  {
    if e.Source? && Terminated(b) {
      UpToTerminalAppend(b, xs);
      UpToTerminalAppend(b, [e.n] + xs);
      UpToTerminalOfWellFormed(b);
    } else if e.Source? {
      assert b + [e.n] + xs == b + ([e.n] + xs);
    } else {
      assert [] + xs == xs;
    }
  }

  lemma {:induction false} BeforeCancelOfSources<T>(ns: seq<Notification<T>>)
    ensures BeforeCancel(Sources(ns)) == Sources(ns)
  {
    if ns != [] {
      assert Sources(ns)[1..] == Sources(ns[1..]);
      BeforeCancelOfSources(ns[1..]);
    }
  }

  /** Data-stream signals alone take their notifications into a buffer `b`, up to the end of the stream. */
  lemma RecordedFromSources<T>(b: seq<Notification<T>>, ns: seq<Notification<T>>)
    ensures UpToTerminal(b + SourceNotifications(BeforeCancel(Sources(ns)))) == UpToTerminal(b + ns)
  {
    BeforeCancelOfSources(ns);
    SourceNotificationsOfSources(ns);
  }

  /** A replay ends the consumer's stream exactly when the buffer has ended, and with a completion only once the attachment stream has completed. */
  lemma ReplayedEnds<T>(buffer: seq<Notification<T>>, viewDone: bool)
    requires WellFormed(buffer)
    ensures Terminated(Replayed(buffer, viewDone)) <==>
      Terminated(buffer) && (viewDone || !EndsWithComplete(buffer))
    ensures WellFormed(Replayed(buffer, viewDone))
  {
  }

  /** Extending a buffer that has not ended by one notification. */
  lemma ReplayedSnoc<T>(buffer: seq<Notification<T>>, n: Notification<T>, viewDone: bool)
    requires WellFormed(buffer) && !Terminated(buffer)
    ensures WellFormed(buffer + [n])
    ensures Terminated(buffer + [n]) == n.IsTerminal()
    ensures EndsWithComplete(buffer + [n]) == n.Complete?
    ensures !EndsWithComplete(buffer) && Replayed(buffer, viewDone) == buffer
    ensures Replayed(buffer + [n], viewDone) == buffer + (if n.Complete? && !viewDone then [] else [n])
  {
    WellFormedOpen(buffer);
    WellFormedAppend(buffer, [n]);
    assert (buffer + [n])[..|buffer|] == buffer;
  }

  /** An error ends the history: the values before it, then the error; nothing the data stream sends after it is kept. */
  lemma {:induction false} ErrorEndsHistory<T>(vs: seq<T>, rest: seq<Notification<T>>)
    ensures UpToTerminal(Values(vs) + [Error] + rest) == Values(vs) + [Error]
    ensures Replayed(Values(vs) + [Error], false) == Values(vs) + [Error]
  {
    var h := Values(vs) + [Error];
    assert h + rest == Values(vs) + ([Error] + rest);
    UpToTerminalAppend(Values(vs), [Error] + rest);
    UpToTerminalOfWellFormed(Values(vs));
    assert UpToTerminal([Error] + rest) == [Error];
  }

  // ---------------------------------------------------------------------------
  // The callbacks as one pure step

  /** The transformer's non-ghost state, as a value. */
  datatype Core<T> = Core(
    buffer: seq<Notification<T>>,
    view: Option<bool>,
    viewDone: bool,
    disposed: bool,
    terminated: bool)

  /** The state right after subscription. */
  function Initial<T>(): Core<T> {
    Core([], None, false, false, false)
  }

  /**
   * One event of the interleaved input: the new state and what reaches the
   * consumer. The methods of `Replay` are proved to change their object this way.
   */
  function React<T>(c: Core<T>, e: Event<T>): (Core<T>, seq<Notification<T>>) {
    match e
    case View(a) =>
      if c.terminated || c.viewDone then (c, [])
      else
        var emitted := if a then Replayed(c.buffer, false) else [];
        (c.(view := Some(a), terminated := Terminated(emitted)), emitted)
    case ViewComplete =>
      if c.terminated || c.viewDone then (c.(viewDone := true), [])
      else if c.view == None || (c.view == Some(true) && EndsWithComplete(c.buffer)) then
        (c.(viewDone := true, terminated := true), [Complete])
      else (c.(viewDone := true), [])
    case Source(n) =>
      if c.disposed || Terminated(c.buffer) then (c, [])
      else
        var emitted := if c.terminated || c.view != Some(true) || (n.Complete? && !c.viewDone) then [] else [n];
        (c.(buffer := c.buffer + [n], terminated := c.terminated || Terminated(emitted)), emitted)
    case Cancel =>
      (c.(disposed := true, terminated := true), [])
  }

  /** The events of `t` one after another: the final state and everything that reached the consumer. */
  function ReactAll<T>(c: Core<T>, t: seq<Event<T>>): (Core<T>, seq<Notification<T>>)
    decreases |t|
  {
    if t == [] then (c, [])
    else
      var (c1, o1) := React(c, t[0]);
      var (c2, o2) := ReactAll(c1, t[1..]);
      (c2, o1 + o2)
  }

  lemma ReactAllCons<T>(c: Core<T>, t: seq<Event<T>>, c1: Core<T>, first: seq<Notification<T>>)
    requires t != [] && (c1, first) == React(c, t[0])
    ensures ReactAll(c, t) == (ReactAll(c1, t[1..]).0, first + ReactAll(c1, t[1..]).1)
  {
  }

  lemma SourcesOnlyTail<T>(t: seq<Event<T>>)
    requires t != [] && SourcesOnly(t)
    ensures t[0].Source? && SourcesOnly(t[1..])
  {
    assert forall i :: 0 <= i < |t[1..]| ==> t[1..][i] == t[i + 1];
  }

  /**
   * Disposal and the attachment stream's completion are remembered for good,
   * and the buffer grows exactly as the forwarding observer feeds it.
   */
  lemma {:induction false} ReactAllRecords<T>(c: Core<T>, t: seq<Event<T>>)
    ensures ReactAll(c, t).0.disposed == (c.disposed || Cancel in t)
    ensures ReactAll(c, t).0.viewDone == (c.viewDone || ViewComplete in t)
    ensures ReactAll(c, t).0.buffer == RecordTrace(c.buffer, c.disposed, t)
    decreases |t|
  {
    if t != [] {
      TraceFront(t);
      ReactAllRecords(React(c, t[0]).0, t[1..]);
    }
  }

  /** Once the output has ended, nothing more reaches the consumer. */
  lemma {:induction false} ReactAllClosed<T>(c: Core<T>, t: seq<Event<T>>)
    requires c.terminated
    ensures ReactAll(c, t).0.terminated && ReactAll(c, t).1 == []
    decreases |t|
  {
    if t != [] {
      ReactAllClosed(React(c, t[0]).0, t[1..]);
    }
  }

  /** Data-stream signals leave the switch where it is, and reach the consumer only while attached. */
  lemma {:induction false} ReactAllSources<T>(c: Core<T>, t: seq<Event<T>>)
    requires SourcesOnly(t)
    ensures ReactAll(c, t).0.view == c.view
    ensures c.view != Some(true) ==> ReactAll(c, t).1 == []
    decreases |t|
  {
    if t != [] {
      TraceFront(t);
      ReactAllSources(React(c, t[0]).0, t[1..]);
    }
  }

  /** An attachment stream that completes before reporting anything has completed the output. */
  predicate SilentDone<T>(c: Core<T>) {
    c.viewDone && c.view == None ==> c.terminated
  }

  /**
   * Without an attach nothing reaches the consumer, except the completion
   * that an attachment stream completing before any report causes.
   */
  lemma {:induction false} ReactAllNoAttach<T>(c: Core<T>, t: seq<Event<T>>)
    requires NoAttach(t) && c.view != Some(true) && SilentDone(c)
    ensures var out := ReactAll(c, t).1;
      out == [] || (out == [Complete] && c.view == None && FirstViewEvent(t) == Some(ViewComplete))
    decreases |t|
  {
    if t != [] {
      TraceFront(t);
      var (c1, o1) := React(c, t[0]);
      if o1 != [] {
        ReactAllClosed(c1, t[1..]);
        assert ReactAll(c, t).1 == o1 + [];
      } else {
        ReactAllNoAttach(c1, t[1..]);
        if c1.terminated {
          ReactAllClosed(c1, t[1..]);
        }
      }
    }
  }

  // ---------------------------------------------------------------------------
  // The transformer's state

  class Replay<T> {
    /** The replay subject's history. */
    var buffer: seq<Notification<T>>
    /** The latest report of the attachment stream, if any. */
    var view: Option<bool>
    /** The attachment stream has completed. */
    var viewDone: bool
    /** The forwarding observer has been disposed, so the data stream no longer reaches the buffer. */
    var disposed: bool
    /** The output has ended: an error or completion reached the consumer, or it was disposed. */
    var terminated: bool
    /** Everything the consumer has received so far. */
    ghost var delivered: seq<Notification<T>>
    /** What the consumer has received since the latest attach. */
    ghost var session: seq<Notification<T>>

    ghost predicate Valid()
      reads this
    {
      && WellFormed(buffer)
      && WellFormed(delivered)
      && (terminated <==> disposed || Terminated(delivered))
      // while attached, the consumer has received exactly the replayed buffer since the attach,
      // and the output has ended exactly when that replay has
      && (view == Some(true) && !disposed ==> session == Replayed(buffer, viewDone))
      && (view == Some(true) && !disposed ==>
            (terminated <==> Terminated(buffer) && (viewDone || !EndsWithComplete(buffer))))
      // an attachment stream that completes before reporting anything completes the output
      && (viewDone && view == None ==> terminated)
    }

    /** The object's non-ghost state, as a value. */
    function State(): Core<T>
      reads this
    {
      Core(buffer, view, viewDone, disposed, terminated)
    }

    /** Subscribing to the output: the data stream is subscribed at once, into an empty buffer. */
    constructor ()
      ensures Valid()
      ensures buffer == [] && view == None && !viewDone && !disposed && !terminated
      ensures delivered == [] && session == []
    {
      buffer := [];
      view := None;
      viewDone := false;
      disposed := false;
      terminated := false;
      delivered := [];
      session := [];
    }

    /**
     * The attachment stream reports `attached`. True switches to a fresh
     * subscription to the buffer, which replays it from the start; false
     * switches to a stream that never signals.
     */
    method OnView(attached: bool) returns (emitted: seq<Notification<T>>)
      requires Valid()
      modifies this
      ensures Valid()
      ensures (State(), emitted) == React(old(State()), View(attached))
      ensures session == if old(terminated) || old(viewDone) then old(session) else emitted
      ensures delivered == old(delivered) + emitted
    {
      if terminated || viewDone {
        emitted := [];
        return;
      }
      view := Some(attached);
      emitted := if attached then Replayed(buffer, false) else [];
      ReplayedEnds(buffer, false);
      terminated := Terminated(emitted);
      WellFormedOpen(delivered);
      WellFormedAppend(delivered, emitted);
      session := emitted;
      delivered := delivered + emitted;
    }

    /**
     * The attachment stream completes. The output completes with it when no
     * report ever came, or when the buffer subscribed to last has completed.
     */
    method OnViewComplete() returns (emitted: seq<Notification<T>>)
      requires Valid()
      modifies this
      ensures Valid()
      ensures (State(), emitted) == React(old(State()), ViewComplete)
      ensures session == old(session) + emitted && delivered == old(delivered) + emitted
    {
      if terminated || viewDone {
        viewDone := true;
        emitted := [];
        assert session + [] == session && delivered + [] == delivered;
        return;
      }
      if view == None || (view == Some(true) && EndsWithComplete(buffer)) {
        emitted := [Complete];
        terminated := true;
      } else {
        emitted := [];
      }
      WellFormedOpen(delivered);
      WellFormedAppend(delivered, emitted);
      viewDone := true;
      session := session + emitted;
      delivered := delivered + emitted;
    }

    /**
     * The data stream signals `n`. The forwarding observer hands it to the
     * buffer unless it has been disposed or the stream already ended; while
     * attached it also reaches the consumer, where a completion only counts
     * once the attachment stream has completed.
     */
    method OnSource(n: Notification<T>) returns (emitted: seq<Notification<T>>)
      requires Valid()
      modifies this
      ensures Valid()
      ensures (State(), emitted) == React(old(State()), Source(n))
      ensures session == old(session) + emitted && delivered == old(delivered) + emitted
    {
      if disposed || Terminated(buffer) {
        emitted := [];
        assert session + [] == session && delivered + [] == delivered;
        return;
      }
      ReplayedSnoc(buffer, n, viewDone);
      if terminated || view != Some(true) {
        emitted := [];
      } else if n.Complete? && !viewDone {
        emitted := [];
      } else {
        emitted := [n];
      }
      if !terminated {
        WellFormedOpen(delivered);
        WellFormedAppend(delivered, emitted);
      }
      terminated := terminated || Terminated(emitted);
      buffer := buffer + [n];
      session := session + emitted;
      delivered := delivered + emitted;
    }

    /** The consumer disposes the output: the forwarding observer is disposed and nothing reaches the consumer any more. */
    method OnCancel()
      requires Valid()
      modifies this
      ensures Valid()
      ensures (State(), []) == React(old(State()), Cancel)
      ensures session == old(session) && delivered == old(delivered)
    {
      disposed := true;
      terminated := true;
    }

    /** One event of the interleaved input, handed to its callback. */
    method OnEvent(e: Event<T>) returns (emitted: seq<Notification<T>>)
      requires Valid()
      modifies this
      ensures Valid()
      ensures (State(), emitted) == React(old(State()), e)
      ensures delivered == old(delivered) + emitted
      ensures e.Source? ==> session == old(session) + emitted
    {
      match e {
        case View(a) =>
          emitted := OnView(a);
        case ViewComplete =>
          emitted := OnViewComplete();
        case Source(n) =>
          emitted := OnSource(n);
        case Cancel =>
          OnCancel();
          emitted := [];
      }
    }

    /** Hands every event of `t` to its callback, in order, and collects what reaches the consumer. */
    method Feed(t: seq<Event<T>>) returns (out: seq<Notification<T>>)
      requires Valid()
      modifies this
      ensures Valid()
      ensures (State(), out) == ReactAll(old(State()), t)
      ensures delivered == old(delivered) + out
      ensures SourcesOnly(t) ==> session == old(session) + out
      decreases |t|
    {
      if t == [] {
        out := [];
        assert session + [] == session && delivered + [] == delivered;
        return;
      }
      ghost var c0, s0, d0 := State(), session, delivered;
      var first := OnEvent(t[0]);
      ghost var c1 := State();
      var rest := Feed(t[1..]);
      out := first + rest;
      ReactAllCons(c0, t, c1, first);
      AppendAssoc(d0, first, rest);
      if SourcesOnly(t) {
        SourcesOnlyTail(t);
        AppendAssoc(s0, first, rest);
      }
    }
  }

  // ---------------------------------------------------------------------------
  // Whole traces

  /**
   * Subscribing to the output and then feeding it the trace `t`: the object
   * that results, and what reached the consumer.
   */
  method Subscribe<T>(t: seq<Event<T>>) returns (r: Replay<T>, out: seq<Notification<T>>)
    ensures fresh(r) && r.Valid()
    ensures r.delivered == out
    ensures r.buffer == Recorded(t)
    ensures r.disposed == (Cancel in t) && r.viewDone == (ViewComplete in t)
    ensures SourcesOnly(t) ==> r.view == None && out == [] && r.session == []
    ensures NoAttach(t) ==>
      out == [] || (out == [Complete] && FirstViewEvent(t) == Some(ViewComplete))
  {
    r := new Replay<T>();
    out := r.Feed(t);
    ReactAllRecords(Initial(), t);
    RecordTraceIsRecorded([], false, t);
    assert [] + SourceNotifications(BeforeCancel(t)) == SourceNotifications(BeforeCancel(t));
    assert [] + out == out;
    if SourcesOnly(t) {
      ReactAllSources(Initial(), t);
    }
    if NoAttach(t) {
      ReactAllNoAttach(Initial(), t);
    }
  }

  /**
   * One subscription to the output fed the trace `trace`: the consumer's
   * stream obeys the stream contract, the buffer holds exactly what the data
   * stream sent before disposal (up to its end) whatever the attachment
   * stream did, and without an attach nothing at all is delivered, except the
   * completion of an attachment stream that completes before any report.
   */
  method Run<T>(trace: seq<Event<T>>) returns (out: seq<Notification<T>>, buffer: seq<Notification<T>>)
    ensures WellFormed(out)
    ensures buffer == Recorded(trace)
    ensures NoAttach(trace) ==>
      out == [] || (out == [Complete] && FirstViewEvent(trace) == Some(ViewComplete))
  {
    var r;
    r, out := Subscribe(trace);
    buffer := r.buffer;
  }

  /**
   * Every attach replays the whole recorded history from its start, values
   * already delivered by an earlier attach included, unless the output has
   * ended, been disposed, or the attachment stream has completed.
   */
  method ReplayOnAttach<T>(pre: seq<Event<T>>) returns (before: seq<Notification<T>>, replay: seq<Notification<T>>)
    ensures replay ==
      if Cancel in pre || ViewComplete in pre || Terminated(before) then []
      else Replayed(Recorded(pre), false)
  {
    var r;
    r, before := Subscribe(pre);
    replay := r.OnView(true);
  }

  /**
   * After an attach, the replayed history is followed by the notifications
   * that arrive while attached, and the two together are exactly the replay
   * of the longer history.
   */
  method LiveAfterAttach<T>(pre: seq<Event<T>>, ns: seq<Notification<T>>)
    returns (before: seq<Notification<T>>, replay: seq<Notification<T>>, live: seq<Notification<T>>)
    ensures Cancel !in pre && ViewComplete !in pre && !Terminated(before) ==>
      replay == Replayed(Recorded(pre), false) &&
      replay + live == Replayed(Recorded(pre + Sources(ns)), false)
  {
    var r;
    r, before := Subscribe(pre);
    replay := r.OnView(true);
    ghost var c1 := r.State();
    live := r.Feed(Sources(ns));
    if Cancel !in pre && ViewComplete !in pre && !Terminated(before) {
      ReactAllRecords(c1, Sources(ns));
      ReactAllSources(c1, Sources(ns));
      RecordTraceIsRecorded(c1.buffer, false, Sources(ns));
      RecordedFromSources(c1.buffer, ns);
      RecordedSources(pre, ns);
      assert r.buffer == Recorded(pre + Sources(ns));
      assert r.view == Some(true) && !r.disposed && !r.viewDone;
      assert r.session == replay + live;
    }
  }

  /** After a detach, nothing reaches the consumer until the next attach, whatever the data stream or the attachment stream does. */
  method QuietAfterDetach<T>(pre: seq<Event<T>>, t: seq<Event<T>>) returns (quiet: seq<Notification<T>>)
    ensures ViewComplete !in pre && NoAttach(t) ==> quiet == []
  {
    var r, before := Subscribe(pre);
    var detach := r.OnView(false);
    ghost var c := r.State();
    quiet := r.Feed(t);
    if ViewComplete !in pre && NoAttach(t) {
      if c.terminated {
        ReactAllClosed(c, t);
      } else {
        ReactAllNoAttach(c, t);
      }
    }
  }

  // ---------------------------------------------------------------------------
  // The scenarios of the unit tests

  /** A buffer holding the data stream's signals `ns`, none of which has reached the consumer. */
  method SubscribedWithHistory<T>(ns: seq<Notification<T>>) returns (r: Replay<T>)
    ensures fresh(r) && r.Valid()
    ensures r.buffer == UpToTerminal(ns) && r.delivered == [] && r.session == []
    ensures r.view == None && !r.viewDone && !r.disposed && !r.terminated
  {
    var out;
    r, out := Subscribe(Sources(ns));
    BeforeCancelOfSources(ns);
    SourceNotificationsOfSources(ns);
  }

  /** Values and completion recorded before the view attaches are all delivered, then the output completes with the attachment stream. */
  method DeliveredOnceAttached<T>(vs: seq<T>) returns (out: seq<Notification<T>>)
    ensures out == Values(vs) + [Complete]
  {
    var ns := Values(vs) + [Complete];
    WellFormedAppend(Values(vs), [Complete]);
    UpToTerminalOfWellFormed(ns);
    var r := SubscribedWithHistory(ns);
    var o1 := r.OnView(true);
    assert o1 == Values(vs);
    var o2 := r.OnViewComplete();
    out := o1 + o2;
  }

  /** While the view is detached, or never reports, nothing is delivered: no value, no error, no completion. */
  method NothingWhileDetached<T>(ns: seq<Notification<T>>) returns (detached: seq<Notification<T>>, never: seq<Notification<T>>)
    ensures detached == [] && never == []
  {
    var r := SubscribedWithHistory(ns);
    var o1 := r.OnView(false);
    var o2 := r.OnViewComplete();
    detached := o1 + o2;
    var q;
    q, never := Subscribe(Sources(ns));
  }

  /** A recorded error ends the replay: the values before it, then the error, and nothing after it. */
  method ErrorEndsReplay<T>(vs: seq<T>, rest: seq<Notification<T>>) returns (out: seq<Notification<T>>)
    ensures out == Values(vs) + [Error]
  {
    var ns := Values(vs) + [Error] + rest;
    ErrorEndsHistory(vs, rest);
    var r := SubscribedWithHistory(ns);
    var o1 := r.OnView(true);
    var o2 := r.OnViewComplete();
    out := o1 + o2;
  }

  /** Reattaching replays the entire history again; the output stays open while the attachment stream is live. */
  method ReplayedOnEveryAttach<T>(vs: seq<T>) returns (out: seq<Notification<T>>)
    ensures out == Values(vs) + Values(vs)
  {
    var ns := Values(vs) + [Complete];
    WellFormedAppend(Values(vs), [Complete]);
    UpToTerminalOfWellFormed(ns);
    var r := SubscribedWithHistory(ns);
    var o1 := r.OnView(true);
    assert o1 == Values(vs) && !Terminated(o1);
    var o2 := r.OnView(false);
    assert o2 == [] && !r.terminated && r.buffer == ns;
    var o3 := r.OnView(true);
    assert o3 == Values(vs);
    assert o1 + o2 == o1;
    out := o1 + o2 + o3;
  }
}
