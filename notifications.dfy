/**
 * The signals that flow through the three delivery transformers.
 *
 * A `Notification` is what `materialize` turns every data-stream signal into
 * and what `dematerialize` turns back into a signal for the consumer; an
 * `Event` is one step of the interleaved input that a transformer sees: the
 * attachment stream emitting or completing, the data stream signalling, or
 * the consumer disposing the output.
 */
module Notifications {

  datatype Option<T> = None | Some(value: T)

  /** A value, an error (its payload is opaque) or the completion marker. */
  datatype Notification<T> = Next(value: T) | Error | Complete {
    /** Error and Complete end a stream; nothing may follow them. */
    predicate IsTerminal() {
      !Next?
    }
  }

  datatype Event<T> =
    | View(attached: bool)        // the attachment stream emits true (bound) or false (unbound)
    | ViewComplete                // the attachment stream completes (presenter destroyed)
    | Source(n: Notification<T>)  // the data stream signals
    | Cancel                      // the consumer disposes the output

  /** No notification of `s` is terminal. */
  predicate NoTerminal<T>(s: seq<Notification<T>>) {
    forall i :: 0 <= i < |s| ==> !s[i].IsTerminal()
  }

  /** The stream contract: a terminal notification, if any, comes last. */
  predicate WellFormed<T>(s: seq<Notification<T>>) {
    forall i :: 0 <= i < |s| - 1 ==> !s[i].IsTerminal()
  }

  /** `s` ends with a terminal notification. */
  predicate Terminated<T>(s: seq<Notification<T>>) {
    |s| > 0 && s[|s| - 1].IsTerminal()
  }

  /** `s` ends with the completion marker. */
  predicate EndsWithComplete<T>(s: seq<Notification<T>>) {
    |s| > 0 && s[|s| - 1].Complete?
  }

  /** The notifications that carry the values `vs`, in order. */
  function Values<T>(vs: seq<T>): (ns: seq<Notification<T>>)
    ensures |ns| == |vs|
    ensures forall i :: 0 <= i < |vs| ==> ns[i] == Next(vs[i])
    ensures NoTerminal(ns)
  {
    if vs == [] then [] else [Next(vs[0])] + Values(vs[1..])
  }

  /** The data stream signalling `ns`, one event per notification. */
  function Sources<T>(ns: seq<Notification<T>>): (t: seq<Event<T>>)
    ensures |t| == |ns|
    ensures forall i :: 0 <= i < |ns| ==> t[i] == Source(ns[i])
  {
    if ns == [] then [] else [Source(ns[0])] + Sources(ns[1..])
  }

  /** The data-stream notifications of a trace, in arrival order. */
  function SourceNotifications<T>(t: seq<Event<T>>): seq<Notification<T>> {
    if t == [] then []
    else (if t[0].Source? then [t[0].n] else []) + SourceNotifications(t[1..])
  }

  /** The first notification the data stream sends in `t`, if any. */
  function FirstSource<T>(t: seq<Event<T>>): Option<Notification<T>> {
    if t == [] then None
    else if t[0].Source? then Some(t[0].n)
    else FirstSource(t[1..])
  }

  /** The first event of `t` that comes from the attachment stream, if any. */
  function FirstViewEvent<T>(t: seq<Event<T>>): Option<Event<T>> {
    if t == [] then None
    else if t[0].View? || t[0].ViewComplete? then Some(t[0])
    else FirstViewEvent(t[1..])
  }

  /** `t` holds no data-stream event. */
  predicate NoSource<T>(t: seq<Event<T>>) {
    forall i :: 0 <= i < |t| ==> !t[i].Source?
  }

  /** `t` holds data-stream events only. */
  predicate SourcesOnly<T>(t: seq<Event<T>>) {
    forall i :: 0 <= i < |t| ==> t[i].Source?
  }

  /** The attachment stream never reports true in `t`. */
  predicate NoAttach<T>(t: seq<Event<T>>) {
    forall i :: 0 <= i < |t| ==> !(t[i].View? && t[i].attached)
  }

  /** Only data-stream signals and detach reports: events during which a consumer is away. */
  predicate Quiet<T>(t: seq<Event<T>>) {
    forall i :: 0 <= i < |t| ==> t[i].Source? || (t[i].View? && !t[i].attached)
  }

  /** The attachment stream neither reports true nor completes in `t`. */
  predicate StaysAway<T>(t: seq<Event<T>>) {
    forall i :: 0 <= i < |t| ==> !(t[i].View? && t[i].attached) && !t[i].ViewComplete?
  }

  /** `t` without its data-stream events. */
  function DropSource<T>(t: seq<Event<T>>): seq<Event<T>> {
    if t == [] then []
    else (if t[0].Source? then [] else [t[0]]) + DropSource(t[1..])
  }

  lemma {:induction false} SourceNotificationsAppend<T>(a: seq<Event<T>>, b: seq<Event<T>>)
    ensures SourceNotifications(a + b) == SourceNotifications(a) + SourceNotifications(b)
  {
    if a == [] {
      assert a + b == b;
    } else {
      assert (a + b)[0] == a[0] && (a + b)[1..] == a[1..] + b;
      SourceNotificationsAppend(a[1..], b);
    }
  }

  lemma {:induction false} SourceNotificationsOfSources<T>(ns: seq<Notification<T>>)
    ensures SourceNotifications(Sources(ns)) == ns
  {
    if ns != [] {
      assert Sources(ns)[1..] == Sources(ns[1..]);
      SourceNotificationsOfSources(ns[1..]);
    }
  }

  /** Associativity of `+`, called where the solver would otherwise search for it: it only keeps proofs cheap. */
  lemma AppendAssoc<X>(a: seq<X>, b: seq<X>, c: seq<X>)
    ensures a + b + c == a + (b + c)
  {
  }

  /** A well-formed stream that has not ended can be extended by any notification. */
  lemma WellFormedAppend<T>(a: seq<Notification<T>>, b: seq<Notification<T>>)
    requires NoTerminal(a) && WellFormed(b)
    ensures WellFormed(a + b)
    ensures Terminated(a + b) <==> Terminated(b)
  {
  }

  /** A well-formed stream that has not ended has no terminal notification at all. */
  lemma WellFormedOpen<T>(s: seq<Notification<T>>)
    requires WellFormed(s) && !Terminated(s)
    ensures NoTerminal(s)
  {
  }
}
