/** The delivery state machine behind the handler slot and the pending-link slot, on values.
    A handler is an opaque identity; every invocation of a handler is recorded in a log, so
    that "delivered exactly once" and "most recent wins" can be stated about the log. */
module Dispatch {
  import opened Wrappers
  import opened LinkTypes

  /** Identity of a handler the application registered. */
  type HandlerId = nat

  /** One invocation of a handler with a link. */
  datatype Delivery = Delivery(handler: HandlerId, link: DeepLinkData)

  /** The registered handler, the link waiting for a handler, and every invocation so far. */
  datatype DeliveryState = DeliveryState(handler: Option<HandlerId>, pending: Option<DeepLinkData>, log: seq<Delivery>)

  /** No handler, nothing pending, nothing delivered. */
  const Idle := DeliveryState(None, None, [])

  /** At most one of the two slots is in use: a link only waits while there is no handler. */
  predicate Valid(s: DeliveryState) {
    s.handler.Some? ==> s.pending.None?
  }

  /** A link is produced (by a navigation intent or by the backend): a registered handler is
      invoked with it once and the pending slot is left alone; with no handler, nothing is
      invoked and the link takes the pending slot, replacing whatever waited there. */
  function Produce(s: DeliveryState, link: DeepLinkData): (t: DeliveryState)
    ensures t.handler == s.handler
    ensures s.handler.Some? ==> t.pending == s.pending && t.log == s.log + [Delivery(s.handler.value, link)]
    ensures s.handler.None? ==> t.pending == Some(link) && t.log == s.log
    ensures Valid(s) ==> Valid(t)
  {
    match s.handler
    case Some(h) => s.(log := s.log + [Delivery(h, link)])
    case None => s.(pending := Some(link))
  }

  /** A handler is registered: it replaces the previous one; a waiting link is handed to the
      new handler once and the pending slot is emptied; otherwise nothing is invoked. */
  function Register(s: DeliveryState, h: HandlerId): (t: DeliveryState)
    ensures t.handler == Some(h) && t.pending == None && Valid(t)
    ensures s.pending.Some? ==> t.log == s.log + [Delivery(h, s.pending.value)]
    ensures s.pending.None? ==> t.log == s.log
  {
    match s.pending
    case Some(link) => DeliveryState(Some(h), None, s.log + [Delivery(h, link)])
    case None => s.(handler := Some(h))
  }

  /** The two events that change delivery state. */
  datatype Event = Produced(link: DeepLinkData) | Registered(handler: HandlerId)

  function Step(s: DeliveryState, e: Event): DeliveryState {
    match e
    case Produced(link) => Produce(s, link)
    case Registered(h) => Register(s, h)
  }

  /** The state after a sequence of events, in order. */
  function Run(s: DeliveryState, es: seq<Event>): DeliveryState
    decreases |es|
  {
    if es == [] then s else Run(Step(s, es[0]), es[1..])
  }

  /** The links produced by a sequence of events, in order. */
  function ProducedLinks(es: seq<Event>): seq<DeepLinkData>
    decreases |es|
  {
    if es == [] then []
    else (if es[0].Produced? then [es[0].link] else []) + ProducedLinks(es[1..])
  }

  /** The links a log delivered, in order. */
  function LinksOf(log: seq<Delivery>): seq<DeepLinkData>
    decreases |log|
  {
    if log == [] then [] else [log[0].link] + LinksOf(log[1..])
  }

  predicate AllRegistrations(es: seq<Event>) {
    forall i :: 0 <= i < |es| ==> es[i].Registered?
  }

  predicate AllProductions(es: seq<Event>) {
    forall i :: 0 <= i < |es| ==> es[i].Produced?
  }

  function Slot(o: Option<DeepLinkData>): nat {
    if o.Some? then 1 else 0
  }

  lemma {:induction false} LinksOfAppend(a: seq<Delivery>, b: seq<Delivery>)
    ensures LinksOf(a + b) == LinksOf(a) + LinksOf(b)
    decreases |a|
  {
    if a == [] {
      assert a + b == b;
    } else {
      assert (a + b)[1..] == a[1..] + b;
      LinksOfAppend(a[1..], b);
    }
  }

  /** Running two sequences of events one after the other is running their concatenation. */
  lemma {:induction false} RunAppend(s: DeliveryState, a: seq<Event>, b: seq<Event>)
    ensures Run(s, a + b) == Run(Run(s, a), b)
    decreases |a|
  {
    if a == [] {
      assert a + b == b;
    } else {
      assert (a + b)[0] == a[0];
      assert (a + b)[1..] == a[1..] + b;
      RunAppend(Step(s, a[0]), a[1..], b);
    }
  }

  /** Every reachable state keeps at most one slot in use. */
  lemma {:induction false} RunKeepsValid(s: DeliveryState, es: seq<Event>)
    requires Valid(s)
    ensures Valid(Run(s, es))
    decreases |es|
  {
    if es != [] {
      RunKeepsValid(Step(s, es[0]), es[1..]);
    }
  }

  /** Deliveries are only ever appended: no invocation is undone or reordered, and no link
      is delivered more often than it was produced (counting the one that waited at the start). */
  lemma {:induction false} RunNeverDuplicates(s: DeliveryState, es: seq<Event>)
    ensures s.log <= Run(s, es).log
    ensures |Run(s, es).log| - |s.log| + Slot(Run(s, es).pending) <= |ProducedLinks(es)| + Slot(s.pending)
    decreases |es|
  {
    if es != [] {
      RunNeverDuplicates(Step(s, es[0]), es[1..]);
    }
  }

  /** Nothing is delivered or left waiting that was not produced (or waiting at the start). */
  lemma {:induction false} DeliveredWereProduced(s: DeliveryState, es: seq<Event>)
    ensures s.log <= Run(s, es).log
    ensures forall d :: d in Run(s, es).log[|s.log|..] ==> d.link in ProducedLinks(es) || s.pending == Some(d.link)
    ensures Run(s, es).pending.Some? ==>
      Run(s, es).pending.value in ProducedLinks(es) || Run(s, es).pending == s.pending
    decreases |es|
  {
    RunNeverDuplicates(s, es);
    if es != [] {
      var t := Step(s, es[0]);
      DeliveredWereProduced(t, es[1..]);
      RunNeverDuplicates(t, es[1..]);
      var u := Run(t, es[1..]);
      assert u == Run(s, es);
      assert ProducedLinks(es) == (if es[0].Produced? then [es[0].link] else []) + ProducedLinks(es[1..]);
      assert s.log <= t.log;
      assert u.log[|s.log|..] == t.log[|s.log|..] + u.log[|t.log|..];
      forall d | d in u.log[|s.log|..]
        ensures d.link in ProducedLinks(es) || s.pending == Some(d.link)
      {
        if d in u.log[|t.log|..] {
          assert d.link in ProducedLinks(es[1..]) || t.pending == Some(d.link);
        } else {
          assert d in t.log[|s.log|..];
        }
      }
    }
  }

  /** While a handler is registered no link is lost: the links produced are delivered, each
      once and in the order they were produced, and nothing is left waiting. */
  lemma {:induction false} HandlerReceivesEveryLink(s: DeliveryState, es: seq<Event>)
    requires Valid(s) && s.handler.Some?
    ensures Run(s, es).handler.Some? && Run(s, es).pending.None?
    ensures |s.log| <= |Run(s, es).log|
    ensures LinksOf(Run(s, es).log[|s.log|..]) == ProducedLinks(es)
    decreases |es|
  {
    if es == [] {
      assert s.log[|s.log|..] == [];
    } else {
      var t := Step(s, es[0]);
      HandlerReceivesEveryLink(t, es[1..]);
      RunNeverDuplicates(t, es[1..]);
      var u := Run(t, es[1..]);
      var gained := t.log[|s.log|..];
      assert gained == (if es[0].Produced? then [Delivery(s.handler.value, es[0].link)] else []);
      assert u.log[|s.log|..] == gained + u.log[|t.log|..];
      LinksOfAppend(gained, u.log[|t.log|..]);
      assert LinksOf(gained) == (if es[0].Produced? then [es[0].link] else []);
    }
  }

  /** Registrations alone: the last handler stays registered, and a waiting link goes to the
      first handler registered, once. */
  lemma {:induction false} RegistrationsOnly(s: DeliveryState, es: seq<Event>)
    requires AllRegistrations(es) && es != []
    ensures Run(s, es) == DeliveryState(
      Some(es[|es| - 1].handler), None,
      s.log + (if s.pending.Some? then [Delivery(es[0].handler, s.pending.value)] else []))
    decreases |es|
  {
    var t := Step(s, es[0]);
    if |es| > 1 {
      RegistrationsOnly(t, es[1..]);
    }
  }

  /** Productions alone with no handler: nothing is delivered and only the last link waits. */
  lemma {:induction false} ProductionsOnlyMostRecentWins(s: DeliveryState, es: seq<Event>)
    requires s.handler.None? && AllProductions(es) && es != []
    ensures Run(s, es) == s.(pending := Some(es[|es| - 1].link))
    decreases |es|
  {
    var t := Step(s, es[0]);
    if |es| > 1 {
      ProductionsOnlyMostRecentWins(t, es[1..]);
    }
  }

  /** Whether the handler is registered before or after the link arrives (with any number of
      further registrations around it), the link is delivered exactly once: to the handler
      registered last before it arrived, or else to the first one registered after. */
  lemma {:induction false} ExactlyOnceEitherOrder(before: seq<Event>, link: DeepLinkData, after: seq<Event>)
    requires AllRegistrations(before) && AllRegistrations(after) && before + after != []
    ensures var t := Run(Idle, before + [Produced(link)] + after);
      && t.log == [Delivery(if before != [] then before[|before| - 1].handler else after[0].handler, link)]
      && t.pending == None
  {
    RunAppend(Idle, before + [Produced(link)], after);
    RunAppend(Idle, before, [Produced(link)]);
    var s := Run(Idle, before);
    if before != [] {
      RegistrationsOnly(Idle, before);
    }
    var t := Run(s, [Produced(link)]);
    assert t == Produce(s, link);
    if after != [] {
      RegistrationsOnly(t, after);
    }
  }

  /** Several links produced before any handler is registered: only the last is delivered,
      once, to the first handler registered. */
  lemma {:induction false} LastLinkBeforeRegistrationWins(ps: seq<Event>, rs: seq<Event>)
    requires AllProductions(ps) && ps != [] && AllRegistrations(rs) && rs != []
    ensures Run(Idle, ps + rs).log == [Delivery(rs[0].handler, ps[|ps| - 1].link)]
    ensures Run(Idle, ps + rs).pending == None
  {
    RunAppend(Idle, ps, rs);
    ProductionsOnlyMostRecentWins(Idle, ps);
    RegistrationsOnly(Run(Idle, ps), rs);
  }
}
