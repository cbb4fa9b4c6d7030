/** The accept loop: connections, the permits they hold, and what happens past the cap. */
module AcceptLoop {

  /** The largest number of permits a semaphore takes on a 64-bit target. */
  const MAX_PERMITS: nat := 0x1FFF_FFFF_FFFF_FFFF

  function Distance(a: nat, b: nat): nat {
    if a <= b then b - a else a - b
  }

  /** The allowed cap nearest to the one asked for. */
  method WithMaxConnections(requested: nat) returns (cap: nat)
    ensures 1 <= cap <= 0x1FFF_FFFF_FFFF_FFFF
    ensures forall allowed :: 1 <= allowed <= 0x1FFF_FFFF_FFFF_FFFF ==>
      Distance(requested, cap) <= Distance(requested, allowed)
  {
    cap := if requested < 1 then 1 else if requested > MAX_PERMITS then MAX_PERMITS else requested;
  }

  /** What the loop meets, in the order it happens; connections are told apart by number. */
  datatype Event = Accepted(id: nat) | AcceptFailed | Ended(id: nat)

  /** Free permits, the connections that hold one, and the fate of every connection so far. */
  datatype Listener = Listener(permits: nat, live: set<nat>, served: seq<nat>, closed: seq<nat>, pauses: nat)

  function Start(cap: nat): Listener {
    Listener(cap, {}, [], [], 0)
  }

  /** Each connection is accepted once, and only a served connection that is still open ends. */
  predicate Enabled(s: Listener, e: Event) {
    match e
    case Accepted(id) => id !in s.served && id !in s.closed
    case AcceptFailed => true
    case Ended(id) => id in s.live
  }

  function Step(s: Listener, e: Event): Listener {
    match e
    case Accepted(id) =>
      if s.permits == 0 then s.(closed := s.closed + [id])
      else s.(permits := s.permits - 1, live := s.live + {id}, served := s.served + [id])
    case AcceptFailed => s.(pauses := s.pauses + 1)
    case Ended(id) => s.(permits := s.permits + 1, live := s.live - {id})
  }

  function After(s: Listener, events: seq<Event>): Listener {
    if events == [] then s else Step(After(s, events[..|events| - 1]), events[|events| - 1])
  }

  /** An interleaving that can happen. */
  predicate Possible(s: Listener, events: seq<Event>) {
    events == []
    || (Possible(s, events[..|events| - 1]) && Enabled(After(s, events[..|events| - 1]), events[|events| - 1]))
  }

  // ----- the loop

  class Server {
    var permits: nat
    var live: set<nat>
    var served: seq<nat>
    var closed: seq<nat>
    var pauses: nat

    function Model(): Listener
      reads this
    {
      Listener(permits, live, served, closed, pauses)
    }

    constructor (cap: nat)
      ensures Model() == Start(cap)
    {
      permits := cap;
      live := {};
      served := [];
      closed := [];
      pauses := 0;
    }

    method TryAcquire() returns (ok: bool)
      modifies this`permits
      ensures ok <==> old(permits) > 0
      ensures permits == if ok then old(permits) - 1 else old(permits)
    {
      ok := permits > 0;
      if ok {
        permits := permits - 1;
      }
    }

    /** One turn of the loop, or the end of one spawned connection. */
    method Handle(e: Event)
      modifies this
      ensures Model() == Step(old(Model()), e)
    {
      match e
      case AcceptFailed => pauses := pauses + 1;
      case Accepted(id) =>
        var permit := TryAcquire();
        if !permit {
          closed := closed + [id];
        } else {
          served := served + [id];
          live := live + {id};
        }
      case Ended(id) =>
        live := live - {id};
        permits := permits + 1;
    }

    method Run(events: seq<Event>)
      modifies this
      ensures Model() == After(old(Model()), events)
    {
      for i := 0 to |events|
        invariant Model() == After(old(Model()), events[..i])
      {
        Handle(events[i]);
        assert events[..i + 1][..i] == events[..i];
      }
      assert events[..|events|] == events;
    }
  }

  // ----- every interleaving

  predicate Distinct(ids: seq<nat>) {
    forall i, j :: 0 <= i < j < |ids| ==> ids[i] != ids[j]
  }

  /** Permits are conserved, and no connection is served twice, closed twice, or both. */
  predicate Sound(s: Listener, cap: nat) {
    && s.permits + |s.live| == cap
    && (forall id <- s.live :: id in s.served)
    && Distinct(s.served) && Distinct(s.closed)
    && (forall id <- s.served :: id !in s.closed)
  }

  /** What one event keeps, and what it does when the cap is reached. */
  lemma {:induction false} StepSound(s: Listener, e: Event, cap: nat)
    requires Sound(s, cap) && Enabled(s, e)
    ensures Sound(Step(s, e), cap)
  {
    if e.Accepted? {
      assert forall id <- s.served + [e.id] :: id in s.served || id == e.id;
      assert forall id <- s.closed + [e.id] :: id in s.closed || id == e.id;
    }
  }

  lemma {:induction false} AlwaysSound(cap: nat, events: seq<Event>)
    requires Possible(Start(cap), events)
    ensures Sound(After(Start(cap), events), cap)
  {
    if events != [] {
      AlwaysSound(cap, events[..|events| - 1]);
      StepSound(After(Start(cap), events[..|events| - 1]), events[|events| - 1], cap);
    }
  }

  /** Every accepted connection. */
  function AcceptedIds(events: seq<Event>): set<nat> {
    if events == [] then {}
    else
      var rest, e := AcceptedIds(events[..|events| - 1]), events[|events| - 1];
      if e.Accepted? then rest + {e.id} else rest
  }

  function EndedIds(events: seq<Event>): set<nat> {
    if events == [] then {}
    else
      var rest, e := EndedIds(events[..|events| - 1]), events[|events| - 1];
      if e.Ended? then rest + {e.id} else rest
  }

  /** How many accepts failed. */
  function Failures(events: seq<Event>): nat {
    if events == [] then 0
    else Failures(events[..|events| - 1]) + (if events[|events| - 1].AcceptFailed? then 1 else 0)
  }

  lemma {:induction false} PausesCounted(cap: nat, events: seq<Event>)
    ensures After(Start(cap), events).pauses == Failures(events)
  {
    if events != [] {
      PausesCounted(cap, events[..|events| - 1]);
    }
  }

  function Ids(s: seq<nat>): set<nat> {
    set id | id in s
  }

  lemma {:induction false} IdsMore(s: seq<nat>, id: nat)
    ensures Ids(s + [id]) == Ids(s) + {id}
  {}

  predicate Tally(served: set<nat>, closed: set<nat>, live: set<nat>, accepted: set<nat>, ended: set<nat>) {
    served + closed == accepted && live == served - ended && ended <= served
  }

  /** Every connection accounted for, from the events alone. */
  predicate Accounts(s: Listener, events: seq<Event>) {
    Tally(Ids(s.served), Ids(s.closed), s.live, AcceptedIds(events), EndedIds(events))
  }

  lemma {:induction false} TallyMore(served: set<nat>, closed: set<nat>, live: set<nat>, accepted: set<nat>,
        ended: set<nat>, id: nat)
    requires Tally(served, closed, live, accepted, ended)
    ensures id !in ended ==> Tally(served + {id}, closed, live + {id}, accepted + {id}, ended)
    ensures Tally(served, closed + {id}, live, accepted + {id}, ended)
    ensures id in live ==> Tally(served, closed, live - {id}, accepted, ended + {id})
  {}

  lemma {:induction false} StepAccounts(s: Listener, events: seq<Event>, cap: nat)
    requires events != []
    requires Sound(s, cap) && Accounts(s, events[..|events| - 1]) && Enabled(s, events[|events| - 1])
    ensures Accounts(Step(s, events[|events| - 1]), events)
  {
    var before, e := events[..|events| - 1], events[|events| - 1];
    var served, closed := Ids(s.served), Ids(s.closed);
    if e.Accepted? {
      IdsMore(s.served, e.id);
      IdsMore(s.closed, e.id);
      assert e.id !in served;
    }
    if !e.AcceptFailed? {
      TallyMore(served, closed, s.live, AcceptedIds(before), EndedIds(before), e.id);
    }
  }

  /** The connections still holding a permit are those that were served and have not ended. */
  lemma {:induction false} Accounted(cap: nat, events: seq<Event>)
    requires Possible(Start(cap), events)
    ensures Accounts(After(Start(cap), events), events)
  {
    if events != [] {
      var before := events[..|events| - 1];
      Accounted(cap, before);
      AlwaysSound(cap, before);
      StepAccounts(After(Start(cap), before), events, cap);
    }
  }

  /** Who is served, told without permits: whoever finds fewer than `cap` served connections still open. */
  function Admitted(cap: nat, events: seq<Event>): set<nat> {
    if events == [] then {}
    else
      var before, e := events[..|events| - 1], events[|events| - 1];
      var admitted := Admitted(cap, before);
      if e.Accepted? && |admitted - EndedIds(before)| < cap then admitted + {e.id} else admitted
  }

  lemma {:induction false} ServedAreAdmitted(cap: nat, events: seq<Event>)
    requires Possible(Start(cap), events)
    ensures Ids(After(Start(cap), events).served) == Admitted(cap, events)
  {
    if events != [] {
      var before, e := events[..|events| - 1], events[|events| - 1];
      ServedAreAdmitted(cap, before);
      AlwaysSound(cap, before);
      Accounted(cap, before);
      if e.Accepted? {
        IdsMore(After(Start(cap), before).served, e.id);
      }
    }
  }

  /**
   In every interleaving of accepts, accept errors and endings: permits and open connections
   add up to the cap; the served connections are those that found fewer than `cap` others
   open; every other accepted connection is closed; none meets both fates or one twice; and
   the loop has paused once for every accept that failed.
   */
  lemma {:induction false} ServedIffBelowCap(cap: nat, events: seq<Event>)
    requires Possible(Start(cap), events)
    ensures var s := After(Start(cap), events);
      && s.permits + |Admitted(cap, events) - EndedIds(events)| == cap
      && s.live == Admitted(cap, events) - EndedIds(events)
      && Ids(s.served) == Admitted(cap, events)
      && Ids(s.closed) == AcceptedIds(events) - Admitted(cap, events)
      && Distinct(s.served) && Distinct(s.closed)
      && s.pauses == Failures(events)
  {
    PausesCounted(cap, events);
    AlwaysSound(cap, events);
    Accounted(cap, events);
    ServedAreAdmitted(cap, events);
  }
}
