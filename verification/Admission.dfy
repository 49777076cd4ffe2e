/** Admission control over any number of concurrent requests (app/api/chat_completions.py). */
module Admission {
  import opened Wrappers
  import StreamMapper
  import opened GeneratorStack

  // ----- the limiter -----

  function Acquired(active: nat, capacity: nat): (bool, nat) {
    if active >= capacity then (false, active) else (true, active + 1)
  }

  function Released(active: nat): nat {
    if active > 0 then active - 1 else active
  }

  class InflightLimiter {
    const capacity: nat
    var active: nat

    constructor (capacity: nat)
      ensures this.capacity == capacity && active == 0
    {
      this.capacity, active := capacity, 0;
    }

    method TryAcquire() returns (ok: bool)
      modifies this`active
      ensures ok <==> old(active) < capacity
      ensures active == old(active) + (if ok then 1 else 0)
      ensures (ok, active) == Acquired(old(active), capacity)
    {
      if active >= capacity {
        return false;
      }
      active := active + 1;
      return true;
    }

    method Release()
      modifies this`active
      ensures active == if old(active) == 0 then 0 else old(active) - 1
      ensures active == Released(old(active))
    {
      if active > 0 {
        active := active - 1;
      }
    }
  }

  // ----- requests -----

  /** InHandler: admitted, handler running; Streaming: slot handed to a guard; Served: handler released the slot. */
  datatype Request = InHandler | Streaming(created: Stack, actions: seq<Action>) | Served

  datatype System = System(capacity: nat, active: nat, requests: seq<Request>)

  datatype Event =
    | Arrive                                                    // a request reaches try_acquire
    | Finish(i: nat)                                            // answer, error or cancellation: the handler's finally
    | HandOffSync(i: nat)                                       // legacy sync service: released at hand-off
    | HandOff(i: nat, path: Path, cfg: StreamMapper.Config, closeError: Option<Exc>)
    | Drive(i: nat, action: Action)                             // the consumer or the upstream moves a stream

  function StackOf(r: Request): Stack
    requires r.Streaming?
  {
    After(r.created, r.actions)
  }

  predicate Applies(sys: System, ev: Event) {
    match ev
    case Arrive => true
    case Drive(i, _) => i < |sys.requests| && sys.requests[i].Streaming?
    case _ => ev.i < |sys.requests| && sys.requests[ev.i] == InHandler
  }

  /** The guard's finally block ran to its release in this step. */
  predicate Releases(sys: System, ev: Event)
    requires Applies(sys, ev)
  {
    match ev
    case Arrive => false
    case HandOff(_, _, _, _) => false
    case Drive(i, a) => Next(StackOf(sys.requests[i]), a).releases > StackOf(sys.requests[i]).releases
    case _ => true
  }

  /** Events that do not apply change nothing. */
  function Take(sys: System, ev: Event): System {
    if !Applies(sys, ev) then sys
    else if ev == Arrive then
      var (ok, active) := Acquired(sys.active, sys.capacity);
      sys.(active := active, requests := if ok then sys.requests + [InHandler] else sys.requests)
    else
      var r := sys.requests[ev.i];
      var r' := match ev
                case HandOff(_, path, cfg, closeError) => Streaming(Created(path, cfg, closeError), [])
                case Drive(_, a) => Streaming(r.created, r.actions + [a])
                case _ => Served;
      sys.(active := if Releases(sys, ev) then Released(sys.active) else sys.active,
           requests := sys.requests[ev.i := r'])
  }

  function Run(capacity: nat, events: seq<Event>): System {
    if events == [] then System(capacity, 0, [])
    else Take(Run(capacity, events[..|events| - 1]), events[|events| - 1])
  }

  // ----- conservation -----

  function Held(r: Request): nat {
    match r
    case InHandler => 1
    case Streaming(_, _) => if StackOf(r).releases == 0 then 1 else 0
    case Served => 0
  }

  function HeldBy(requests: seq<Request>): nat {
    if requests == [] then 0 else HeldBy(requests[..|requests| - 1]) + Held(requests[|requests| - 1])
  }

  lemma {:induction false} HeldAfterUpdate(requests: seq<Request>, i: nat, r: Request)
    requires i < |requests|
    ensures HeldBy(requests[i := r]) + Held(requests[i]) == HeldBy(requests) + Held(r)
    ensures Held(requests[i]) <= HeldBy(requests)
  {
    var n := |requests| - 1;
    if i < n {
      assert requests[i := r][..n] == requests[..n][i := r];
      HeldAfterUpdate(requests[..n], i, r);
    } else {
      assert requests[i := r][..n] == requests[..n];
    }
  }

  predicate Genuine(r: Request) {
    r.Streaming? ==> r.created == Created(r.created.path, r.created.cfg, r.created.closeError)
  }

  /** `active` counts the admitted requests that still hold their slot. */
  predicate Conserved(sys: System) {
    && sys.active == HeldBy(sys.requests)
    && sys.active <= sys.capacity
    && forall r | r in sys.requests :: Genuine(r)
  }

  lemma DriveReleases(r: Request, a: Action)
    requires r.Streaming? && Genuine(r)
    ensures var s, r' := StackOf(r), Streaming(r.created, r.actions + [a]);
            && Held(r') <= Held(r)
            && (Next(s, a).releases > s.releases <==> Held(r') < Held(r))
  {
    var actions := r.actions + [a];
    assert actions[..|actions| - 1] == r.actions;
    var c := r.created;
    AlwaysAccounted(c.path, c.cfg, c.closeError, r.actions);
    AlwaysAccounted(c.path, c.cfg, c.closeError, actions);
    NextReleases(StackOf(r), a, Started(c, r.actions), Late(c, r.actions), Abandoned(c, r.actions));
  }

  /** Once over, a guard changes no more. */
  lemma NextReleases(s: Stack, a: Action, started: bool, late: bool, abandoned: bool)
    requires Accounted(s, started, late, abandoned)
    ensures Next(s, a).releases >= s.releases
  {
    if s.guard != Over {
      NextAccounted(s, a, started, late, abandoned);
    }
  }

  lemma ArriveConserves(sys: System)
    requires Conserved(sys)
    ensures Conserved(Take(sys, Arrive)) && Take(sys, Arrive).capacity == sys.capacity
  {
    assert (sys.requests + [InHandler])[..|sys.requests|] == sys.requests;
  }

  /** Replacing one request by what it became, with a release exactly when it gave its slot back. */
  lemma ReplaceConserves(sys: System, i: nat, r': Request, released: bool)
    requires Conserved(sys) && i < |sys.requests| && Genuine(r')
    requires Held(r') == if released then 0 else Held(sys.requests[i])
    requires released ==> Held(sys.requests[i]) == 1
    ensures Conserved(sys.(active := if released then Released(sys.active) else sys.active,
                           requests := sys.requests[i := r']))
    ensures released ==> sys.active > 0
  {
    hide Held, HeldBy, Genuine;
    HeldAfterUpdate(sys.requests, i, r');
  }

  /** One event keeps the count right, and a release always finds a slot to give back. */
  lemma TakeConserves(sys: System, ev: Event)
    requires Conserved(sys)
    ensures Conserved(Take(sys, ev)) && Take(sys, ev).capacity == sys.capacity
    ensures Applies(sys, ev) && Releases(sys, ev) ==> sys.active > 0
  {
    hide HeldBy, Conserved, Next, After, Created;
    if ev == Arrive {
      ArriveConserves(sys);
    } else if Applies(sys, ev) {
      EventReplaces(sys, ev);
      ReplaceConserves(sys, ev.i, Take(sys, ev).requests[ev.i], Releases(sys, ev));
    }
  }

  lemma EventReplaces(sys: System, ev: Event)
    requires Conserved(sys) && Applies(sys, ev) && ev != Arrive
    ensures var r, r' := sys.requests[ev.i], Take(sys, ev).requests[ev.i];
            && Genuine(r') && Held(r') == (if Releases(sys, ev) then 0 else Held(r))
            && (Releases(sys, ev) ==> Held(r) == 1)
  {
    var r := sys.requests[ev.i];
    assert r in sys.requests;
    hide HeldBy, Conserved, Next;
    if ev.Drive? {
      hide After;
      DriveReleases(r, ev.action);
    }
  }

  /** Over every run the count is conserved and never exceeds the capacity. */
  lemma {:induction false} AlwaysConserved(capacity: nat, events: seq<Event>)
    ensures Conserved(Run(capacity, events)) && Run(capacity, events).capacity == capacity
  {
    if events != [] {
      AlwaysConserved(capacity, events[..|events| - 1]);
      TakeConserves(Run(capacity, events[..|events| - 1]), events[|events| - 1]);
    }
  }

  /** No run ever reaches a release with nothing to release: the limiter's zero test absorbs nothing. */
  lemma ReleaseNeverAbsorbed(capacity: nat, events: seq<Event>, ev: Event)
    requires Applies(Run(capacity, events), ev) && Releases(Run(capacity, events), ev)
    ensures Run(capacity, events).active > 0
    ensures Run(capacity, events + [ev]).active == Run(capacity, events).active - 1
  {
    AlwaysConserved(capacity, events);
    TakeConserves(Run(capacity, events), ev);
    assert (events + [ev])[..|events|] == events;
  }

  /** The request is over: answered, or its stream ended after having been started and closed without a close error. */
  predicate Settled(r: Request) {
    match r
    case InHandler => false
    case Served => true
    case Streaming(c, actions) =>
      StackOf(r).guard == Over && Started(c, actions) && !(c.closeError.Some? && Abandoned(c, actions))
  }

  /** A slot is given back exactly when its request is settled, so the count is 0 iff all requests are. */
  lemma SettledIffReleased(capacity: nat, events: seq<Event>)
    ensures var sys := Run(capacity, events);
            sys.active == 0 <==> forall r | r in sys.requests :: Settled(r)
  {
    AlwaysConserved(capacity, events);
    HeldByZero(Run(capacity, events).requests);
  }

  lemma {:induction false} HeldByZero(requests: seq<Request>)
    requires forall r | r in requests :: Genuine(r)
    ensures HeldBy(requests) == 0 <==> forall r | r in requests :: Settled(r)
  {
    if requests != [] {
      var before, r := requests[..|requests| - 1], requests[|requests| - 1];
      assert requests == before + [r];
      HeldByZero(before);
      HeldZero(r);
    }
  }

  lemma HeldZero(r: Request)
    requires Genuine(r)
    ensures Held(r) == 0 <==> Settled(r)
  {
    if r.Streaming? {
      ResourceSafety(r.created.path, r.created.cfg, r.created.closeError, r.actions);
    }
  }

  // ----- who is admitted, and what becomes of them -----

  /** The requests that are not over. */
  function Open(requests: seq<Request>): set<nat> {
    set i: nat | i < |requests| && !Settled(requests[i])
  }

  lemma {:induction false} HeldByOpen(requests: seq<Request>)
    requires forall r | r in requests :: Genuine(r)
    ensures HeldBy(requests) == |Open(requests)|
  {
    if requests != [] {
      var n := |requests| - 1;
      var before, r := requests[..n], requests[n];
      assert requests == before + [r];
      HeldByOpen(before);
      HeldZero(r);
      assert Held(r) <= 1 by { HeldOnce(r); }
      hide Settled, Held, Genuine;
      assert Open(requests) == Open(before) + if Settled(r) then {} else {n};
    }
  }

  lemma HeldOnce(r: Request)
    ensures Held(r) <= 1
  {
  }

  /** In every run the limiter counts the requests that are not over. */
  lemma {:induction false} ActiveIsOpen(capacity: nat, events: seq<Event>)
    ensures Run(capacity, events).active == |Open(Run(capacity, events).requests)| <= capacity
  {
    AlwaysConserved(capacity, events);
    HeldByOpen(Run(capacity, events).requests);
    hide Open, HeldBy, Run, Genuine;
  }

  /**
   After any run: a request that arrives is admitted iff fewer than `capacity` others are not over; a handler that is
   done, or has handed its answer to the synchronous service, is over; one that hands off its stream lives on as a new
   guard.
   */
  lemma {:induction false} Effects(capacity: nat, events: seq<Event>, ev: Event)
    ensures var requests, next := Run(capacity, events).requests, Run(capacity, events + [ev]).requests;
            match ev {
              case Arrive => next == requests + if |Open(requests)| < capacity then [InHandler] else []
              case HandOff(i, path, cfg, closeError) =>
                next == if i < |requests| && requests[i] == InHandler then
                          requests[i := Streaming(Created(path, cfg, closeError), [])]
                        else requests
              case Drive(i, a) =>
                next == if i < |requests| && requests[i].Streaming? then
                          requests[i := Streaming(requests[i].created, requests[i].actions + [a])]
                        else requests
              case _ =>
                next == if ev.i < |requests| && requests[ev.i] == InHandler then requests[ev.i := Served] else requests
            }
  {
    assert (events + [ev])[..|events|] == events;
    ActiveIsOpen(capacity, events);
    AlwaysConserved(capacity, events);
    hide Open, Next, Created, HeldBy, After;
    if ev == Arrive {
      var sys := Run(capacity, events);
      assert sys.requests + [] == sys.requests;
    }
  }

  /** A request that leaves its handler gives its slot back at once, and only a hand-off keeps it taken. */
  lemma {:induction false} SlotReturns(capacity: nat, events: seq<Event>, ev: Event)
    requires ev.Finish? || ev.HandOffSync? || ev.HandOff?
    requires ev.i < |Run(capacity, events).requests| && Run(capacity, events).requests[ev.i] == InHandler
    ensures Run(capacity, events + [ev]).active == Run(capacity, events).active - if ev.HandOff? then 0 else 1
  {
    var requests := Run(capacity, events).requests;
    var r' := if ev.HandOff? then Streaming(Created(ev.path, ev.cfg, ev.closeError), []) else Served;
    Effects(capacity, events, ev);
    ActiveIsOpen(capacity, events);
    ActiveIsOpen(capacity, events + [ev]);
    hide Run, Created, Next;
    assert Settled(r') <==> !ev.HandOff?;
    hide Settled, After;
    OpenAfterUpdate(requests, ev.i, r');
  }

  lemma OpenAfterUpdate(requests: seq<Request>, i: nat, r: Request)
    requires i < |requests| && !Settled(requests[i])
    ensures |Open(requests[i := r])| == |Open(requests)| - if Settled(r) then 1 else 0
  {
    hide Settled;
    assert i in Open(requests);
    assert Open(requests[i := r]) == if Settled(r) then Open(requests) - {i} else Open(requests);
  }
}
