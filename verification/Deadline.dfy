/**
 One absolute deadline across creation and iteration (app/services/async_chat_service.py), as a clock around the
 generator stack. Every move carries the time at which it happens; armed timers turn late signals into cancellations.
 */
module Deadline {
  import opened Wrappers
  import StreamMapper
  import opened GeneratorStack

  /** `_remaining`: None is the TimeoutError. */
  function Remaining(deadlineAt: real, now: real): Option<real> {
    if deadlineAt - now <= 0.0 then None else Some(deadlineAt - now)
  }

  /** asyncio.timeout(seconds) entered at `now` fires at this instant. */
  function FiresAt(now: real, seconds: real): real {
    now + seconds
  }

  /**
   run_stream_async, run_native_stream_async: the request arrives at `start`, the upstream call is made at `called`
   and answers at `answered`; the result is the absolute deadline handed to the wrapper.
   */
  function CreateStream(start: real, limit: real, called: real, answered: real): Option<real> {
    var deadlineAt := start + limit;
    match Remaining(deadlineAt, called)
    case None => None
    case Some(left) => if answered >= FiresAt(called, left) then None else Some(deadlineAt)
  }

  /** Creation succeeds only before start + limit, however late the call was made, and hands on that same instant. */
  lemma CreationBounded(start: real, limit: real, called: real, answered: real)
    requires start <= called <= answered
    ensures CreateStream(start, limit, called, answered) ==
            if answered < start + limit then Some(start + limit) else None
  {
  }

  /** What the wrapper holds on the native path: the upstream stream itself. */
  class Stream {
    const closeError: Option<Exc>
    var closeCalls: nat

    constructor (closeError: Option<Exc>)
      ensures this.closeError == closeError && closeCalls == 0
    {
      this.closeError, closeCalls := closeError, 0;
    }

    /** The result is what closing raises. */
    method Close() returns (raised: Option<Exc>)
      modifies this`closeCalls
      ensures raised == closeError && closeCalls == old(closeCalls) + 1
    {
      closeCalls := closeCalls + 1;
      raised := closeError;
    }
  }

  class DeadlineAsyncIterable {
    const deadlineAt: real
    const stream: Stream
    var closed: bool

    constructor (stream: Stream, deadlineAt: real)
      ensures this.deadlineAt == deadlineAt && this.stream == stream && !closed
    {
      this.deadlineAt, this.stream, closed := deadlineAt, stream, false;
    }

    /** The stack `s` with this wrapper's latch and stream in it. */
    ghost function In(s: Stack): Stack
      reads this, stream
    {
      s.(latch := closed, closes := stream.closeCalls)
    }

    /** Closes the wrapped stream on the first call only: what the stack calls CloseWrapper. */
    method Aclose(ghost s: Stack) returns (raised: Option<Exc>)
      requires s.path == Native && s.closeError == stream.closeError
      modifies this`closed, stream`closeCalls
      ensures closed && stream.closeCalls == old(stream.closeCalls) + if old(closed) then 0 else 1
      ensures (In(s), raised) == CloseWrapper(old(In(s)))
    {
      if closed {
        return None;
      }
      closed := true;
      raised := stream.Close();
    }

    /** The start of `_iterate`: the time left, or the error with which it ends. It is the stack's first pull. */
    method Begin(now: real, ghost s: Stack) returns (left: Option<real>, error: Option<Exc>)
      requires s.path == Native && s.closeError == stream.closeError
      modifies this`closed, stream`closeCalls
      ensures left == Remaining(deadlineAt, now) && (left.Some? <==> error == None)
      ensures var begun := s.(guard := Waiting, iter := Running, inner := Running);
              Start(old(In(s)), left == None) ==
              if left == None then AfterIteration(In(begun).(iter := Finished), error) else In(begun)
    {
      left, error := Some(deadlineAt - now), None;
      if deadlineAt - now <= 0.0 {
        var raised := Aclose(s.(guard := Waiting, iter := Running, inner := Running));
        left, error := None, Escaping(raised, Some(DeadlineError));
      }
    }
  }

  // ----- the clock around the stack -----

  datatype Move = Demand | Arrive(signal: Signal) | Leave

  datatype Clocked = Clocked(
    stack: Stack,
    deadlineAt: real,
    guardLimit: real,
    guardFires: real,     // meaningful once the guard has started
    wrapperFires: real)   // meaningful once the wrapper's iteration has started

  /** A signal at `now`, unless one of the two timers has fired before it. */
  function Delivered(c: Clocked, now: real, signal: Signal): Signal {
    if now < c.wrapperFires && now < c.guardFires then signal
    else Raise(Cancelled(if c.wrapperFires <= c.guardFires then WrapperTimer else GuardTimer))
  }

  /**
   A timer has fired while the generators are suspended at a chunk. It cancels the task that entered it, which is the
   consumer's own: the guard will not be pulled again, only closed. The wrapper's timer is off once its iteration ended.
   */
  predicate FiredAtChunk(c: Clocked, now: real) {
    c.stack.guard == AtChunk && (c.guardFires <= now || (!c.stack.nativeDone && c.wrapperFires <= now))
  }

  /** The action of the untimed stack that a move at `now` amounts to. */
  function ActionOf(c: Clocked, now: real, m: Move): Action {
    match m
    case Demand => if FiredAtChunk(c, now) then Close else Pull(Remaining(c.deadlineAt, now) == None)
    case Arrive(signal) => Upstream(Delivered(c, now, signal))
    case Leave => Close
  }

  function Tick(c: Clocked, now: real, m: Move): Clocked {
    var stack := Next(c.stack, ActionOf(c, now, m));
    if c.stack.guard == Fresh && m == Demand then
      var left := Remaining(c.deadlineAt, now);
      c.(stack := stack, guardFires := FiresAt(now, c.guardLimit),
         wrapperFires := FiresAt(now, if left.Some? then left.value else 0.0))
    else c.(stack := stack)
  }

  function Timed(c: Clocked, trace: seq<(real, Move)>): Clocked {
    if trace == [] then c
    else
      var (now, m) := trace[|trace| - 1];
      Tick(Timed(c, trace[..|trace| - 1]), now, m)
  }

  function Untimed(c: Clocked, trace: seq<(real, Move)>): seq<Action> {
    if trace == [] then []
    else
      var before := trace[..|trace| - 1];
      var (now, m) := trace[|trace| - 1];
      Untimed(c, before) + [ActionOf(Timed(c, before), now, m)]
  }

  /** Every timed run is a run of the untimed stack, so what holds of all its runs holds here. */
  lemma {:induction false} TimedRefinesUntimed(c: Clocked, trace: seq<(real, Move)>)
    ensures Timed(c, trace).stack == After(c.stack, Untimed(c, trace))
  {
    if trace != [] {
      var before, actions := trace[..|trace| - 1], Untimed(c, trace);
      TimedRefinesUntimed(c, before);
      assert actions[..|actions| - 1] == Untimed(c, before);
    }
  }

  predicate Since(start: real, trace: seq<(real, Move)>) {
    forall i | 0 <= i < |trace| :: start <= trace[i].0
  }

  /** While the upstream is being read the wrapper's timer is set to the deadline, and the guard's to no earlier. */
  predicate Armed(c: Clocked) {
    c.stack.guard in {Waiting, AtChunk} ==> c.wrapperFires == c.deadlineAt && c.deadlineAt <= c.guardFires
  }

  function Request(path: Path, cfg: StreamMapper.Config, closeError: Option<Exc>, deadlineAt: real, limit: real)
    : Clocked
  {
    Clocked(Created(path, cfg, closeError), deadlineAt, limit, 0.0, 0.0)
  }

  lemma TickArmed(c: Clocked, start: real, now: real, m: Move)
    requires Armed(c) && start <= now && c.deadlineAt <= start + c.guardLimit
    ensures Armed(Tick(c, now, m))
  {
    var s, a := c.stack, ActionOf(c, now, m);
    if Next(s, a).guard in {Waiting, AtChunk} && s.guard !in {Waiting, AtChunk} {
      ReadingStarts(s, a);
    }
  }

  lemma ReadingStarts(s: Stack, a: Action)
    requires Next(s, a).guard in {Waiting, AtChunk} && s.guard !in {Waiting, AtChunk}
    ensures s.guard == Fresh && a == Pull(false)
  {
  }

  lemma {:induction false} AlwaysArmed(c: Clocked, start: real, trace: seq<(real, Move)>)
    requires c.stack.guard == Fresh && c.deadlineAt <= start + c.guardLimit && Since(start, trace)
    ensures var t := Timed(c, trace);
            Armed(t) && t.deadlineAt == c.deadlineAt && t.guardLimit == c.guardLimit
  {
    if trace != [] {
      var before := trace[..|trace| - 1];
      AlwaysArmed(c, start, before);
      TickArmed(Timed(c, before), start, trace[|trace| - 1].0, trace[|trace| - 1].1);
    }
  }

  /**
   For every clock trace of a request that arrived at `start`, with a guard limit no shorter than the service's:
   a pull of a guard at a chunk, and what the upstream delivers, get through iff they come before start + limit. A later
   signal is the wrapper's cancellation, never the guard's; a later pull finds the guard closed. A first pull starts the
   upstream iteration iff it comes before that instant.
   */
  lemma OneDeadline(path: Path, cfg: StreamMapper.Config, closeError: Option<Exc>,
                    start: real, limit: real, guardLimit: real, trace: seq<(real, Move)>, now: real, m: Move)
    requires limit <= guardLimit && Since(start, trace) && start <= now
    ensures var c := Timed(Request(path, cfg, closeError, start + limit, guardLimit), trace);
            var a := ActionOf(c, now, m);
            && (m.Arrive? && c.stack.guard == Waiting ==>
                  a == Upstream(if now < start + limit then m.signal else Raise(Cancelled(WrapperTimer))))
            && (m == Demand && c.stack.guard == AtChunk && !c.stack.nativeDone ==>
                  a == if now < start + limit then Pull(false) else Close)
            && (m == Demand && c.stack.guard == Fresh ==> a == Pull(now >= start + limit))
  {
    AlwaysArmed(Request(path, cfg, closeError, start + limit, guardLimit), start, trace);
  }

  // ----- nothing is read or forwarded after the deadline -----

  predicate Guards(f: Frame) {
    f.ErrorFrame? || f == DoneFrame
  }

  /** `s'` has read nothing more than `s`, and its consumer received at most the guard's own frames. */
  predicate Silent(s: Stack, s': Stack) {
    && s'.read == s.read && s'.received == s.received && s'.mapper == s.mapper
    && s.frames <= s'.frames
    && forall i | |s.frames| <= i < |s'.frames| :: Guards(s'.frames[i])
  }

  lemma SilentTrans(a: Stack, b: Stack, c: Stack)
    requires Silent(a, b) && Silent(b, c)
    ensures Silent(a, c)
  {
    forall i | |a.frames| <= i < |c.frames| ensures Guards(c.frames[i]) {
      if i < |b.frames| { assert c.frames[i] == b.frames[i]; }
    }
  }

  lemma CatchSilent(s: Stack, exc: Exc)
    ensures Silent(s, GuardCatch(s, exc))
  {
  }

  lemma AfterIterationSilent(s: Stack, exc: Option<Exc>)
    ensures Silent(s, AfterIteration(s, exc))
  {
    if s.path == Native && exc != None {
      var (s', err) := CloseNative(s);
      assert Silent(s, s');
      CatchSilent(s', Escaping(err, exc).value);
      SilentTrans(s, s', AfterIteration(s, exc));
    } else if exc != None {
      CatchSilent(s, exc.value);
    }
  }

  lemma IterationExitSilent(s: Stack, exc: Option<Exc>)
    ensures Silent(s, IterationExit(s, exc))
  {
    var seen := if exc == Some(Cancelled(WrapperTimer)) then Some(DeadlineError) else exc;
    var (s', err) := CloseWrapper(s.(iter := Finished));
    assert Silent(s, s');
    AfterIterationSilent(s', Escaping(err, seen));
    hide AfterIteration, Silent;
    SilentTrans(s, s', IterationExit(s, exc));
  }

  lemma RaiseSilent(s: Stack, exc: Exc)
    ensures Silent(s, Deliver(s, Raise(exc)))
  {
    if s.path == Responses {
      var (s', err) := MapperFinally(s);
      assert Silent(s, s');
      IterationExitSilent(s', Escaping(err, Some(exc)));
      hide IterationExit, Silent;
      SilentTrans(s, s', Deliver(s, Raise(exc)));
    } else {
      IterationExitSilent(s, Some(exc));
    }
  }

  lemma LateStartSilent(s: Stack)
    ensures Silent(s, Start(s, true))
  {
    var begun := s.(guard := Waiting, iter := Running, inner := if s.path == Native then Running else Unstarted);
    var (s', err) := CloseWrapper(begun);
    assert Silent(s, s'.(iter := Finished));
    AfterIterationSilent(s'.(iter := Finished), Escaping(err, Some(DeadlineError)));
    hide AfterIteration, Silent;
    SilentTrans(s, s'.(iter := Finished), Start(s, true));
  }

  lemma CloseSilent(s: Stack)
    ensures Silent(s, Next(s, Close))
  {
  }

  /** A move at or after the deadline. */
  lemma LateTickSilent(c: Clocked, now: real, m: Move)
    requires Armed(c) && c.deadlineAt <= now
    requires c.stack.guard == AtChunk && c.stack.nativeDone ==> c.stack.path == Native
    ensures Silent(c.stack, Tick(c, now, m).stack)
  {
    var s, a := c.stack, ActionOf(c, now, m);
    match m
    case Leave => CloseSilent(s);
    case Arrive(_) => if s.guard == Waiting { RaiseSilent(s, a.signal.exc); }
    case Demand =>
      if s.guard == Fresh {
        LateStartSilent(s);
      } else if s.guard == AtChunk && !s.nativeDone {
        CloseSilent(s);
      } else if FiredAtChunk(c, now) {
        CloseSilent(s);
      }
  }

  /**
   Over every run: whatever happens from start + limit on, the upstream is read no further and the consumer receives no
   more of its data, only the guard's own error frame and [DONE].
   */
  lemma {:induction false} NothingAfterDeadline(path: Path, cfg: StreamMapper.Config, closeError: Option<Exc>,
                                                start: real, limit: real, guardLimit: real,
                                                trace: seq<(real, Move)>, later: seq<(real, Move)>)
    requires 0.0 <= limit <= guardLimit && Since(start, trace) && Since(start + limit, later)
    ensures var c := Request(path, cfg, closeError, start + limit, guardLimit);
            Silent(Timed(c, trace).stack, Timed(c, trace + later).stack)
    decreases |later|
  {
    var c := Request(path, cfg, closeError, start + limit, guardLimit);
    if later == [] {
      assert trace + later == trace;
    } else {
      var n := |later| - 1;
      var (now, m) := later[n];
      var before := trace + later[..n];
      assert trace + later == before + [later[n]];
      NothingAfterDeadline(path, cfg, closeError, start, limit, guardLimit, trace, later[..n]);
      AlwaysArmed(c, start, before);
      NativeDoneOnNative(c, path, cfg, closeError, before);
      TimedSnoc(c, before, now, m);
      hide Silent, Armed, Tick, Timed;
      LateTickSilent(Timed(c, before), now, m);
      SilentTrans(Timed(c, trace).stack, Timed(c, before).stack, Timed(c, trace + later).stack);
    }
  }

  lemma TimedSnoc(c: Clocked, before: seq<(real, Move)>, now: real, m: Move)
    ensures Timed(c, before + [(now, m)]) == Tick(Timed(c, before), now, m)
  {
    assert (before + [(now, m)])[..|before|] == before;
    hide Tick;
  }

  lemma NativeDoneOnNative(c: Clocked, path: Path, cfg: StreamMapper.Config, closeError: Option<Exc>,
                           trace: seq<(real, Move)>)
    requires c.stack == Created(path, cfg, closeError)
    ensures var s := Timed(c, trace).stack; s.guard == AtChunk && s.nativeDone ==> s.path == Native
  {
    TimedRefinesUntimed(c, trace);
    AlwaysAccounted(path, cfg, closeError, Untimed(c, trace));
  }

  // ----- what the consumer is told -----

  /** A failure of closing the upstream that the guard reports as a timeout all the same. */
  predicate ReportsTimeout(path: Path, exc: Exc) {
    exc in {ApiTimeout, DeadlineError, Cancelled(GuardTimer)} || (path == Responses && exc == Cancelled(WrapperTimer))
  }

  /**
   The deadline passes during a pull, or before the first one: no event is read, and the consumer gets a timeout error
   unless closing the upstream, which a late first pull on the Responses path does not do, raises something else.
   */
  lemma {:induction false} DeadlineReported(path: Path, cfg: StreamMapper.Config, closeError: Option<Exc>,
                                            actions: seq<Action>, a: Action)
    requires var s := After(Created(path, cfg, closeError), actions);
             (s.guard == Waiting && a == Upstream(Raise(Cancelled(WrapperTimer)))) ||
             (s.guard == Fresh && a == Pull(true))
    ensures var s := After(Created(path, cfg, closeError), actions);
            && Next(s, a).read == s.read
            && (Next(s, a).guard == AtError && Next(s, a).frames == s.frames + [ErrorFrame("upstream_timeout")] <==>
                || (path == Responses && s.guard == Fresh)
                || closeError == None
                || ReportsTimeout(path, closeError.value))
  {
    var s := After(Created(path, cfg, closeError), actions);
    AlwaysAccounted(path, cfg, closeError, actions);
    hide After;
    if s.guard == Fresh { LateStartReported(s); } else { ExpiryReported(s); }
  }

  predicate SaysTimeout(s: Stack, s': Stack) {
    s'.guard == AtError && s'.frames == s.frames + [ErrorFrame("upstream_timeout")]
  }

  lemma CatchSaysTimeout(s: Stack, exc: Exc)
    ensures SaysTimeout(s, GuardCatch(s, exc)) <==> exc in {ApiTimeout, DeadlineError, Cancelled(GuardTimer)}
    ensures GuardCatch(s, exc).read == s.read
  {
    assert ErrorCode(exc) == "upstream_timeout" <==> exc in {ApiTimeout, DeadlineError};
    assert s.frames + [ErrorFrame(ErrorCode(exc))] == s.frames + [ErrorFrame("upstream_timeout")] ==>
        (s.frames + [ErrorFrame(ErrorCode(exc))])[|s.frames|] == ErrorFrame("upstream_timeout");
  }

  lemma LateStartReported(s: Stack)
    requires s.guard == Fresh && s.inner == Unstarted && !s.latch
    ensures Start(s, true).read == s.read
    ensures SaysTimeout(s, Start(s, true)) <==>
            s.path == Responses || s.closeError == None || ReportsTimeout(Native, s.closeError.value)
  {
    CatchSaysTimeout(s, DeadlineError);
    if s.closeError.Some? { CatchSaysTimeout(s, s.closeError.value); }
  }

  lemma ExpiryReported(s: Stack)
    requires s.guard == Waiting && s.inner == Running && !s.latch
    ensures var s' := Next(s, Upstream(Raise(Cancelled(WrapperTimer))));
            && s'.read == s.read
            && (SaysTimeout(s, s') <==> s.closeError == None || ReportsTimeout(s.path, s.closeError.value))
  {
    if s.path == Responses {
      MapperExpiry(s);
    } else {
      NativeExpiry(s);
    }
  }

  /** The upstream is closed inside the wrapper's timeout block, which turns its own cancellation into an error. */
  lemma MapperExpiry(s: Stack)
    requires s.path == Responses && s.inner == Running && !s.latch
    ensures var s' := MapperExit(s, Some(Cancelled(WrapperTimer)));
            && s'.read == s.read
            && (SaysTimeout(s, s') <==> s.closeError == None || ReportsTimeout(s.path, s.closeError.value))
  {
    var raised := Escaping(s.closeError, Some(Cancelled(WrapperTimer))).value;
    var seen := if raised == Cancelled(WrapperTimer) then DeadlineError else raised;
    var (closed, err) := CloseWrapper(MapperFinally(s).0.(iter := Finished));
    assert MapperExit(s, Some(Cancelled(WrapperTimer))) == GuardCatch(closed, seen);
    CatchSaysTimeout(closed, seen);
    hide GuardCatch;
  }

  /** The wrapper closes the upstream outside its timeout block. */
  lemma NativeExpiry(s: Stack)
    requires s.path == Native && s.inner == Running && !s.latch
    ensures var s' := IterationExit(s, Some(Cancelled(WrapperTimer)));
            && s'.read == s.read
            && (SaysTimeout(s, s') <==> s.closeError == None || ReportsTimeout(s.path, s.closeError.value))
  {
    var raised := Escaping(s.closeError, Some(DeadlineError)).value;
    var (closed, err) := CloseWrapper(s.(iter := Finished));
    var (ended, none) := CloseNative(closed);
    assert IterationExit(s, Some(Cancelled(WrapperTimer))) == GuardCatch(ended, raised);
    CatchSaysTimeout(ended, raised);
    hide GuardCatch;
  }
}
