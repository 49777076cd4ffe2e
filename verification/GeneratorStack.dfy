/**
 The stack of async generators behind one streamed answer: the guard of app/api/chat_completions.py over either
 the deadline wrapper and the mapper (Responses), or the native SSE generator and the deadline wrapper (Native).

 A generator that is not started runs none of its body when it is closed. Between two `Next` steps every live
 generator is suspended; a guard that is Waiting has a pull outstanding at the upstream stream.
 */
module GeneratorStack {
  import opened Wrappers
  import opened Values
  import opened StreamMapper

  datatype Path = Responses | Native

  datatype Canceller = WrapperTimer | GuardTimer | Outside

  datatype Exc = ApiTimeout | DeadlineError | ConnectionError | OtherError | Cancelled(canceller: Canceller)

  datatype Gen = Unstarted | Running | Finished

  /** AtChunk: suspended at a forwarded chunk; AtError, AtErrorDone: suspended at the guard's own two frames. */
  datatype Guard = Fresh | Waiting | AtChunk | AtError | AtErrorDone | Over

  datatype Frame = Mapped(chunk: Chunk) | NativeData(data: Value) | ErrorFrame(code: string) | DoneFrame

  datatype Stack = Stack(
    path: Path,
    cfg: Config,
    closeError: Option<Exc>,     // what closing the upstream stream raises, if anything
    guard: Guard,
    latch: bool,                 // _closed of the deadline wrapper
    iter: Gen,                   // the wrapper's _iterate generator
    inner: Gen,                  // mapper, or native SSE generator
    nativeDone: bool,            // the native generator is suspended at its [DONE]
    mapper: State,
    pending: seq<Chunk>,         // chunks the mapper has still to yield for the current event
    read: seq<Event>,            // events the mapper has consumed
    received: seq<Value>,        // data the native generator has forwarded
    closes: nat,                 // calls of the upstream stream's close
    releases: nat,               // releases of the admission slot
    frames: seq<Frame>)          // what the consumer received

  function Created(path: Path, cfg: Config, closeError: Option<Exc>): Stack {
    Stack(path, cfg, closeError, Fresh, false, Unstarted, Unstarted, false, INITIAL, [], [], [], 0, 0, [])
  }

  /** Fault: an item arrives, and the body of the mapper or of the native generator raises while handling it. */
  datatype Signal = Event(e: Event) | Chunk(data: Value) | End | Raise(exc: Exc) | Fault

  /** `expired` says whether the deadline has passed; the wrapper looks only when its iteration starts. */
  datatype Action = Pull(expired: bool) | Upstream(signal: Signal) | Close

  function FrameOf(c: StreamMapper.Chunk): Frame {
    if c == DoneChunk then DoneFrame else Mapped(c)
  }

  // ----- closing, layer by layer: the new state and the exception that escapes -----

  function CloseUpstream(s: Stack): (Stack, Option<Exc>) {
    (s.(closes := s.closes + 1), s.closeError)
  }

  /** The mapper's finally block. */
  function MapperFinally(s: Stack): (Stack, Option<Exc>) {
    CloseUpstream(s.(inner := Finished))
  }

  /** aclose() of the mapper */
  function CloseMapper(s: Stack): (Stack, Option<Exc>) {
    if s.inner == Running then MapperFinally(s) else (s.(inner := Finished), None)
  }

  /** aclose() of the deadline wrapper */
  function CloseWrapper(s: Stack): (Stack, Option<Exc>) {
    if s.latch then (s, None)
    else if s.path == Responses then CloseMapper(s.(latch := true))
    else CloseUpstream(s.(latch := true))
  }

  /** aclose() of the native SSE generator, whose finally block closes the wrapper */
  function CloseNative(s: Stack): (Stack, Option<Exc>) {
    if s.inner == Running then CloseWrapper(s.(inner := Finished)) else (s.(inner := Finished), None)
  }

  /** The guard's finally block: the slot is released after the stream is closed, unless closing raises. */
  function GuardFinally(s: Stack): Stack {
    var (s', err) := if s.path == Responses then CloseWrapper(s) else CloseNative(s);
    s'.(guard := Over, releases := if err == None then s'.releases + 1 else s'.releases)
  }

  // ----- leaving the layers by return (None) or by exception -----

  function Escaping(err: Option<Exc>, otherwise: Option<Exc>): Option<Exc> {
    if err.Some? then err else otherwise
  }

  function ErrorCode(exc: Exc): string {
    match exc
    case ApiTimeout => "upstream_timeout"
    case DeadlineError => "upstream_timeout"
    case ConnectionError => "upstream_connection_error"
    case _ => "gateway_stream_error"
  }

  /** The except clauses of the guard, after its own timeout block has turned its own cancellation into an error. */
  function GuardCatch(s: Stack, exc: Exc): Stack {
    var seen := if exc == Cancelled(GuardTimer) then DeadlineError else exc;
    if seen.Cancelled? then GuardFinally(s)
    else s.(guard := AtError, frames := s.frames + [ErrorFrame(ErrorCode(seen))])
  }

  /** What the guard, directly or through the native generator, makes of the end of the wrapper's iteration. */
  function AfterIteration(s: Stack, exc: Option<Exc>): Stack {
    if s.path == Responses then
      if exc == None then GuardFinally(s) else GuardCatch(s, exc.value)
    else if exc == None then
      s.(guard := AtChunk, nativeDone := true, frames := s.frames + [DoneFrame])
    else
      var (s', err) := CloseNative(s);
      GuardCatch(s', Escaping(err, exc).value)
  }

  /** The wrapper's iteration leaves its loop: timeout block, then finally. */
  function IterationExit(s: Stack, exc: Option<Exc>): Stack {
    var seen := if exc == Some(Cancelled(WrapperTimer)) then Some(DeadlineError) else exc;
    var (s', err) := CloseWrapper(s.(iter := Finished));
    AfterIteration(s', Escaping(err, seen))
  }

  /** The native generator's own body raises: its finally block closes the wrapper, whose iteration is suspended. */
  function NativeExit(s: Stack, exc: Exc): Stack {
    var (s', err) := CloseNative(s);
    GuardCatch(s', Escaping(err, Some(exc)).value)
  }

  /** The mapper leaves its loop: finally, then the wrapper sees the outcome. */
  function MapperExit(s: Stack, exc: Option<Exc>): Stack {
    var (s', err) := MapperFinally(s);
    IterationExit(s', Escaping(err, exc))
  }

  // ----- steps -----

  function YieldPending(s: Stack): Stack
    requires s.pending != []
  {
    s.(guard := AtChunk, frames := s.frames + [FrameOf(s.pending[0])], pending := s.pending[1..])
  }

  /** The first pull starts guard, native generator, wrapper iteration and, if the deadline allows, the mapper. */
  function Start(s: Stack, expired: bool): Stack {
    var begun := s.(guard := Waiting, iter := Running, inner := if s.path == Native then Running else Unstarted);
    if expired then
      var (s', err) := CloseWrapper(begun);
      AfterIteration(s'.(iter := Finished), Escaping(err, Some(DeadlineError)))
    else begun.(inner := Running)
  }

  function Resume(s: Stack): Stack {
    if s.path == Responses then
      if s.pending != [] then YieldPending(s)
      else if s.mapper.returned then MapperExit(s, None)
      else s.(guard := Waiting)
    else if s.nativeDone then GuardFinally(s)
    else s.(guard := Waiting)
  }

  function Deliver(s: Stack, signal: Signal): Stack {
    match signal
    case Event(e) =>
      if s.path == Native then s
      else
        var (mapper, chunks) := Step(s.cfg, s.mapper, e);
        var fed := s.(mapper := mapper, pending := chunks, read := s.read + [e]);
        if chunks == [] then fed else YieldPending(fed)
    case Chunk(data) =>
      if s.path == Responses then s
      else s.(guard := AtChunk, received := s.received + [data], frames := s.frames + [NativeData(data)])
    case End => if s.path == Responses then MapperExit(s, None) else IterationExit(s, None)
    case Raise(exc) => if s.path == Responses then MapperExit(s, Some(exc)) else IterationExit(s, Some(exc))
    case Fault => if s.path == Responses then MapperExit(s, Some(OtherError)) else NativeExit(s, OtherError)
  }

  /** Actions that do not apply to the current state change nothing. */
  function Next(s: Stack, a: Action): Stack {
    match a
    case Pull(expired) =>
      (match s.guard
       case Fresh => Start(s, expired)
       case AtChunk => Resume(s)
       case AtError => s.(guard := AtErrorDone, frames := s.frames + [DoneFrame])
       case AtErrorDone => GuardFinally(s)
       case _ => s)
    case Upstream(signal) => if s.guard == Waiting then Deliver(s, signal) else s
    case Close =>
      (match s.guard
       case Fresh => s.(guard := Over)
       case AtChunk => GuardFinally(s)
       case AtError => GuardFinally(s)
       case AtErrorDone => GuardFinally(s)
       case _ => s)
  }

  function After(s: Stack, actions: seq<Action>): Stack {
    if actions == [] then s else Next(After(s, actions[..|actions| - 1]), actions[|actions| - 1])
  }

  // ----- resources, in every reachable state -----

  /** The first pull came after the deadline. */
  function Late(s: Stack, actions: seq<Action>): bool {
    if actions == [] then false
    else
      var before := actions[..|actions| - 1];
      Late(s, before) || (After(s, before).guard == Fresh && actions[|actions| - 1] == Pull(true))
  }

  function Started(s: Stack, actions: seq<Action>): bool {
    if actions == [] then false
    else
      var before := actions[..|actions| - 1];
      Started(s, before) || (After(s, before).guard == Fresh && actions[|actions| - 1].Pull?)
  }

  /** The consumer closed the guard at a forwarded chunk while the upstream stream was still open. */
  function Abandoned(s: Stack, actions: seq<Action>): bool {
    if actions == [] then false
    else
      var before, a := actions[..|actions| - 1], actions[|actions| - 1];
      var now := After(s, before);
      Abandoned(s, before) || (a == Close && now.guard == AtChunk && now.closes == 0)
  }

  /** Where the two resources stand in each state of the guard. */
  predicate Accounted(s: Stack, started: bool, late: bool, abandoned: bool) {
    match s.guard
    case Fresh =>
      !started && !late && !abandoned && s.closes == 0 && s.releases == 0 && !s.latch && s.inner == Unstarted
      && !s.nativeDone
    case Waiting =>
      started && !late && !abandoned && s.closes == 0 && s.releases == 0 && !s.latch && s.inner == Running
      && !s.nativeDone
    case AtChunk =>
      && started && !late && !abandoned && s.releases == 0 && s.inner == Running
      && (s.path == Responses ==> !s.nativeDone)
      && (if s.nativeDone then s.latch && s.closes == 1 else !s.latch && s.closes == 0)
    case Over =>
      && (started ==> s.latch && s.inner == Finished)
      && s.closes == (if started && !(s.path == Responses && late) then 1 else 0)
      && s.releases == (if started && !(abandoned && s.closeError.Some?) then 1 else 0)
    case _ =>
      && started && !abandoned && s.releases == 0 && s.latch && s.inner == Finished
      && s.closes == (if s.path == Responses && late then 0 else 1)
  }

  predicate SameRequest(s: Stack, s': Stack) {
    s'.path == s.path && s'.closeError == s.closeError && s'.cfg == s.cfg
  }

  /** Leaving the wrapper's iteration with nothing closed yet closes everything below the guard. */
  lemma IterationExitAccounted(s: Stack, exc: Option<Exc>)
    requires s.closes == 0 && s.releases == 0 && !s.latch && !s.nativeDone
    requires s.path == Native && s.inner == Running
    ensures Accounted(IterationExit(s, exc), true, false, false) && SameRequest(s, IterationExit(s, exc))
  {
  }

  lemma MapperExitAccounted(s: Stack, exc: Option<Exc>)
    requires s.closes == 0 && s.releases == 0 && !s.latch && !s.nativeDone
    requires s.path == Responses && s.inner == Running
    ensures Accounted(MapperExit(s, exc), true, false, false) && SameRequest(s, MapperExit(s, exc))
  {
  }

  lemma NativeExitAccounted(s: Stack, exc: Exc)
    requires s.closes == 0 && s.releases == 0 && !s.latch && !s.nativeDone
    requires s.path == Native && s.inner == Running
    ensures Accounted(NativeExit(s, exc), true, false, false) && SameRequest(s, NativeExit(s, exc))
  {
  }

  lemma StartAccounted(s: Stack, expired: bool)
    requires Accounted(s, false, false, false) && s.guard == Fresh && !s.nativeDone
    ensures Accounted(Start(s, expired), true, expired, false) && SameRequest(s, Start(s, expired))
  {
  }

  lemma ResumeAccounted(s: Stack)
    requires Accounted(s, true, false, false) && s.guard == AtChunk
    ensures Accounted(Resume(s), true, false, false) && SameRequest(s, Resume(s))
  {
    if s.path == Responses && s.pending == [] && s.mapper.returned {
      MapperExitAccounted(s, None);
    }
  }

  lemma DeliverAccounted(s: Stack, signal: Signal)
    requires Accounted(s, true, false, false) && s.guard == Waiting
    ensures Accounted(Deliver(s, signal), true, false, false) && SameRequest(s, Deliver(s, signal))
  {
    if signal.End? || signal.Raise? {
      var exc := if signal.Raise? then Some(signal.exc) else None;
      if s.path == Responses { MapperExitAccounted(s, exc); } else { IterationExitAccounted(s, exc); }
    } else if signal.Fault? {
      if s.path == Responses { MapperExitAccounted(s, Some(OtherError)); } else { NativeExitAccounted(s, OtherError); }
    }
  }

  lemma FinallyAccounted(s: Stack, late: bool)
    requires Accounted(s, true, late, false) && s.guard !in {Fresh, Waiting, Over}
    ensures Accounted(GuardFinally(s), true, late, s.guard == AtChunk && s.closes == 0)
    ensures SameRequest(s, GuardFinally(s))
  {
  }

  lemma NextAccounted(s: Stack, a: Action, started: bool, late: bool, abandoned: bool)
    requires Accounted(s, started, late, abandoned)
    ensures Accounted(Next(s, a),
                      started || (s.guard == Fresh && a.Pull?),
                      late || (s.guard == Fresh && a == Pull(true)),
                      abandoned || (a == Close && s.guard == AtChunk && s.closes == 0))
    ensures SameRequest(s, Next(s, a))
  {
    match a
    case Pull(expired) =>
      match s.guard {
        case Fresh => StartAccounted(s, expired);
        case AtChunk => ResumeAccounted(s);
        case AtErrorDone => FinallyAccounted(s, late);
        case _ =>
      }
    case Upstream(signal) => if s.guard == Waiting { DeliverAccounted(s, signal); }
    case Close => if s.guard !in {Fresh, Waiting, Over} { FinallyAccounted(s, late); }
  }

  lemma {:induction false} AlwaysAccounted(path: Path, cfg: Config, closeError: Option<Exc>, actions: seq<Action>)
    ensures var s0 := Created(path, cfg, closeError);
            var s := After(s0, actions);
            && SameRequest(s0, s)
            && Accounted(s, Started(s0, actions), Late(s0, actions), Abandoned(s0, actions))
  {
    if actions != [] {
      var s0, before := Created(path, cfg, closeError), actions[..|actions| - 1];
      AlwaysAccounted(path, cfg, closeError, before);
      NextAccounted(After(s0, before), actions[|actions| - 1],
                    Started(s0, before), Late(s0, before), Abandoned(s0, before));
    }
  }

  /**
   Over every run: the slot is released at most once and never before the guard ends; when it ends, the slot has been
   released iff the guard had been started and was not abandoned with a close that raises; the upstream stream is
   closed exactly once if the guard had been started, unless on the Responses path the first pull came after the
   deadline, when the mapper never ran.
   */
  lemma {:induction false} ResourceSafety(path: Path, cfg: Config, closeError: Option<Exc>, actions: seq<Action>)
    ensures var s0 := Created(path, cfg, closeError);
            var s := After(s0, actions);
            && s.releases <= 1 && s.closes <= 1
            && (s.guard != Over ==> s.releases == 0)
            && (s.guard == Over ==>
                && (s.releases == 1 <==>
                    Started(s0, actions) && !(closeError.Some? && Abandoned(s0, actions)))
                && (s.closes == 1 <==>
                    Started(s0, actions) && !(path == Responses && Late(s0, actions))))
  {
    AlwaysAccounted(path, cfg, closeError, actions);
  }

  // ----- the failing sides -----

  /** The first pull comes after the deadline: the guard ends and releases its slot, the upstream stream stays open. */
  lemma LateStreamStaysOpen(cfg: Config, closeError: Option<Exc>)
    ensures var s := After(Created(Responses, cfg, closeError), [Pull(true), Pull(false), Pull(false)]);
            s.guard == Over && s.closes == 0 && s.releases == 1
  {
    var s0 := Created(Responses, cfg, closeError);
    AfterThree(s0, Pull(true), Pull(false), Pull(false));
    assert Next(s0, Pull(true)).guard == AtError;
  }

  /** The consumer leaves in mid-stream, and closing the upstream stream raises: the slot is never given back. */
  lemma AbandonedSlotIsKept(cfg: Config, data: Value)
    ensures var s := After(Created(Native, cfg, Some(OtherError)), [Pull(false), Upstream(Chunk(data)), Close]);
            s.guard == Over && s.closes == 1 && s.releases == 0
  {
    AfterThree(Created(Native, cfg, Some(OtherError)), Pull(false), Upstream(Chunk(data)), Close);
  }

  /** Closed before its first pull, a guard gives back neither the slot nor the upstream stream. */
  lemma UnstartedLeaks(path: Path, cfg: Config, closeError: Option<Exc>)
    ensures var s := After(Created(path, cfg, closeError), [Close]);
            s.guard == Over && s.closes == 0 && s.releases == 0
  {
    assert [Close][..0] == [];
  }

  lemma AfterSnoc(s: Stack, actions: seq<Action>, a: Action)
    ensures After(s, actions + [a]) == Next(After(s, actions), a)
  {
    hide Next;
    assert (actions + [a])[..|actions|] == actions;
  }

  lemma AfterThree(s: Stack, a: Action, b: Action, c: Action)
    ensures After(s, [a, b, c]) == Next(Next(Next(s, a), b), c)
  {
    hide Next, After;
    AfterSnoc(s, [], a);
    AfterSnoc(s, [a], b);
    AfterSnoc(s, [a, b], c);
    assert [] + [a] == [a] && [a] + [b] == [a, b] && [a, b] + [c] == [a, b, c];
    AfterNone(s);
  }

  lemma AfterNone(s: Stack)
    ensures After(s, []) == s
  {
  }
}
