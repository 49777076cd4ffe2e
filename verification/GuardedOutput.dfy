/** What the consumer of the guard receives, for every run of the generator stack. */
module GuardedOutput {
  import opened Wrappers
  import opened Values
  import opened StreamMapper
  import opened StreamGrammar
  import opened GeneratorStack
  import opened Upstream

  function Frames(chunks: seq<StreamMapper.Chunk>): seq<Frame> {
    seq(|chunks|, i requires 0 <= i < |chunks| => FrameOf(chunks[i]))
  }

  /** Everything the mapper yields for the events it has read. */
  function Mappers(s: Stack): seq<Frame> {
    Frames(Output(s.cfg, s.read))
  }

  /** `frames` is `out` with the guard's error frame after it, and its [DONE] when `n` is 2. */
  predicate Erred(frames: seq<Frame>, out: seq<Frame>, n: nat) {
    && |frames| == |out| + n
    && frames[..|out|] == out
    && (n >= 1 ==> frames[|out|].ErrorFrame?)
    && (n == 2 ==> frames[|out| + 1] == DoneFrame)
  }

  // ----- Responses path -----

  /** The consumer pulls once more after the mapper's [DONE], and closing the upstream stream then fails. */
  predicate FailsAfterDone(s: Stack, a: Action) {
    && a.Pull? && s.guard == AtChunk && s.path == Responses && s.pending == [] && s.mapper.returned
    && s.closeError.Some? && s.closeError.value != Cancelled(Outside)
  }

  function FailedAfterDone(s: Stack, actions: seq<Action>): bool {
    if actions == [] then false
    else
      var before := actions[..|actions| - 1];
      FailedAfterDone(s, before) || FailsAfterDone(After(s, before), actions[|actions| - 1])
  }

  predicate Forwards(s: Stack, bad: bool) {
    var out := Mappers(s);
    && s.path == Responses
    && s.mapper == Reached(s.cfg, s.read)
    && match s.guard
       case Fresh => !bad && s.frames == [] && s.pending == [] && s.read == []
       case Waiting => !bad && s.frames == out && s.pending == [] && !s.mapper.returned
       case AtChunk => !bad && s.frames + Frames(s.pending) == out
       case AtError => Erred(s.frames, out, 1) && s.mapper.returned == bad
       case AtErrorDone => Erred(s.frames, out, 2) && s.mapper.returned == bad
       case Over =>
         || (!bad && s.frames <= out)
         || ((Erred(s.frames, out, 1) || Erred(s.frames, out, 2)) && s.mapper.returned == bad)
  }

  /** Closing layers never touches what was forwarded. */
  lemma FinallyKeepsOutput(s: Stack)
    ensures var s' := GuardFinally(s);
            s'.frames == s.frames && s'.mapper == s.mapper && s'.read == s.read && s'.cfg == s.cfg && s'.path == s.path
            && s'.guard == Over
  {
  }

  lemma MapperExitForwards(s: Stack, exc: Option<Exc>)
    requires s.path == Responses && s.mapper == Reached(s.cfg, s.read) && s.frames == Mappers(s)
    requires s.inner == Running && !s.latch
    requires s.mapper.returned ==> exc == None
    ensures Forwards(MapperExit(s, exc),
                     s.mapper.returned && s.closeError.Some? && s.closeError.value != Cancelled(Outside))
  {
    var s' := MapperExit(s, exc);
    assert Mappers(s') == s.frames;
    var raised := Escaping(s.closeError, exc);
    assert s'.guard == Over <==> raised == None || raised == Some(Cancelled(Outside)) by {
      if raised.Some? && raised.value.Cancelled? {
        match raised.value.canceller
        case WrapperTimer =>
        case GuardTimer =>
        case Outside =>
      }
    }
    if s'.guard == AtError {
      assert s'.frames[..|s.frames|] == s.frames;
    } else {
      assert s'.guard == Over && s'.frames == s.frames;
      assert s'.frames <= Mappers(s');
    }
  }

  lemma FramesAppend(a: seq<StreamMapper.Chunk>, b: seq<StreamMapper.Chunk>)
    ensures Frames(a + b) == Frames(a) + Frames(b)
  {
  }

  lemma MappersGrow(s: Stack, e: Event)
    requires s.mapper == Reached(s.cfg, s.read)
    ensures Frames(Output(s.cfg, s.read + [e])) == Mappers(s) + Frames(Step(s.cfg, s.mapper, e).1)
    ensures Reached(s.cfg, s.read + [e]) == Step(s.cfg, s.mapper, e).0
    ensures Step(s.cfg, s.mapper, e).1 == [] ==> Frames(Output(s.cfg, s.read + [e])) == Mappers(s)
  {
    var chunks := Step(s.cfg, s.mapper, e).1;
    RunSnoc(s.cfg, s.read, e);
    FramesAppend(Output(s.cfg, s.read), chunks);
    hide Step, Frames;
    if chunks == [] { assert Output(s.cfg, s.read) + chunks == Output(s.cfg, s.read); }
  }

  /** The mapper has been fed one event and is about to yield its chunks. */
  lemma FedForwards(fed: Stack)
    requires fed.path == Responses && fed.guard == Waiting && fed.mapper == Reached(fed.cfg, fed.read)
    requires Mappers(fed) == fed.frames + Frames(fed.pending)
    requires fed.pending == [] ==> !fed.mapper.returned && Mappers(fed) == fed.frames
    ensures Forwards(if fed.pending == [] then fed else YieldPending(fed), false)
  {
    if fed.pending != [] {
      FramesFirst(fed.pending);
      assert Mappers(YieldPending(fed)) == Mappers(fed);
      hide Reached, Mappers, Frames;
      assert fed.frames + Frames(fed.pending) == fed.frames + [FrameOf(fed.pending[0])] + Frames(fed.pending[1..]);
    }
  }

  lemma EventForwards(s: Stack, e: Event)
    requires s.guard == Waiting && Forwards(s, false)
    ensures Forwards(Deliver(s, Event(e)), false)
  {
    var (mapper, chunks) := Step(s.cfg, s.mapper, e);
    var fed := s.(mapper := mapper, pending := chunks, read := s.read + [e]);
    MappersGrow(s, e);
    if chunks == [] { SilentNotTerminal(s.cfg, s.mapper, e); }
    assert Mappers(fed) == Frames(Output(s.cfg, s.read + [e]));
    hide Step, Frames, Reached, Output, YieldPending, Mappers;
    FedForwards(fed);
  }

  lemma FramesFirst(chunks: seq<StreamMapper.Chunk>)
    requires chunks != []
    ensures Frames(chunks) == [FrameOf(chunks[0])] + Frames(chunks[1..])
  {
  }

  lemma SilentNotTerminal(cfg: Config, s: State, e: Event)
    requires !s.returned && Step(cfg, s, e).1 == []
    ensures !Step(cfg, s, e).0.returned
  {
    HandleShape(cfg, s.(sentRole := true), e);
  }

  lemma ResumeForwards(s: Stack)
    requires s.guard == AtChunk && Forwards(s, false) && s.inner == Running && !s.latch
    ensures Forwards(Resume(s), FailsAfterDone(s, Pull(false)))
  {
    if s.pending != [] {
      FramesFirst(s.pending);
      assert Mappers(Resume(s)) == Mappers(s);
      hide Frames, Mappers;
    } else {
      assert Frames(s.pending) == [];
      assert Mappers(Resume(s)) == Mappers(s) || s.mapper.returned;
      hide Frames, Mappers;
      if s.mapper.returned {
        MapperExitForwards(s, None);
      }
    }
  }

  lemma FreshForwards(s: Stack, expired: bool)
    requires s.guard == Fresh && Forwards(s, false)
    ensures Forwards(Start(s, expired), false)
  {
    assert Mappers(s) == [];
  }

  lemma FinallyForwards(s: Stack, bad: bool)
    requires Forwards(s, bad) && s.guard in {AtChunk, AtError, AtErrorDone}
    ensures Forwards(GuardFinally(s), bad)
  {
    FinallyKeepsOutput(s);
    assert Mappers(GuardFinally(s)) == Mappers(s);
    hide GuardFinally;
  }

  lemma SecondFrameForwards(s: Stack, bad: bool)
    requires Forwards(s, bad) && s.guard == AtError
    ensures Forwards(Next(s, Pull(false)), bad)
  {
    var s', out := Next(s, Pull(false)), Mappers(s);
    assert Mappers(s') == out;
    assert s'.frames[..|out|] == out;
  }

  lemma NextForwards(s: Stack, a: Action, bad: bool)
    requires Forwards(s, bad) && (s.guard in {Waiting, AtChunk} ==> s.inner == Running && !s.latch)
    ensures Forwards(Next(s, a), bad || FailsAfterDone(s, a))
  {
    hide Mappers, Erred, MapperExit, Resume, Step;
    match a {
      case Pull(expired) =>
        match s.guard {
          case Fresh => FreshForwards(s, expired);
          case AtChunk => ResumeForwards(s);
          case AtError => SecondFrameForwards(s, bad);
          case AtErrorDone => FinallyForwards(s, bad);
          case _ =>
        }
      case Upstream(signal) =>
        if s.guard == Waiting {
          match signal {
            case Event(e) => EventForwards(s, e);
            case End => MapperExitForwards(s, None);
            case Raise(exc) => MapperExitForwards(s, Some(exc));
            case Fault => MapperExitForwards(s, Some(OtherError));
            case Chunk(_) =>
          }
        }
      case Close => if s.guard in {AtChunk, AtError, AtErrorDone} { FinallyForwards(s, bad); }
    }
  }

  /**
   In every run the consumer has a prefix of what the mapper yields for the events the upstream sent; while the upstream
   is being read it has all of it but what is pending, and after a failure all of it and the guard's own frames.
   */
  lemma {:induction false} AlwaysForwards(cfg: Config, closeError: Option<Exc>, actions: seq<Action>)
    ensures var s0 := Created(Responses, cfg, closeError);
            && Forwards(After(s0, actions), FailedAfterDone(s0, actions))
            && Mappers(After(s0, actions)) == Frames(Output(cfg, Sent(s0, actions)))
  {
    var s0 := Created(Responses, cfg, closeError);
    AllRead(s0, actions);
    AlwaysAccounted(Responses, cfg, closeError, actions);
    if actions != [] {
      var before := actions[..|actions| - 1];
      AlwaysForwards(cfg, closeError, before);
      AlwaysAccounted(Responses, cfg, closeError, before);
      hide Next, Sent, Mappers;
      NextForwards(After(s0, before), actions[|actions| - 1], FailedAfterDone(s0, before));
    }
  }

  predicate DoneLast(frames: seq<Frame>) {
    forall i | 0 <= i < |frames| :: frames[i] == DoneFrame ==> i == |frames| - 1
  }

  lemma MapperDone(s: Stack)
    ensures DoneLast(Mappers(s))
    ensures DoneFrame in Mappers(s) <==> Reached(s.cfg, s.read).returned
    ensures Reached(s.cfg, s.read).returned ==> |Mappers(s)| > 0 && Mappers(s)[|Mappers(s)| - 1] == DoneFrame
  {
    var chunks := Output(s.cfg, s.read);
    DoneIsLast(s.cfg, s.read);
    OutputGrammar(s.cfg, s.read);
    if |Live(s.read)| < |s.read| {
      assert s.read[|Live(s.read)|] in s.read;
      var i :| 0 <= i < |chunks| && chunks[i] == DoneChunk;
      assert Mappers(s)[i] == DoneFrame;
    } else {
      assert Live(s.read) == s.read;
      assert forall i | 0 <= i < |chunks| :: chunks[i] in chunks;
    }
    forall i | 0 <= i < |Mappers(s)| && Mappers(s)[i] == DoneFrame ensures i == |Mappers(s)| - 1 {
      assert chunks[i] == DoneChunk;
    }
  }

  lemma ForwardsDone(s: Stack, bad: bool)
    requires Forwards(s, bad)
    ensures DoneLast(s.frames) <==> !bad
  {
    MapperDone(s);
    var out := Mappers(s);
    if Erred(s.frames, out, 1) || Erred(s.frames, out, 2) {
      forall i | 0 <= i < |out| ensures s.frames[i] == out[i] {
        assert s.frames[..|out|][i] == out[i];
      }
    } else if s.guard == AtChunk {
      assert s.frames == out[..|s.frames|];
    }
  }

  /**
   On the Responses path [DONE] is at most once and last, for upstream errors, timers and closes at any moment,
   exactly unless closing the upstream stream fails after the mapper's own [DONE] was forwarded.
   */
  lemma {:induction false} ResponsesDoneLast(cfg: Config, closeError: Option<Exc>, actions: seq<Action>)
    ensures var s0 := Created(Responses, cfg, closeError);
            DoneLast(After(s0, actions).frames) <==> !FailedAfterDone(s0, actions)
  {
    var s0 := Created(Responses, cfg, closeError);
    AlwaysForwards(cfg, closeError, actions);
    ForwardsDone(After(s0, actions), FailedAfterDone(s0, actions));
  }

  lemma {:induction false} NeverFailsWithoutCloseError(cfg: Config, actions: seq<Action>)
    ensures !FailedAfterDone(Created(Responses, cfg, None), actions)
  {
    if actions != [] {
      NeverFailsWithoutCloseError(cfg, actions[..|actions| - 1]);
      AlwaysAccounted(Responses, cfg, None, actions[..|actions| - 1]);
    }
  }

  // ----- Native path -----

  /** The upstream's data, one frame each. */
  function DataFrames(s: Stack): seq<Frame> {
    seq(|s.received|, i requires 0 <= i < |s.received| => NativeData(s.received[i]))
  }

  /** The consumer has the upstream's data in order, and then at most [DONE], or the guard's error frame and [DONE]. */
  predicate NativeForwards(s: Stack) {
    var data := DataFrames(s);
    && s.path == Native
    && (s.guard in {Fresh, Waiting, AtError} ==> !s.nativeDone)
    && match s.guard
       case Fresh => s.frames == [] && s.received == []
       case Waiting => s.frames == data
       case AtChunk => s.frames == if s.nativeDone then data + [DoneFrame] else data
       case AtError => Erred(s.frames, data, 1)
       case AtErrorDone => Erred(s.frames, data, 2)
       case Over => s.frames in {data, data + [DoneFrame]} || Erred(s.frames, data, 1) || Erred(s.frames, data, 2)
  }

  lemma CaughtErred(s: Stack, exc: Exc)
    requires s.path == Native && s.frames == DataFrames(s) && !s.nativeDone
    ensures NativeForwards(GuardCatch(s, exc))
  {
    var s', data := GuardCatch(s, exc), DataFrames(s);
    assert DataFrames(s') == data;
    if s'.guard == AtError {
      assert s'.frames[..|data|] == data;
    } else {
      FinallyKeepsOutput(s);
    }
  }

  lemma NativeExitForwards(s: Stack, exc: Option<Exc>)
    requires s.path == Native && s.frames == DataFrames(s) && !s.nativeDone && s.inner == Running
    ensures NativeForwards(IterationExit(s, exc))
  {
    var seen := if exc == Some(Cancelled(WrapperTimer)) then Some(DeadlineError) else exc;
    IterationExitForwards(s.(iter := Finished), seen);
  }

  lemma IterationExitForwards(s: Stack, seen: Option<Exc>)
    requires s.path == Native && s.frames == DataFrames(s) && !s.nativeDone
    ensures var (s', err) := CloseWrapper(s); NativeForwards(AfterIteration(s', Escaping(err, seen)))
  {
    var (s', err) := CloseWrapper(s);
    assert DataFrames(s') == DataFrames(s);
    var outcome := Escaping(err, seen);
    if outcome == None {
      assert DataFrames(AfterIteration(s', None)) == DataFrames(s);
    } else {
      FaultForwards(s', outcome.value);
    }
  }

  lemma FaultForwards(s: Stack, exc: Exc)
    requires s.path == Native && s.frames == DataFrames(s) && !s.nativeDone
    ensures NativeForwards(NativeExit(s, exc))
  {
    var (s', err) := CloseNative(s);
    assert DataFrames(s') == DataFrames(s);
    hide DataFrames, NativeForwards, GuardCatch;
    CaughtErred(s', Escaping(err, Some(exc)).value);
  }

  lemma NativeStartForwards(s: Stack, expired: bool)
    requires s.path == Native && s.frames == [] && s.received == [] && !s.nativeDone
    ensures NativeForwards(Start(s, expired))
  {
    assert s.frames == DataFrames(s);
    var begun := s.(guard := Waiting, iter := Running, inner := Running);
    if expired {
      var (s', err) := CloseWrapper(begun);
      assert DataFrames(s') == [];
      FaultForwards(s'.(iter := Finished), Escaping(err, Some(DeadlineError)).value);
    }
  }

  lemma NativeDeliverForwards(s: Stack, signal: Signal)
    requires s.path == Native && s.guard == Waiting && s.frames == DataFrames(s) && !s.nativeDone && s.inner == Running
    ensures NativeForwards(Deliver(s, signal))
  {
    match signal
    case End => NativeExitForwards(s, None);
    case Raise(exc) => NativeExitForwards(s, Some(exc));
    case Fault => FaultForwards(s, OtherError);
    case Chunk(data) => assert DataFrames(Deliver(s, signal)) == DataFrames(s) + [NativeData(data)];
    case _ =>
  }

  lemma NextNativeForwards(s: Stack, a: Action)
    requires NativeForwards(s)
    requires s.guard == Waiting ==> s.inner == Running
    ensures NativeForwards(Next(s, a))
  {
    FinallyKeepsOutput(s);
    match a
    case Pull(expired) =>
      if s.guard == Fresh {
        NativeStartForwards(s, expired);
      } else if s.guard == AtError {
        NativeSecondFrame(s);
      } else {
        NativeKeeps(s, Next(s, a));
      }
    case Upstream(signal) => if s.guard == Waiting { NativeDeliverForwards(s, signal); }
    case Close => if s.guard != Waiting { NativeKeeps(s, Next(s, a)); }
  }

  /** Resuming or closing the guard adds no frame. */
  lemma NativeKeeps(s: Stack, s': Stack)
    requires NativeForwards(s) && s'.path == Native && s'.frames == s.frames && s'.received == s.received
    requires s'.guard == Over || s' == s ||
             (s.guard == AtChunk && !s.nativeDone && s'.guard == Waiting && !s'.nativeDone)
    ensures NativeForwards(s')
  {
    assert DataFrames(s') == DataFrames(s);
  }

  lemma NativeSecondFrame(s: Stack)
    requires NativeForwards(s) && s.guard == AtError
    ensures NativeForwards(Next(s, Pull(false)))
  {
    var s', data := Next(s, Pull(false)), DataFrames(s);
    assert DataFrames(s') == data && s'.frames[..|data|] == data;
  }

  lemma {:induction false} AlwaysNativeForwards(cfg: Config, closeError: Option<Exc>, actions: seq<Action>)
    ensures var s0 := Created(Native, cfg, closeError);
            NativeForwards(After(s0, actions)) && After(s0, actions).received == Supplied(s0, actions)
  {
    var s0 := Created(Native, cfg, closeError);
    AllRead(s0, actions);
    if actions != [] {
      var before := actions[..|actions| - 1];
      AlwaysNativeForwards(cfg, closeError, before);
      AlwaysAccounted(Native, cfg, closeError, before);
      hide NativeForwards, Next;
      NextNativeForwards(After(s0, before), actions[|actions| - 1]);
    }
  }

  /** Where [DONE] stands in what the consumer received. */
  lemma NativeDone(s: Stack)
    requires NativeForwards(s)
    ensures DoneLast(s.frames)
    ensures s.guard in {Fresh, Waiting, AtError} || (s.guard == AtChunk && !s.nativeDone) ==> DoneFrame !in s.frames
    ensures (s.guard == AtChunk && s.nativeDone) || s.guard == AtErrorDone ==> DoneFrame in s.frames
  {
    var data := DataFrames(s);
    assert forall i | 0 <= i < |data| :: data[i] != DoneFrame;
    if Erred(s.frames, data, 1) || Erred(s.frames, data, 2) {
      assert forall i | 0 <= i < |data| :: s.frames[i] == s.frames[..|data|][i];
    }
    if s.guard == AtErrorDone || (s.guard == AtChunk && s.nativeDone) {
      assert s.frames[|s.frames| - 1] == DoneFrame;
    }
  }

  /** On the native path [DONE] is at most once and last, whatever fails. */
  lemma {:induction false} NativeDoneLast(cfg: Config, closeError: Option<Exc>, actions: seq<Action>)
    ensures DoneLast(After(Created(Native, cfg, closeError), actions).frames)
  {
    AlwaysNativeForwards(cfg, closeError, actions);
    NativeDone(After(Created(Native, cfg, closeError), actions));
  }

  // ----- when [DONE] is missing -----

  /** An exception out of closing the upstream that reaches the guard as a cancellation from outside. */
  predicate Cuts(path: Path, exc: Exc) {
    exc == Cancelled(Outside) || (path == Native && exc == Cancelled(WrapperTimer))
  }

  /** The steps that end a guard without [DONE]. */
  predicate EndsShort(s: Stack, a: Action) {
    match a
    case Close => s.guard !in {Waiting, Over} && DoneFrame !in s.frames
    case Pull(expired) =>
      && s.guard == Fresh && expired && s.path == Native
      && s.closeError.Some? && Cuts(Native, s.closeError.value)
    case Upstream(signal) =>
      s.guard == Waiting &&
      (if s.closeError.Some? then !signal.Event? && !signal.Chunk? && Cuts(s.path, s.closeError.value)
       else signal == Raise(Cancelled(Outside)) || (s.path == Responses && signal == End))
  }

  predicate CutShort(s: Stack) {
    s.guard == Over && DoneFrame !in s.frames
  }

  /** What is known of [DONE] where a guard can end. */
  predicate DoneKnown(s: Stack) {
    && (s.guard in {Fresh, Waiting} ==> DoneFrame !in s.frames)
    && (s.guard == AtChunk && s.path == Responses && s.pending == [] && s.mapper.returned ==> DoneFrame in s.frames)
    && (s.guard == AtChunk && s.path == Native && s.nativeDone ==> DoneFrame in s.frames)
    && (s.guard == AtErrorDone ==> DoneFrame in s.frames)
  }

  /** Where the generators stand where a guard can end. */
  predicate Placed(s: Stack) {
    && (s.guard == Fresh ==> s.inner == Unstarted && !s.latch)
    && (s.guard in {Waiting, AtChunk} && s.path == Responses ==> s.inner == Running && !s.latch)
    && (s.guard == Waiting ==> s.inner == Running && !s.latch)
  }

  lemma CloseShort(s: Stack)
    requires s.guard != Over
    ensures CutShort(Next(s, Close)) <==> EndsShort(s, Close)
  {
    FinallyKeepsOutput(s);
  }

  lemma PullShort(s: Stack, expired: bool)
    requires s.guard != Over && DoneKnown(s) && Placed(s)
    ensures CutShort(Next(s, Pull(expired))) <==> EndsShort(s, Pull(expired))
  {
    FinallyKeepsOutput(s);
    if s.guard == Fresh {
      StartShort(s, expired);
    } else if s.guard == AtChunk && s.path == Responses && s.pending == [] && s.mapper.returned {
      MapperExitShort(s, None);
    }
  }

  lemma StartShort(s: Stack, expired: bool)
    requires s.guard == Fresh && s.inner == Unstarted && !s.latch && DoneFrame !in s.frames
    ensures CutShort(Start(s, expired)) <==> EndsShort(s, Pull(expired))
  {
    if s.closeError.Some? { Cancellers(s.closeError.value); }
  }

  lemma MapperExitShort(s: Stack, exc: Option<Exc>)
    requires s.path == Responses && s.inner == Running && !s.latch
    ensures DoneFrame in s.frames ==> DoneFrame in MapperExit(s, exc).frames
    ensures DoneFrame !in s.frames ==>
              (CutShort(MapperExit(s, exc)) <==>
               if s.closeError.Some? then Cuts(Responses, s.closeError.value)
               else exc == None || exc == Some(Cancelled(Outside)))
  {
    Cancellers(if s.closeError.Some? then s.closeError.value else if exc.Some? then exc.value else OtherError);
  }

  lemma Cancellers(exc: Exc)
    ensures exc.Cancelled? ==> exc.canceller in {WrapperTimer, GuardTimer, Outside}
  {
    if exc.Cancelled? {
      match exc.canceller
      case WrapperTimer =>
      case GuardTimer =>
      case Outside =>
    }
  }

  lemma IterationExitShort(s: Stack, exc: Option<Exc>)
    requires s.path == Native && s.inner == Running && !s.latch && DoneFrame !in s.frames
    ensures CutShort(IterationExit(s, exc)) <==>
            if s.closeError.Some? then Cuts(Native, s.closeError.value) else exc == Some(Cancelled(Outside))
  {
    Cancellers(if s.closeError.Some? then s.closeError.value else if exc.Some? then exc.value else OtherError);
  }

  lemma FaultShort(s: Stack)
    requires s.path == Native && s.inner == Running && !s.latch && DoneFrame !in s.frames
    ensures CutShort(NativeExit(s, OtherError)) <==> s.closeError.Some? && Cuts(Native, s.closeError.value)
  {
    if s.closeError.Some? { Cancellers(s.closeError.value); }
  }

  lemma UpstreamShort(s: Stack, signal: Signal)
    requires s.guard == Waiting && DoneKnown(s) && Placed(s)
    ensures CutShort(Next(s, Upstream(signal))) <==> EndsShort(s, Upstream(signal))
  {
    hide MapperExit, IterationExit, NativeExit, Step, Cuts;
    match signal
    case Event(e) => assert Next(s, Upstream(signal)).guard != Over;
    case Chunk(_) => assert Next(s, Upstream(signal)).guard != Over;
    case End => if s.path == Responses { MapperExitShort(s, None); } else { IterationExitShort(s, None); }
    case Raise(exc) =>
      if s.path == Responses { MapperExitShort(s, Some(exc)); } else { IterationExitShort(s, Some(exc)); }
    case Fault => if s.path == Responses { MapperExitShort(s, Some(OtherError)); } else { FaultShort(s); }
  }

  lemma ReachableKnown(path: Path, cfg: Config, closeError: Option<Exc>, actions: seq<Action>)
    ensures var s := After(Created(path, cfg, closeError), actions); DoneKnown(s) && Placed(s)
  {
    var s := After(Created(path, cfg, closeError), actions);
    AlwaysAccounted(path, cfg, closeError, actions);
    if path == Native {
      AlwaysNativeForwards(cfg, closeError, actions);
      NativeDone(s);
      hide NativeForwards;
    } else {
      AlwaysForwards(cfg, closeError, actions);
      DoneSeen(s, FailedAfterDone(Created(path, cfg, closeError), actions));
      hide Forwards, FailedAfterDone;
    }
  }

  /** After every run, whatever closing raises: a step leaves the guard ended without [DONE] exactly in those ways. */
  lemma {:induction false} DoneUnlessEndsShort(path: Path, cfg: Config, closeError: Option<Exc>,
                                               actions: seq<Action>, a: Action)
    requires After(Created(path, cfg, closeError), actions).guard != Over
    ensures var s := After(Created(path, cfg, closeError), actions); CutShort(Next(s, a)) <==> EndsShort(s, a)
  {
    var s := After(Created(path, cfg, closeError), actions);
    ReachableKnown(path, cfg, closeError, actions);
    hide After, Next, DoneKnown, Placed, CutShort;
    match a
    case Close => CloseShort(s);
    case Pull(expired) => PullShort(s, expired);
    case Upstream(signal) => if s.guard == Waiting { UpstreamShort(s, signal); } else { UpstreamIgnored(s, signal); }
  }

  lemma UpstreamIgnored(s: Stack, signal: Signal)
    requires s.guard != Waiting && s.guard != Over
    ensures !CutShort(Next(s, Upstream(signal)))
  {
  }

  lemma DoneSeen(s: Stack, bad: bool)
    requires Forwards(s, bad)
    ensures s.guard in {Fresh, Waiting} ==> DoneFrame !in s.frames
    ensures s.guard == AtChunk && s.pending == [] && s.mapper.returned ==> DoneFrame in s.frames
    ensures s.guard == AtErrorDone ==> DoneFrame in s.frames
  {
    MapperDone(s);
    if s.guard == AtChunk && s.pending == [] {
      assert Frames(s.pending) == [];
      assert s.frames == Mappers(s);
    }
    if s.guard == AtErrorDone {
      assert s.frames[|s.frames| - 1] == DoneFrame;
    }
  }

  // ----- a close that fails too late -----

  lemma FailedEventChunks(cfg: Config, s: State)
    requires !s.returned && !s.sentRole
    ensures var (s', chunks) := Step(cfg, s, StreamMapper.Failed(Null, Null));
            s'.returned && |chunks| == 3 && chunks[0] == RoleChunk && chunks[1].ErrorChunk? && chunks[2] == DoneChunk
  {
  }

  /** A stream that ends with an error event, pulled to its end while closing the upstream fails: two [DONE]s. */
  lemma SecondDone(cfg: Config)
    ensures var actions := [Pull(false), Upstream(Event(StreamMapper.Failed(Null, Null))),
                            Pull(false), Pull(false), Pull(false), Pull(false)];
            var frames := After(Created(Responses, cfg, Some(OtherError)), actions).frames;
            |frames| == 5 && frames[2] == DoneFrame && frames[3].ErrorFrame? && frames[4] == DoneFrame
  {
    var s0 := Created(Responses, cfg, Some(OtherError));
    var e := Upstream(Event(StreamMapper.Failed(Null, Null)));
    var s2 := Next(Next(s0, Pull(false)), e);
    FailedEventChunks(cfg, INITIAL);
    assert AfterError(s2, 1) && |s2.pending| == 2 && s2.pending[1] == DoneChunk;
    Unrolled(s0, [Pull(false), e, Pull(false), Pull(false), Pull(false), Pull(false)]);
    hide Next;
    DrainsTwice(s2);
  }

  predicate AfterError(s: Stack, n: nat) {
    && s.path == Responses && s.closeError == Some(OtherError) && s.guard == AtChunk && !s.latch && s.mapper.returned
    && |s.frames| == n
  }

  lemma DrainsTwice(s: Stack)
    requires AfterError(s, 1) && |s.pending| == 2 && s.pending[1] == DoneChunk
    ensures var frames := Next(Next(Next(Next(s, Pull(false)), Pull(false)), Pull(false)), Pull(false)).frames;
            |frames| == 5 && frames[2] == DoneFrame && frames[3].ErrorFrame? && frames[4] == DoneFrame
  {
    var s3 := Next(s, Pull(false));
    assert AfterError(s3, 2) && s3.pending == [DoneChunk];
    var s4 := Next(s3, Pull(false));
    assert AfterError(s4, 3) && s4.frames[2] == DoneFrame && s4.pending == [];
    var s5 := Next(s4, Pull(false));
    assert s5.guard == AtError && s5.frames == s4.frames + [ErrorFrame("gateway_stream_error")];
  }

  lemma Unrolled(s: Stack, a: seq<Action>)
    requires |a| == 6
    ensures After(s, a) == Next(Next(Next(Next(Next(Next(s, a[0]), a[1]), a[2]), a[3]), a[4]), a[5])
  {
    hide Next;
    assert After(s, []) == s;
    AfterStep(s, a, 0);
    AfterStep(s, a, 1);
    AfterStep(s, a, 2);
    AfterStep(s, a, 3);
    AfterStep(s, a, 4);
    AfterStep(s, a, 5);
    assert a[..0] == [] && a[..6] == a;
  }

  lemma AfterStep(s: Stack, a: seq<Action>, k: nat)
    requires k < |a|
    ensures After(s, a[..k + 1]) == Next(After(s, a[..k]), a[k])
  {
    hide Next;
    assert a[..k + 1][..k] == a[..k];
  }
}
