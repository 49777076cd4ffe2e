/** Runs in which nothing goes wrong, and runs in which one thing does: the consumer gets everything, and is told. */
module CompleteRuns {
  import opened Wrappers
  import opened Values
  import opened StreamMapper
  import opened StreamGrammar
  import opened GeneratorStack
  import opened Upstream
  import opened GuardedOutput

  lemma {:induction false} AfterAppend(s: Stack, a: seq<Action>, b: seq<Action>)
    ensures After(s, a + b) == After(After(s, a), b)
  {
    if b == [] {
      assert a + b == a;
    } else {
      assert (a + b)[..|a + b| - 1] == a + b[..|b| - 1];
      AfterAppend(s, a, b[..|b| - 1]);
    }
  }

  lemma AfterOne(s: Stack, a: Action)
    ensures After(s, [a]) == Next(s, a)
  {
    assert [a][..0] == [];
    hide Next;
  }

  lemma AfterTwo(s: Stack, a: Action, b: Action)
    ensures After(s, [a, b]) == Next(Next(s, a), b)
  {
    hide Next;
    assert [a, b] == [a] + [b];
    AfterAppend(s, [a], [b]);
    AfterOne(s, a);
    AfterOne(Next(s, a), b);
  }

  function Pulls(n: nat): seq<Action> {
    if n == 0 then [] else Pulls(n - 1) + [Pull(false)]
  }

  // ----- Responses path -----

  /** The first `k` pending chunks have been pulled. */
  function Drained(s: Stack, k: nat): Stack
    requires k <= |s.pending|
  {
    s.(frames := s.frames + Frames(s.pending[..k]), pending := s.pending[k..])
  }

  /** Each pull of a guard at a chunk hands over the next pending one. */
  lemma {:induction false} PullsDrain(s: Stack, k: nat)
    requires s.guard == AtChunk && s.path == Responses && k <= |s.pending|
    ensures After(s, Pulls(k)) == Drained(s, k)
  {
    if k == 0 {
      assert s.frames + Frames(s.pending[..0]) == s.frames && s.pending[0..] == s.pending;
    } else {
      hide After, Next, Drained;
      PullsDrain(s, k - 1);
      AfterAppend(s, Pulls(k - 1), [Pull(false)]);
      AfterOne(Drained(s, k - 1), Pull(false));
      DrainOne(s, k);
    }
  }

  lemma DrainOne(s: Stack, k: nat)
    requires s.guard == AtChunk && s.path == Responses && 0 < k <= |s.pending|
    ensures Next(Drained(s, k - 1), Pull(false)) == Drained(s, k)
  {
    var before, c := Drained(s, k - 1), s.pending[k - 1];
    assert s.pending[k - 1..][1..] == s.pending[k..] && s.pending[k - 1..][0] == c;
    assert Next(before, Pull(false)) == before.(frames := before.frames + [FrameOf(c)], pending := s.pending[k..]);
    hide Next;
    assert s.pending[..k] == s.pending[..k - 1] + [c];
    FramesAppend(s.pending[..k - 1], [c]);
    FramesFirst([c]);
    assert Frames([c]) == [FrameOf(c)];
    hide Frames;
    assert before.frames + [FrameOf(c)] == s.frames + (Frames(s.pending[..k - 1]) + [FrameOf(c)]);
  }

  /** Deliver an event to a waiting guard and pull until it waits again, or ends. */
  function Serve(e: Event, chunks: nat): seq<Action> {
    [Upstream(Event(e))] + Pulls(chunks)
  }

  /** The consumer pulls whenever it can, and the upstream sends `es`, in order. */
  function Schedule(cfg: Config, es: seq<Event>): seq<Action> {
    if es == [] then [Pull(false)]
    else
      var before, e := es[..|es| - 1], es[|es| - 1];
      Schedule(cfg, before) + Serve(e, |Step(cfg, Reached(cfg, before), e).1|)
  }

  /** A guard that waits for the upstream, having handed over everything so far. */
  predicate UpToDate(s: Stack, cfg: Config, es: seq<Event>) {
    && s.path == Responses && s.cfg == cfg && s.closeError == None
    && s.guard == Waiting && s.inner == Running && !s.latch
    && s.pending == [] && s.mapper == Reached(cfg, es) && !s.mapper.returned && s.read == es
    && s.frames == Frames(Output(cfg, es)) && s.closes == 0 && s.releases == 0
  }

  /** The state in which all chunks of one event have been handed over. */
  lemma Served(s: Stack, e: Event)
    requires s.path == Responses && s.guard == Waiting && s.pending == []
    ensures var (mapper, chunks) := Step(s.cfg, s.mapper, e);
            var fed := s.(mapper := mapper, read := s.read + [e], frames := s.frames + Frames(chunks));
            After(s, Serve(e, |chunks|)) ==
            if chunks == [] then fed else Next(fed.(guard := AtChunk), Pull(false))
  {
    var (mapper, chunks) := Step(s.cfg, s.mapper, e);
    var fed := s.(mapper := mapper, read := s.read + [e], frames := s.frames + Frames(chunks));
    var got := Next(s, Upstream(Event(e)));
    hide Step, Next, After, Drained, Frames;
    AfterAppend(s, [Upstream(Event(e))], Pulls(|chunks|));
    AfterOne(s, Upstream(Event(e)));
    if chunks == [] {
      NothingHandedOver(s, e);
      assert After(got, []) == got by { PullsDrainNone(got); }
    } else {
      var n := |chunks| - 1;
      FirstHandedOver(s, e);
      PullsDrain(got, n);
      AfterAppend(got, Pulls(n), [Pull(false)]);
      AfterOne(Drained(got, n), Pull(false));
      AllHandedOver(s, mapper, e, chunks);
    }
  }

  lemma PullsDrainNone(s: Stack)
    ensures After(s, Pulls(0)) == s
  {
  }

  lemma NothingHandedOver(s: Stack, e: Event)
    requires s.path == Responses && s.guard == Waiting && s.pending == [] && Step(s.cfg, s.mapper, e).1 == []
    ensures Next(s, Upstream(Event(e))) ==
            s.(mapper := Step(s.cfg, s.mapper, e).0, read := s.read + [e], frames := s.frames + Frames([]))
  {
    hide Step;
    assert Frames([]) == [] && s.frames + [] == s.frames;
  }

  lemma FirstHandedOver(s: Stack, e: Event)
    requires s.path == Responses && s.guard == Waiting && Step(s.cfg, s.mapper, e).1 != []
    ensures var (mapper, chunks) := Step(s.cfg, s.mapper, e);
            Next(s, Upstream(Event(e))) ==
            s.(guard := AtChunk, mapper := mapper, read := s.read + [e], pending := chunks[1..],
               frames := s.frames + [FrameOf(chunks[0])])
  {
    hide Step;
  }

  lemma AllHandedOver(s: Stack, mapper: State, e: Event, chunks: seq<StreamMapper.Chunk>)
    requires chunks != [] && s.pending == []
    ensures var got := s.(guard := AtChunk, mapper := mapper, read := s.read + [e], pending := chunks[1..],
                          frames := s.frames + [FrameOf(chunks[0])]);
            Drained(got, |chunks| - 1) ==
            s.(guard := AtChunk, mapper := mapper, read := s.read + [e], frames := s.frames + Frames(chunks))
  {
    var rest := chunks[1..];
    assert rest[..|rest|] == rest && rest[|rest|..] == [];
    FramesFirst(chunks);
    hide Frames;
    assert s.frames + [FrameOf(chunks[0])] + Frames(rest) == s.frames + Frames(chunks);
  }

  lemma ServedKeepsUp(s: Stack, cfg: Config, es: seq<Event>, e: Event)
    requires UpToDate(s, cfg, es) && !Terminal(e)
    ensures UpToDate(After(s, Serve(e, |Step(cfg, Reached(cfg, es), e).1|)), cfg, es + [e])
  {
    Served(s, e);
    RunSnoc(cfg, es, e);
    FramesAppend(Output(cfg, es), Step(cfg, s.mapper, e).1);
    StepIsHandle(cfg, s.mapper, e);
    HandleShape(cfg, s.mapper.(sentRole := true), e);
    hide Step, Handle, After, Frames, Serve, Run;
  }

  lemma {:induction false} ScheduleKeepsUp(cfg: Config, es: seq<Event>)
    requires Live(es) == es
    ensures UpToDate(After(Created(Responses, cfg, None), Schedule(cfg, es)), cfg, es)
  {
    var s0 := Created(Responses, cfg, None);
    if es == [] {
      AfterOne(s0, Pull(false));
      assert Frames(Output(cfg, [])) == [];
    } else {
      var before, e := es[..|es| - 1], es[|es| - 1];
      assert es == before + [e] && e in es;
      LiveInit(es);
      ScheduleKeepsUp(cfg, before);
      hide UpToDate, After, Step, Serve, Run;
      AfterAppend(s0, Schedule(cfg, before), Serve(e, |Step(cfg, Reached(cfg, before), e).1|));
      ServedKeepsUp(After(s0, Schedule(cfg, before)), cfg, before, e);
    }
  }

  /** One more pull after the last chunk ends the stream. */
  lemma LastPull(s: Stack)
    requires s.guard == AtChunk && s.path == Responses && s.pending == [] && s.mapper.returned && s.closeError == None
    requires s.inner == Running && !s.latch && s.closes == 0 && s.releases == 0
    ensures var s' := Next(s, Pull(false));
            s'.guard == Over && s'.closes == 1 && s'.releases == 1 && s'.frames == s.frames && s'.read == s.read
  {
  }

  lemma LastServed(s: Stack, cfg: Config, es: seq<Event>, e: Event)
    requires UpToDate(s, cfg, es) && Terminal(e)
    ensures var s' := After(s, Serve(e, |Step(cfg, Reached(cfg, es), e).1|));
            && s'.guard == Over && s'.closes == 1 && s'.releases == 1
            && s'.frames == Frames(Output(cfg, es + [e])) && s'.read == es + [e]
  {
    var (mapper, chunks) := Step(cfg, s.mapper, e);
    Served(s, e);
    RunSnoc(cfg, es, e);
    FramesAppend(Output(cfg, es), chunks);
    TerminalYields(cfg, s.mapper, e);
    hide Step, After, Frames, Serve, Run, Next;
    LastPull(s.(mapper := mapper, read := s.read + [e], frames := s.frames + Frames(chunks), guard := AtChunk));
  }

  lemma TerminalYields(cfg: Config, s: State, e: Event)
    requires !s.returned && Terminal(e)
    ensures Step(cfg, s, e).0.returned && Step(cfg, s, e).1 != []
  {
    HandleShape(cfg, s.(sentRole := true), e);
    StepIsHandle(cfg, s, e);
    hide Step, Handle;
  }

  /**
   When nothing fails and the upstream sends events up to a terminal one, the consumer that keeps pulling receives every
   chunk the mapper yields for them, and in the end the upstream stream is closed and the slot given back.
   */
  lemma {:induction false} CompleteRun(cfg: Config, es: seq<Event>, e: Event)
    requires Live(es) == es && Terminal(e)
    ensures var s0, actions := Created(Responses, cfg, None), Schedule(cfg, es + [e]);
            var s := After(s0, actions);
            && Sent(s0, actions) == es + [e]
            && s.frames == Frames(Output(cfg, es + [e]))
            && s.guard == Over && s.closes == 1 && s.releases == 1
  {
    var s0 := Created(Responses, cfg, None);
    var actions := Serve(e, |Step(cfg, Reached(cfg, es), e).1|);
    assert (es + [e])[..|es|] == es;
    assert Schedule(cfg, es + [e]) == Schedule(cfg, es) + actions;
    hide Step, After, Frames, Serve, Run, Schedule, Live, Sent, UpToDate;
    ScheduleKeepsUp(cfg, es);
    AfterAppend(s0, Schedule(cfg, es), actions);
    LastServed(After(s0, Schedule(cfg, es)), cfg, es, e);
    AllRead(s0, Schedule(cfg, es + [e]));
  }

  // ----- Native path -----

  /** The consumer pulls whenever it can, and the upstream sends `data`, in order. */
  function NativeSchedule(data: seq<Value>): seq<Action> {
    if data == [] then [Pull(false)]
    else NativeSchedule(data[..|data| - 1]) + [Upstream(Chunk(data[|data| - 1])), Pull(false)]
  }

  predicate NativeUpToDate(s: Stack, data: seq<Value>) {
    && s.path == Native && s.closeError == None && s.guard == Waiting && s.inner == Running && !s.latch && !s.nativeDone
    && |s.frames| == |data| && (forall i | 0 <= i < |data| :: s.frames[i] == NativeData(data[i]))
    && s.closes == 0 && s.releases == 0
  }

  lemma NativeServed(s: Stack, data: seq<Value>, d: Value)
    requires NativeUpToDate(s, data)
    ensures NativeUpToDate(Next(Next(s, Upstream(Chunk(d))), Pull(false)), data + [d])
  {
  }

  lemma {:induction false} NativeKeepsUp(cfg: Config, data: seq<Value>)
    ensures NativeUpToDate(After(Created(Native, cfg, None), NativeSchedule(data)), data)
  {
    var s0 := Created(Native, cfg, None);
    if data == [] {
      AfterOne(s0, Pull(false));
    } else {
      hide After, Next, NativeUpToDate, Created;
      var before, d := data[..|data| - 1], data[|data| - 1];
      assert data == before + [d];
      NativeKeepsUp(cfg, before);
      var s := After(s0, NativeSchedule(before));
      AfterAppend(s0, NativeSchedule(before), [Upstream(Chunk(d)), Pull(false)]);
      AfterTwo(s, Upstream(Chunk(d)), Pull(false));
      NativeServed(s, before, d);
    }
  }

  lemma NativeEnd(s: Stack, data: seq<Value>)
    requires NativeUpToDate(s, data)
    ensures var s' := Next(Next(s, Upstream(End)), Pull(false));
            && s'.guard == Over && s'.closes == 1 && s'.releases == 1
            && |s'.frames| == |data| + 1 && s'.frames[|data|] == DoneFrame
            && forall i | 0 <= i < |data| :: s'.frames[i] == NativeData(data[i])
  {
    var s1 := Next(s, Upstream(End));
    assert s1.guard == AtChunk && s1.nativeDone && s1.latch && s1.closes == 1 && s1.inner == Running;
    assert s1.frames == s.frames + [DoneFrame];
  }

  /** When nothing fails, the consumer receives the upstream's data, in order, and [DONE]; both resources are freed. */
  lemma {:induction false} CompleteNativeRun(cfg: Config, data: seq<Value>)
    ensures var s := After(Created(Native, cfg, None), NativeSchedule(data) + [Upstream(End), Pull(false)]);
            && s.guard == Over && s.closes == 1 && s.releases == 1
            && |s.frames| == |data| + 1 && s.frames[|data|] == DoneFrame
            && forall i | 0 <= i < |data| :: s.frames[i] == NativeData(data[i])
  {
    hide After, Next, NativeUpToDate, Created, NativeSchedule;
    var s0 := Created(Native, cfg, None);
    NativeKeepsUp(cfg, data);
    AfterAppend(s0, NativeSchedule(data), [Upstream(End), Pull(false)]);
    AfterTwo(After(s0, NativeSchedule(data)), Upstream(End), Pull(false));
    NativeEnd(After(s0, NativeSchedule(data)), data);
  }

  // ----- failures -----

  /** What the consumer is told of an exception. */
  function Reason(exc: Exc): string {
    if exc.ConnectionError? then "upstream_connection_error"
    else if exc.OtherError? then "gateway_stream_error"
    else "upstream_timeout"
  }

  /** The exception that is on its way after closing: one raised by closing takes the other's place. */
  function Raised(s: Stack, exc: Exc): Exc {
    if s.closeError.Some? then s.closeError.value else exc
  }

  /** That exception ends the guard without a word. */
  predicate Silences(s: Stack, exc: Exc) {
    if s.closeError.Some? then Cuts(s.path, s.closeError.value) else exc == Cancelled(Outside)
  }

  /** The guard waits at the upstream, with nothing closed. */
  predicate Listening(s: Stack) {
    s.guard == Waiting && s.inner == Running && !s.latch && !s.nativeDone && s.closes == 0 && s.releases == 0
  }

  /** The guard ended at once, or is at its error frame. */
  predicate Told(s: Stack, s': Stack, exc: Exc) {
    && s'.closes == 1
    && if Silences(s, exc) then s'.guard == Over && s'.releases == 1 && s'.frames == s.frames
       else
         s'.guard == AtError && s'.releases == 0 && s'.latch && s'.inner == Finished
         && s'.frames == s.frames + [ErrorFrame(Reason(Raised(s, exc)))]
  }

  /** The guard sees an exception when everything below it is closed. */
  lemma Caught(s: Stack, exc: Exc)
    requires s.latch && s.inner == Finished && s.closes == 1 && s.releases == 0
    ensures var s' := GuardCatch(s, exc);
            && s'.closes == 1
            && if exc == Cancelled(Outside) || exc == Cancelled(WrapperTimer) then
                 s'.guard == Over && s'.releases == 1 && s'.frames == s.frames
               else
                 s'.guard == AtError && s'.releases == 0 && s'.latch && s'.inner == Finished
                 && s'.frames == s.frames + [ErrorFrame(Reason(exc))]
  {
    Cancellers(exc);
  }

  lemma MapperExitTold(s: Stack, exc: Exc)
    requires Listening(s) && s.path == Responses
    ensures Told(s, MapperExit(s, Some(exc)), exc)
  {
    var raised := Raised(s, exc);
    var seen := if raised == Cancelled(WrapperTimer) then DeadlineError else raised;
    var below := s.(closes := 1, inner := Finished, iter := Finished, latch := true);
    assert MapperExit(s, Some(exc)) == GuardCatch(below, seen);
    hide MapperExit, GuardCatch;
    Caught(below, seen);
  }

  lemma IterationExitTold(s: Stack, exc: Exc)
    requires Listening(s) && s.path == Native
    ensures Told(s, IterationExit(s, Some(exc)), exc)
  {
    var seen := if s.closeError.Some? then s.closeError.value
                else if exc == Cancelled(WrapperTimer) then DeadlineError else exc;
    var below := s.(closes := 1, inner := Finished, iter := Finished, latch := true);
    assert IterationExit(s, Some(exc)) == GuardCatch(below, seen);
    hide IterationExit, GuardCatch;
    Caught(below, seen);
  }

  lemma NativeExitTold(s: Stack)
    requires Listening(s) && s.path == Native
    ensures Told(s, NativeExit(s, OtherError), OtherError)
  {
    var seen := Raised(s, OtherError);
    var below := s.(closes := 1, inner := Finished, latch := true);
    assert NativeExit(s, OtherError) == GuardCatch(below, seen);
    hide NativeExit, GuardCatch;
    Caught(below, seen);
  }

  lemma FailureTold(s: Stack, a: Action, exc: Exc)
    requires Listening(s) && Fails(a, exc)
    ensures Told(s, Next(s, a), exc)
  {
    hide MapperExit, IterationExit, NativeExit, Told, Step;
    if s.path == Responses { MapperExitTold(s, exc); }
    else if a.signal.Fault? { NativeExitTold(s); }
    else { IterationExitTold(s, exc); }
  }

  lemma ErrorEnds(s: Stack)
    requires s.guard == AtError && s.latch && s.inner == Finished && s.closes == 1 && s.releases == 0
    ensures var s' := Next(Next(s, Pull(false)), Pull(false));
            s'.guard == Over && s'.closes == 1 && s'.releases == 1 && s'.frames == s.frames + [DoneFrame]
  {
  }

  /** The action by which an exception reaches a waiting guard: the upstream raises it, or handling an item does. */
  predicate Fails(a: Action, exc: Exc) {
    a == Upstream(Raise(exc)) || (a == Upstream(Fault) && exc == OtherError)
  }

  /**
   After any run, an exception at a waiting guard closes the upstream once. Then, unless it is a cancellation from
   outside or one raised by closing that no timer owns, the consumer is told the reason, gets [DONE], and the slot is
   given back.
   */
  lemma FailureReported(path: Path, cfg: Config, closeError: Option<Exc>, actions: seq<Action>, a: Action, exc: Exc)
    requires After(Created(path, cfg, closeError), actions).guard == Waiting && Fails(a, exc)
    ensures var s0 := Created(path, cfg, closeError);
            var s, now := After(s0, actions), After(s0, actions + [a]);
            var end := After(s0, actions + [a] + [Pull(false), Pull(false)]);
            if Silences(s, exc) then
              now.guard == Over && now.closes == 1 && now.releases == 1 && now.frames == s.frames
            else
              && now.frames == s.frames + [ErrorFrame(Reason(Raised(s, exc)))]
              && end.guard == Over && end.closes == 1 && end.releases == 1
              && end.frames == now.frames + [DoneFrame]
  {
    var s0 := Created(path, cfg, closeError);
    var s := After(s0, actions);
    AlwaysAccounted(path, cfg, closeError, actions);
    hide After, Next, Created, Silences, Raised, Reason;
    AfterAppend(s0, actions, [a]);
    AfterOne(s, a);
    FailureTold(s, a, exc);
    if !Silences(s, exc) {
      AfterAppend(s0, actions + [a], [Pull(false), Pull(false)]);
      AfterTwo(Next(s, a), Pull(false), Pull(false));
      ErrorEnds(Next(s, a));
    }
  }
}
