/** What the upstream sends to the generator stack is what the stack reads, in every run. */
module Upstream {
  import opened Wrappers
  import opened Values
  import opened StreamMapper
  import opened GeneratorStack

  /** The events that the upstream delivered to an outstanding pull. */
  function Sent(s: Stack, actions: seq<Action>): seq<Event> {
    if actions == [] then []
    else
      var before, a := actions[..|actions| - 1], actions[|actions| - 1];
      Sent(s, before) +
      if a.Upstream? && a.signal.Event? && s.path == Responses && After(s, before).guard == Waiting then [a.signal.e]
      else []
  }

  /** The data that the upstream delivered to an outstanding pull. */
  function Supplied(s: Stack, actions: seq<Action>): seq<Value> {
    if actions == [] then []
    else
      var before, a := actions[..|actions| - 1], actions[|actions| - 1];
      Supplied(s, before) +
      if a.Upstream? && a.signal.Chunk? && s.path == Native && After(s, before).guard == Waiting then [a.signal.data]
      else []
  }

  /** Whatever a layer does on its way out, it has read what it has read. */
  predicate SameInput(s: Stack, s': Stack) {
    s'.read == s.read && s'.received == s.received && s'.path == s.path
  }

  lemma CatchReads(s: Stack, exc: Exc)
    ensures SameInput(s, GuardFinally(s)) && SameInput(s, GuardCatch(s, exc))
  {
  }

  lemma AfterIterationReads(s: Stack, exc: Option<Exc>)
    ensures SameInput(s, AfterIteration(s, exc))
  {
    var (s', err) := CloseNative(s);
    assert SameInput(s, s');
    hide GuardCatch, GuardFinally, CloseNative;
    CatchReads(s, OtherError);
    if exc.Some? {
      CatchReads(s, exc.value);
      CatchReads(s', Escaping(err, exc).value);
    }
  }

  lemma IterationExitReads(s: Stack, exc: Option<Exc>)
    ensures SameInput(s, IterationExit(s, exc))
  {
    var (s', err) := CloseWrapper(s.(iter := Finished));
    assert SameInput(s, s');
    hide AfterIteration, CloseWrapper;
    AfterIterationReads(s', Escaping(err, if exc == Some(Cancelled(WrapperTimer)) then Some(DeadlineError) else exc));
  }

  lemma MapperExitReads(s: Stack, exc: Option<Exc>)
    ensures SameInput(s, MapperExit(s, exc))
  {
    var (s', err) := MapperFinally(s);
    assert SameInput(s, s');
    hide IterationExit, MapperFinally;
    IterationExitReads(s', Escaping(err, exc));
  }

  lemma NativeExitReads(s: Stack, exc: Exc)
    ensures SameInput(s, NativeExit(s, exc))
  {
    var (s', err) := CloseNative(s);
    assert SameInput(s, s');
    hide GuardCatch, CloseNative;
    CatchReads(s', Escaping(err, Some(exc)).value);
  }

  lemma StartReads(s: Stack, expired: bool)
    ensures SameInput(s, Start(s, expired))
  {
    if expired {
      var begun := s.(guard := Waiting, iter := Running, inner := if s.path == Native then Running else Unstarted);
      var (s', err) := CloseWrapper(begun);
      assert SameInput(s, s');
      hide AfterIteration, CloseWrapper;
      AfterIterationReads(s'.(iter := Finished), Escaping(err, Some(DeadlineError)));
    }
  }

  lemma DeliverReads(s: Stack, signal: Signal)
    requires s.guard == Waiting
    ensures var s' := Deliver(s, signal);
            && s'.path == s.path
            && s'.read == s.read + (if signal.Event? && s.path == Responses then [signal.e] else [])
            && s'.received == s.received + (if signal.Chunk? && s.path == Native then [signal.data] else [])
  {
    hide MapperExit, IterationExit, NativeExit, Step;
    match signal
    case End => MapperExitReads(s, None); IterationExitReads(s, None);
    case Raise(exc) => MapperExitReads(s, Some(exc)); IterationExitReads(s, Some(exc));
    case Fault => MapperExitReads(s, Some(OtherError)); NativeExitReads(s, OtherError);
    case _ =>
  }

  lemma NextReads(s: Stack, a: Action)
    ensures var s' := Next(s, a);
            && s'.path == s.path
            && s'.read == s.read + (if a.Upstream? && a.signal.Event? && s.path == Responses && s.guard == Waiting
                                    then [a.signal.e] else [])
            && s'.received == s.received + (if a.Upstream? && a.signal.Chunk? && s.path == Native && s.guard == Waiting
                                            then [a.signal.data] else [])
  {
    hide GuardFinally, MapperExit, Start, Deliver;
    CatchReads(s, OtherError);
    MapperExitReads(s, None);
    if a.Pull? { StartReads(s, a.expired); }
    if a.Upstream? && s.guard == Waiting { DeliverReads(s, a.signal); }
  }

  /** In every run, what was read is what was sent: nothing is dropped, doubled or put out of order. */
  lemma {:induction false} AllRead(s: Stack, actions: seq<Action>)
    requires s.read == [] && s.received == []
    ensures After(s, actions).read == Sent(s, actions) && After(s, actions).received == Supplied(s, actions)
    ensures After(s, actions).path == s.path
  {
    if actions != [] {
      var before := actions[..|actions| - 1];
      AllRead(s, before);
      NextReads(After(s, before), actions[|actions| - 1]);
      hide Next;
    }
  }
}
