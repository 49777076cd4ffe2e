/** The shape of the mapper's output, for every event sequence. */
module StreamGrammar {
  import opened StreamMapper

  /** The events before the first terminal one. */
  function Live(es: seq<Event>): (r: seq<Event>)
    ensures |r| <= |es| && r == es[..|r|]
    ensures forall e | e in r :: !Terminal(e)
    ensures |r| < |es| ==> Terminal(es[|r|])
  {
    if es == [] then []
    else
      var before := es[..|es| - 1];
      var live := Live(before);
      if |live| == |before| && !Terminal(es[|es| - 1]) then es else live
  }

  lemma LiveInit(es: seq<Event>)
    requires es != [] && Live(es) == es
    ensures Live(es[..|es| - 1]) == es[..|es| - 1]
  {
  }

  predicate Delta(c: Chunk) {
    c.ContentChunk? || c.RefusalChunk? || c.ToolCallChunk?
  }

  /** The role chunk and then deltas. */
  predicate Open(out: seq<Chunk>) {
    && out != []
    && out[0] == RoleChunk
    && forall i | 1 <= i < |out| :: Delta(out[i])
  }

  /** The chunks that end a stream; the last one is the only [DONE]. */
  predicate Closing(tail: seq<Chunk>) {
    || (|tail| == 2 && (tail[0].FinalChunk? || tail[0].ErrorChunk?) && tail[1] == DoneChunk)
    || (|tail| == 3 && tail[0].FinalChunk? && tail[1].UsageChunk? && tail[2] == DoneChunk)
  }

  /** An open stream of `k` chunks followed by one closing group. */
  predicate ClosedAt(out: seq<Chunk>, k: nat) {
    k <= |out| && Open(out[..k]) && Closing(out[k..])
  }

  ghost predicate Closed(out: seq<Chunk>) {
    exists k: nat :: ClosedAt(out, k)
  }

  lemma HandleShape(cfg: Config, s: State, e: Event)
    requires !s.returned
    ensures var (s', chunks) := Handle(cfg, s, e);
            && s'.sentRole == s.sentRole
            && s'.returned == Terminal(e)
            && (if Terminal(e) then Closing(chunks) else forall c | c in chunks :: Delta(c))
  {
  }

  /** Nothing, an open stream, or a closed one: closed exactly when a terminal event was among the events. */
  lemma {:induction false} OutputGrammar(cfg: Config, es: seq<Event>)
    ensures es == [] ==> Output(cfg, es) == []
    ensures es != [] && |Live(es)| == |es| ==> Open(Output(cfg, es))
    ensures |Live(es)| < |es| ==> Closed(Output(cfg, es))
    ensures Reached(cfg, es).sentRole == (es != [])
    ensures Reached(cfg, es).returned == (|Live(es)| < |es|)
  {
    if es != [] {
      var before, e := es[..|es| - 1], es[|es| - 1];
      OutputGrammar(cfg, before);
      StepGrammar(cfg, Reached(cfg, before), Output(cfg, before), e);
    }
  }

  /** `out` is what a mapper in state `s` may have yielded. */
  ghost predicate Yielded(s: State, out: seq<Chunk>) {
    if s.returned then s.sentRole && Closed(out) else if s.sentRole then Open(out) else out == []
  }

  lemma StepGrammar(cfg: Config, s: State, out: seq<Chunk>, e: Event)
    requires Yielded(s, out)
    ensures var (s', chunks) := Step(cfg, s, e);
            s'.sentRole && s'.returned == (s.returned || Terminal(e)) && Yielded(s', out + chunks)
  {
    if s.returned {
      hide Handle, Closed;
      assert out + [] == out;
    } else {
      StepIsHandle(cfg, s, e);
      HandleShape(cfg, s.(sentRole := true), e);
      hide Handle, Step, Closed, Open, Closing, Delta;
      var (s', chunks) := Handle(cfg, s.(sentRole := true), e);
      var begun := if s.sentRole then out else [RoleChunk];
      RoleOpens();
      if Terminal(e) { ClosingCloses(begun, chunks); } else { DeltasKeepOpen(begun, chunks); }
      Regroup(out, s.sentRole, chunks);
    }
  }

  lemma Regroup(out: seq<Chunk>, sentRole: bool, chunks: seq<Chunk>)
    requires !sentRole ==> out == []
    ensures out + ((if sentRole then [] else [RoleChunk]) + chunks) == (if sentRole then out else [RoleChunk]) + chunks
  {
  }

  lemma RoleOpens()
    ensures Open([RoleChunk])
  {
  }

  lemma DeltasKeepOpen(out: seq<Chunk>, chunks: seq<Chunk>)
    requires Open(out) && forall c | c in chunks :: Delta(c)
    ensures Open(out + chunks)
  {
  }

  lemma ClosingCloses(out: seq<Chunk>, chunks: seq<Chunk>)
    requires Open(out) && Closing(chunks)
    ensures Closed(out + chunks)
  {
    assert (out + chunks)[..|out|] == out && (out + chunks)[|out|..] == chunks;
    assert ClosedAt(out + chunks, |out|);
  }

  /** At most one [DONE], and only as the very last chunk; it is there iff a terminal event was. */
  lemma DoneIsLast(cfg: Config, es: seq<Event>)
    ensures var out := Output(cfg, es);
            && (forall i | 0 <= i < |out| && out[i] == DoneChunk :: i == |out| - 1)
            && (DoneChunk in out <==> exists e :: e in es && Terminal(e))
  {
    OutputGrammar(cfg, es);
    var out := Output(cfg, es);
    hide Run, ClosedAt, Open;
    if |Live(es)| < |es| {
      var k: nat :| ClosedAt(out, k);
      ClosedDone(out, k);
      assert es[|Live(es)|] in es;
    } else {
      assert Live(es) == es;
      OpenNotDone(out);
    }
  }

  lemma OpenNotDone(out: seq<Chunk>)
    requires out == [] || Open(out)
    ensures DoneChunk !in out
  {
  }

  lemma ClosedDone(out: seq<Chunk>, k: nat)
    requires ClosedAt(out, k)
    ensures forall i | 0 <= i < |out| :: out[i] == DoneChunk <==> i == |out| - 1
    ensures DoneChunk in out
  {
    forall i | 0 <= i < |out| ensures out[i] == DoneChunk <==> i == |out| - 1 {
      if i < k { assert out[..k][i] == out[i]; } else { assert out[k..][i - k] == out[i]; }
    }
    assert out[|out| - 1] == DoneChunk;
  }

  /** More events only extend the output. */
  lemma {:induction false} PrefixMonotone(cfg: Config, es: seq<Event>, i: nat)
    requires i <= |es|
    ensures Output(cfg, es[..i]) <= Output(cfg, es)
  {
    if i == |es| {
      assert es[..i] == es;
    } else {
      assert es[..|es| - 1][..i] == es[..i];
      PrefixMonotone(cfg, es[..|es| - 1], i);
    }
  }

  /** Nothing after the first terminal event matters. */
  lemma TerminalIsFinal(cfg: Config, es: seq<Event>, more: seq<Event>)
    requires |Live(es)| < |es|
    ensures Run(cfg, es + more) == Run(cfg, es)
  {
    OutputGrammar(cfg, es);
    assert (es + more)[..|es|] == es;
    AfterReturn(cfg, es + more, |es|);
  }
}
