/** The index bookkeeping of the mapper in every reachable state, missing call ids included. */
module CallIndexes {
  import opened Wrappers
  import opened StreamMapper

  ghost predicate Taken(m: map<string, nat>, i: nat) {
    exists k :: k in m && m[k] == i
  }

  /** A bijection from the keys onto 0..|m|-1. */
  ghost predicate Dense(m: map<string, nat>) {
    && (forall k | k in m :: m[k] < |m|)
    && (forall k, l | k in m && l in m && m[k] == m[l] :: k == l)
    && (forall i: nat | i < |m| :: Taken(m, i))
  }

  /** `b` has every entry of `a`, unchanged. */
  ghost predicate Extends(a: map<string, nat>, b: map<string, nat>) {
    |a| <= |b| && forall k | k in a :: k in b && b[k] == a[k]
  }

  lemma WithCallKeepsDense(m: map<string, nat>, callId: Option<string>)
    requires Dense(m)
    ensures Dense(WithCall(m, callId)) && Extends(m, WithCall(m, callId))
    ensures IndexOf(m, callId) < |WithCall(m, callId)|
    ensures var key := CallKey(callId, |m|);
            key in WithCall(m, callId) && WithCall(m, callId)[key] == IndexOf(m, callId)
  {
    var key := CallKey(callId, |m|);
    if key !in m {
      NewKeyKeepsDense(m, key);
    }
  }

  lemma NewKeyKeepsDense(m: map<string, nat>, key: string)
    requires Dense(m) && key !in m
    ensures var m' := m[key := |m|]; |m'| == |m| + 1 && Dense(m')
  {
    var m' := m[key := |m|];
    assert m'.Keys == m.Keys + {key};
    assert |m'| == |m'.Keys| && |m| == |m.Keys|;
    forall i: nat | i < |m'| ensures Taken(m', i) {
      if i < |m| {
        assert Taken(m, i);
        var k :| k in m && m[k] == i;
        assert k in m' && m'[k] == i;
      } else {
        assert key in m' && m'[key] == i;
      }
    }
  }

  lemma StepKeepsDense(cfg: Config, s: State, e: Event)
    requires Dense(s.callIndexes)
    ensures var (s', chunks) := Step(cfg, s, e);
            && Dense(s'.callIndexes)
            && Extends(s.callIndexes, s'.callIndexes)
            && (forall c | c in chunks && c.ToolCallChunk? :: c.index < |s'.callIndexes|)
  {
    if !s.returned {
      if AddsCall(e) {
        WithCallKeepsDense(s.callIndexes, AnnouncementOf(e.item).id);
      } else if e.ArgumentsDelta? {
        WithCallKeepsDense(s.callIndexes, CallOf(s.functionItems, e));
      }
      StepIsHandle(cfg, s, e);
      hide Dense, Extends, Step, WithCall, IndexOf, CallKey;
    }
  }

  /** Every reachable index map is dense, and every emitted index belongs to it. */
  lemma {:induction false} AlwaysDense(cfg: Config, es: seq<Event>)
    ensures Dense(Reached(cfg, es).callIndexes)
    ensures forall c | c in Output(cfg, es) && c.ToolCallChunk? :: c.index < |Reached(cfg, es).callIndexes|
  {
    if es != [] {
      AlwaysDense(cfg, es[..|es| - 1]);
      StepKeepsDense(cfg, Reached(cfg, es[..|es| - 1]), es[|es| - 1]);
    }
  }

  /** No entry ever changes. */
  lemma {:induction false} EntriesNeverChange(cfg: Config, es: seq<Event>, i: nat)
    requires i <= |es|
    ensures Extends(Reached(cfg, es[..i]).callIndexes, Reached(cfg, es).callIndexes)
  {
    if i == |es| {
      assert es[..i] == es;
    } else {
      var before := es[..|es| - 1];
      assert before[..i] == es[..i];
      EntriesNeverChange(cfg, before, i);
      AlwaysDense(cfg, before);
      StepKeepsDense(cfg, Reached(cfg, before), es[|es| - 1]);
    }
  }
}
