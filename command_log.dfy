/** Reading the engine log: which commands reached the context, in which
    state each shader keyword was left, which temporary textures were taken
    and given back, and which culling requests were made. */
module CommandLog {
  import opened Engine

  /** The commands of the executed command buffers, in execution order. */
  function Commands(ops: seq<Op>): seq<Command>
  {
    if ops == [] then []
    else
      Commands(ops[..|ops| - 1])
      + (match ops[|ops| - 1]
         case ExecuteCommandBuffer(c) => c
         case _ => [])
  }

  /** The state the commands leave keyword k in: the value of the last
      enable or disable of k, or None when they never touch it. */
  function KeywordState(cmds: seq<Command>, k: Keyword): Option<bool>
  {
    if cmds == [] then None
    else if cmds[|cmds| - 1].SetKeyword? && cmds[|cmds| - 1].keyword == k then Some(cmds[|cmds| - 1].enabled)
    else KeywordState(cmds[..|cmds| - 1], k)
  }

  /** The state a stretch of the log leaves keyword k in. */
  function FinalKeyword(ops: seq<Op>, k: Keyword): Option<bool>
  {
    KeywordState(Commands(ops), k)
  }

  /** Textures handed out by GetTemporary. */
  function Acquired(ops: seq<Op>): set<Texture>
  {
    if ops == [] then {}
    else Acquired(ops[..|ops| - 1]) + (if ops[|ops| - 1].GetTemporary? then {ops[|ops| - 1].texture} else {})
  }

  /** Textures given back by ReleaseTemporary. */
  function Released(ops: seq<Op>): set<Texture>
  {
    if ops == [] then {}
    else Released(ops[..|ops| - 1]) + (if ops[|ops| - 1].ReleaseTemporary? then {ops[|ops| - 1].texture} else {})
  }

  /** The shadow distances of the culling requests, in order. */
  function CullRequests(ops: seq<Op>): seq<real>
  {
    if ops == [] then []
    else CullRequests(ops[..|ops| - 1]) + (if ops[|ops| - 1].Cull? then [ops[|ops| - 1].shadowDistance] else [])
  }

  /** A stretch of the log made of shadow-pass work only: executed buffers
      and shadow-caster draws. */
  predicate ShadowWork(ops: seq<Op>)
  {
    forall i :: 0 <= i < |ops| ==> ops[i].ExecuteCommandBuffer? || ops[i].DrawShadows?
  }

  /** Commands that leave keyword k alone. */
  predicate LeavesKeyword(cmds: seq<Command>, k: Keyword)
  {
    forall i :: 0 <= i < |cmds| ==> !(cmds[i].SetKeyword? && cmds[i].keyword == k)
  }

  lemma {:induction false} CommandsAppend(a: seq<Op>, b: seq<Op>)
    ensures Commands(a + b) == Commands(a) + Commands(b)
    decreases |b|
  {
    if b == [] {
      assert a + b == a;
    } else {
      var b' := b[..|b| - 1];
      assert (a + b)[..|a + b| - 1] == a + b';
      CommandsAppend(a, b');
    }
  }

  lemma {:induction false} KeywordStateAppend(a: seq<Command>, b: seq<Command>, k: Keyword)
    ensures KeywordState(a + b, k) == if KeywordState(b, k).Some? then KeywordState(b, k) else KeywordState(a, k)
    decreases |b|
  {
    if b == [] {
      assert a + b == a;
    } else {
      var b' := b[..|b| - 1];
      assert (a + b)[..|a + b| - 1] == a + b';
      KeywordStateAppend(a, b', k);
    }
  }

  /** The keyword state after two stretches of log is the later stretch's,
      unless the later stretch never touches the keyword. */
  lemma FinalKeywordAppend(a: seq<Op>, b: seq<Op>, k: Keyword)
    ensures FinalKeyword(a + b, k) == if FinalKeyword(b, k).Some? then FinalKeyword(b, k) else FinalKeyword(a, k)
  {
    CommandsAppend(a, b);
    KeywordStateAppend(Commands(a), Commands(b), k);
  }

  // The four regrouping lemmas below let the frame proofs re-bracket a log
  // in one step rather than leaving the solver to search for it.

  /** A log that grew by one culling request and then by the rest of a
      frame in three stretches grew by the whole frame. */
  lemma FrameLogAssembles(log0: seq<Op>, log: seq<Op>, cull: Op, shadow: seq<Op>, camera: seq<Op>, releases: seq<Op>)
    requires log == log0 + [cull] + shadow + camera + releases
    ensures log == log0 + ([cull] + shadow + camera + releases)
  {
  }

  /** The same when the frame has no shadow part and releases nothing. */
  lemma UnlitFrameLogAssembles(log0: seq<Op>, log: seq<Op>, cull: Op, camera: seq<Op>)
    requires log == log0 + [cull] + camera
    ensures log == log0 + ([cull] + [] + camera + [])
  {
    assert [cull] + [] + camera + [] == [cull] + camera;
  }

  /** Regrouping three logged pieces. */
  lemma AppendAssociative3(a: seq<Op>, b: seq<Op>, c: seq<Op>)
    ensures a + b + c == a + (b + c)
  {
  }

  /** Regrouping four logged pieces. */
  lemma AppendAssociative(a: seq<Op>, b: seq<Op>, c: seq<Op>, d: seq<Op>)
    ensures a + b + c + d == a + (b + c + d)
  {
  }

  /** The effects of two consecutive stretches of log: textures taken,
      textures given back and culling requests add up, and each keyword ends
      as the later stretch leaves it, or else as the earlier one does. */
  lemma ConcatEffects(a: seq<Op>, b: seq<Op>)
    ensures Acquired(a + b) == Acquired(a) + Acquired(b) && Released(a + b) == Released(a) + Released(b)
    ensures CullRequests(a + b) == CullRequests(a) + CullRequests(b)
    ensures forall k :: FinalKeyword(a + b, k) == if FinalKeyword(b, k).Some? then FinalKeyword(b, k) else FinalKeyword(a, k)
  {
    AcquiredAppend(a, b);
    forall k ensures FinalKeyword(a + b, k) == if FinalKeyword(b, k).Some? then FinalKeyword(b, k) else FinalKeyword(a, k) {
      FinalKeywordAppend(a, b, k);
    }
  }

  /** Executing one buffer that touches no keyword takes and gives back no
      texture, culls nothing and leaves every keyword alone. */
  lemma ExecuteInert(cmds: seq<Command>)
    requires forall k :: LeavesKeyword(cmds, k)
    ensures var ops := [ExecuteCommandBuffer(cmds)];
            Acquired(ops) == {} && Released(ops) == {} && CullRequests(ops) == [] &&
            forall k :: FinalKeyword(ops, k) == None
  {
    var ops := [ExecuteCommandBuffer(cmds)];
    assert ops[..0] == [];
    forall k ensures FinalKeyword(ops, k) == None {
      assert Commands(ops) == cmds;
      LeavesKeywordState(cmds, k);
    }
  }

  lemma {:induction false} LeavesKeywordState(cmds: seq<Command>, k: Keyword)
    requires LeavesKeyword(cmds, k)
    ensures KeywordState(cmds, k) == None
    decreases |cmds|
  {
    if cmds != [] {
      LeavesKeywordState(cmds[..|cmds| - 1], k);
    }
  }

  lemma {:induction false} AcquiredAppend(a: seq<Op>, b: seq<Op>)
    ensures Acquired(a + b) == Acquired(a) + Acquired(b)
    ensures Released(a + b) == Released(a) + Released(b)
    ensures CullRequests(a + b) == CullRequests(a) + CullRequests(b)
    decreases |b|
  {
    if b == [] {
      assert a + b == a;
    } else {
      var b' := b[..|b| - 1];
      assert (a + b)[..|a + b| - 1] == a + b';
      AcquiredAppend(a, b');
    }
  }

  /** Shadow-pass work takes no texture, gives none back and culls nothing. */
  lemma {:induction false} ShadowWorkIsInert(ops: seq<Op>)
    requires ShadowWork(ops)
    ensures Acquired(ops) == {} && Released(ops) == {} && CullRequests(ops) == []
    decreases |ops|
  {
    if ops != [] {
      ShadowWorkIsInert(ops[..|ops| - 1]);
    }
  }

  /** Shadow-pass work extended by one executed buffer that touches no
      keyword and one shadow-caster draw is still shadow-pass work that
      touches no keyword. */
  lemma ShadowStep(prev: seq<Op>, cmds: seq<Command>, draw: Op)
    requires ShadowWork(prev) && forall kw :: FinalKeyword(prev, kw) == None
    requires forall kw :: LeavesKeyword(cmds, kw)
    requires draw.DrawShadows?
    ensures ShadowWork(prev + [ExecuteCommandBuffer(cmds), draw])
    ensures forall kw :: FinalKeyword(prev + [ExecuteCommandBuffer(cmds), draw], kw) == None
  {
    var exec := [ExecuteCommandBuffer(cmds)];
    var step := exec + [draw];
    assert prev + [ExecuteCommandBuffer(cmds), draw] == prev + step;
    forall kw ensures FinalKeyword(prev + step, kw) == None {
      FinalKeywordAppend(prev, step, kw);
      FinalKeywordAppend(exec, [draw], kw);
      assert Commands(exec) == cmds;
      LeavesKeywordState(cmds, kw);
    }
  }

  /** The viewport the commands leave in force, if they set one. */
  function ViewportState(cmds: seq<Command>): Option<Rect>
  {
    if cmds == [] then None
    else if cmds[|cmds| - 1].SetViewport? then Some(cmds[|cmds| - 1].viewport)
    else ViewportState(cmds[..|cmds| - 1])
  }

  /** The scissor rectangle the commands leave enabled; None when they
      disable scissoring last or never touch it. */
  function ScissorState(cmds: seq<Command>): Option<Rect>
  {
    if cmds == [] then None
    else if cmds[|cmds| - 1].EnableScissorRect? then Some(cmds[|cmds| - 1].scissor)
    else if cmds[|cmds| - 1].DisableScissorRect? then None
    else ScissorState(cmds[..|cmds| - 1])
  }

  /** A shadow pass that takes a texture, executes a setup buffer that
      touches no keyword, does shadow work and executes a last buffer: it
      takes exactly that texture, gives none back, culls nothing, and leaves
      each keyword as the last buffer does. */
  lemma {:induction false} ShadowPassEffects(t: Texture, size: int, setup: seq<Command>,
                                             loop: seq<Op>, last: seq<Command>)
    requires ShadowWork(loop) && forall kw :: FinalKeyword(loop, kw) == None
    requires forall kw :: LeavesKeyword(setup, kw)
    ensures var frame := [GetTemporary(t, size), ExecuteCommandBuffer(setup)] + loop + [ExecuteCommandBuffer(last)];
            Acquired(frame) == {t} && Released(frame) == {} && CullRequests(frame) == [] &&
            forall kw :: FinalKeyword(frame, kw) == KeywordState(last, kw)
  {
    var take := [GetTemporary(t, size)];
    var exec := [ExecuteCommandBuffer(setup)];
    var tail := [ExecuteCommandBuffer(last)];
    var frame := [GetTemporary(t, size), ExecuteCommandBuffer(setup)] + loop + tail;
    assert frame == take + exec + loop + tail;
    ShadowWorkIsInert(loop);
    assert ShadowWork(exec) && ShadowWork(tail);
    ShadowWorkIsInert(exec);
    ShadowWorkIsInert(tail);
    assert take[..0] == [];
    AcquiredAppend(take, exec);
    AcquiredAppend(take + exec, loop);
    AcquiredAppend(take + exec + loop, tail);
    forall kw ensures FinalKeyword(frame, kw) == KeywordState(last, kw) {
      FinalKeywordAppend(take + exec + loop, tail, kw);
      FinalKeywordAppend(take + exec, loop, kw);
      FinalKeywordAppend(take, exec, kw);
      assert Commands(exec) == setup;
      assert Commands(tail) == last;
      LeavesKeywordState(setup, kw);
    }
  }
}
