/**
  A driver over all files of one request: select a strategy per file, run its
  action, then consult the fallback once. The plugin's own main loop is not
  part of this model; this driver only serves to state how the context flag
  accumulates across files and when the fallback fires.
 */
module Run {
  import opened Strategies
  import opened ConcreteStrategies
  import opened Selector

  /** The strategy selected for `f` is one whose action sets `hasLocalWorkload`. */
  predicate SelectsLocalWorkload(ss: seq<Strategy>, f: FileDescriptor, ctx: GenerationContext) {
    var o := FirstHandling(ss, f, ctx);
    o.Some? && o.value.SetsLocalWorkload()
  }

  /** Number of files the selected strategies produce for `files`. */
  function SelectedArtifacts(ss: seq<Strategy>, files: seq<FileDescriptor>, ctx: GenerationContext): nat {
    if files == [] then 0
    else
      var last := files[|files| - 1];
      SelectedArtifacts(ss, files[..|files| - 1], ctx)
      + match FirstHandling(ss, last, ctx)
        case None => 0
        case Some(s) => s.ArtifactCount(last)
  }

  /**
    With the default strategies, a file leads to a local workload exactly when
    it is not remote and either declares services or is marked local.
   */
  lemma DefaultSelectsLocalWorkload(f: FileDescriptor, ctx: GenerationContext)
    ensures SelectsLocalWorkload(SortByPriority(CreateDefaultStrategies()), f, ctx) <==>
      !ctx.IsRemote(f) && (f.services != [] || ctx.IsLocal(f))
  {
    DefaultSelection(f, ctx);
  }

  /** The flag after processing `files` in order, starting from `start`. */
  function FlagAfter(ss: seq<Strategy>, files: seq<FileDescriptor>, ctx: GenerationContext, start: bool): bool {
    if files == [] then start
    else FlagAfter(ss, files[..|files| - 1], ctx, start) || SelectsLocalWorkload(ss, files[|files| - 1], ctx)
  }

  /** The fallback decision taken once `files` have been processed. */
  predicate FallbackAfter(ss: seq<Strategy>, files: seq<FileDescriptor>, ctx: GenerationContext, start: bool) {
    |ctx.remoteServices| > 0 && !FlagAfter(ss, files, ctx, start)
  }

  /** The flag ends true iff it started true or some file selected a workload-setting strategy. */
  lemma {:induction false} FlagAfterIsAnyLocalWorkload(ss: seq<Strategy>, files: seq<FileDescriptor>,
                                                       ctx: GenerationContext, start: bool)
    ensures FlagAfter(ss, files, ctx, start) ==
      (start || exists i :: 0 <= i < |files| && SelectsLocalWorkload(ss, files[i], ctx))
  {
    if files != [] {
      var n := |files| - 1;
      var init := files[..n];
      FlagAfterIsAnyLocalWorkload(ss, init, ctx, start);
      if exists i :: 0 <= i < |files| && SelectsLocalWorkload(ss, files[i], ctx) {
        var i :| 0 <= i < |files| && SelectsLocalWorkload(ss, files[i], ctx);
        if i < n {
          assert init[i] == files[i];
        }
      }
      if exists i :: 0 <= i < |init| && SelectsLocalWorkload(ss, init[i], ctx) {
        var i :| 0 <= i < |init| && SelectsLocalWorkload(ss, init[i], ctx);
        assert files[i] == init[i];
      }
    }
  }

  /**
    The outcome of a run, the final flag and the fallback decision, does not
    depend on the order in which the files are processed.
   */
  lemma RunOutcomeIgnoresFileOrder(ss: seq<Strategy>, files: seq<FileDescriptor>,
                                   files': seq<FileDescriptor>, ctx: GenerationContext, start: bool)
    requires multiset(files) == multiset(files')
    ensures FlagAfter(ss, files, ctx, start) == FlagAfter(ss, files', ctx, start)
    ensures FallbackAfter(ss, files, ctx, start) == FallbackAfter(ss, files', ctx, start)
  {
    FlagAfterIsAnyLocalWorkload(ss, files, ctx, start);
    FlagAfterIsAnyLocalWorkload(ss, files', ctx, start);
    forall g: seq<FileDescriptor>, h: seq<FileDescriptor>, i
      | multiset(g) == multiset(h) && 0 <= i < |g| && SelectsLocalWorkload(ss, g[i], ctx)
      ensures exists k :: 0 <= k < |h| && SelectsLocalWorkload(ss, h[k], ctx)
    {
      assert g[i] in multiset(h);
      var k :| 0 <= k < |h| && h[k] == g[i];
    }
  }

  /**
    Processes every file, then decides the fallback once. The flag ends true
    exactly when it started true or some file selected EmptyLocalWorkload or
    LocalService; the fallback fires exactly when remote services exist and
    the flag is still false, and then adds one client workload at the end.
   */
  method RunGeneration(selector: StrategySelector, files: seq<FileDescriptor>,
                       ctx: GenerationContext, em: Emitter)
    returns (out: seq<GeneratedFile>, fallback: bool)
    modifies ctx
    ensures ctx.hasLocalWorkload == FlagAfter(selector.strategies, files, ctx, old(ctx.hasLocalWorkload))
    ensures fallback == FallbackAfter(selector.strategies, files, ctx, old(ctx.hasLocalWorkload))
    ensures ctx.hasLocalWorkload == (old(ctx.hasLocalWorkload) ||
      exists i :: 0 <= i < |files| && SelectsLocalWorkload(selector.strategies, files[i], ctx))
    ensures fallback == ShouldGenerate(ctx)
    ensures !old(ctx.hasLocalWorkload) ==>
      (fallback <==>
        |ctx.remoteServices| > 0 &&
        forall i :: 0 <= i < |files| ==> !SelectsLocalWorkload(selector.strategies, files[i], ctx))
    ensures |out| == SelectedArtifacts(selector.strategies, files, ctx) + (if fallback then 1 else 0)
    ensures fallback ==> out[|out| - 1] == em.clientWorkload(ctx.remoteServices)
  {
    out := [];
    for i := 0 to |files|
      invariant ctx.hasLocalWorkload == FlagAfter(selector.strategies, files[..i], ctx, old(ctx.hasLocalWorkload))
      invariant |out| == SelectedArtifacts(selector.strategies, files[..i], ctx)
    {
      assert files[..i + 1][..i] == files[..i];
      var s := selector.SelectStrategy(files[i], ctx);
      if s.Some? {
        var generated := Generate(s.value, files[i], ctx, em);
        out := out + generated;
      }
    }
    assert files[..|files|] == files;
    FlagAfterIsAnyLocalWorkload(selector.strategies, files, ctx, old(ctx.hasLocalWorkload));
    fallback := ShouldGenerate(ctx);
    if fallback {
      out := out + [GenerateDefaultWorkload(ctx, em)];
    }
  }
}
