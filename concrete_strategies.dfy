/**
  The four concrete generation strategies as one closed datatype, each with
  its priority, its name, its predicate and its action, plus the fallback
  decision and the default strategy list.
 */
module ConcreteStrategies {
  import opened Strategies

  /**
    The template renderers the actions call. Their text is not modelled: each
    is an arbitrary total function of the arguments it receives.
   */
  datatype Emitter = Emitter(
    emptyLocalWorkload: (string, string, seq<RemoteServiceInfo>) -> GeneratedFile,
    remoteExtensionsOnly: (string, string, string, seq<MethodDescriptor>) -> GeneratedFile,
    localActorCode: (string, string, string, seq<MethodDescriptor>, seq<RemoteServiceInfo>) -> string,
    clientWorkload: seq<RemoteServiceInfo> -> GeneratedFile,
    toSnakeCase: string -> string)

  datatype Strategy = EmptyLocalWorkload | RemoteService | LocalService | DefaultClientWorkload
  {
    /** Lower numbers are tried first. */
    function Priority(): int {
      match this
      case EmptyLocalWorkload => 1
      case RemoteService => 2
      case LocalService => 3
      case DefaultClientWorkload => 999
    }

    /** Used only in diagnostics. */
    function Name(): string {
      match this
      case EmptyLocalWorkload => "EmptyLocalWorkload"
      case RemoteService => "RemoteService"
      case LocalService => "LocalService"
      case DefaultClientWorkload => "DefaultClientWorkload"
    }

    predicate CanHandle(f: FileDescriptor, ctx: GenerationContext) {
      match this
      case EmptyLocalWorkload => !ctx.IsRemote(f) && !ctx.HasServices(f) && ctx.IsLocal(f)
      case RemoteService => ctx.IsRemote(f)
      case LocalService => !ctx.IsRemote(f) && ctx.HasServices(f)
      case DefaultClientWorkload => false
    }

    /** Whether this strategy's action sets `hasLocalWorkload`. */
    predicate SetsLocalWorkload() {
      this == EmptyLocalWorkload || this == LocalService
    }

    /** How many files this strategy's action returns for `f`. */
    function ArtifactCount(f: FileDescriptor): nat {
      match this
      case EmptyLocalWorkload => 1
      case RemoteService => |f.services|
      case LocalService => |f.services|
      case DefaultClientWorkload => 0
    }
  }

  lemma PrioritiesAreFixed()
    ensures EmptyLocalWorkload.Priority() == 1 && RemoteService.Priority() == 2
    ensures LocalService.Priority() == 3 && DefaultClientWorkload.Priority() == 999
    ensures forall s: Strategy, t: Strategy :: s.Priority() == t.Priority() ==> s == t
  {
  }

  /**
    The predicates partition the files: EmptyLocalWorkload and LocalService
    never both match, a remote file matches neither of them, and the fallback
    strategy matches nothing.
   */
  lemma PredicatesAreExclusive(f: FileDescriptor, ctx: GenerationContext)
    ensures !(EmptyLocalWorkload.CanHandle(f, ctx) && LocalService.CanHandle(f, ctx))
    ensures ctx.IsRemote(f) ==> !EmptyLocalWorkload.CanHandle(f, ctx) && !LocalService.CanHandle(f, ctx)
    ensures !DefaultClientWorkload.CanHandle(f, ctx)
  {
  }

  /**
    RemoteService looks only at the remote catalog: package, services, the
    local set and the separator style of the name do not matter.
   */
  lemma RemoteServiceDependsOnlyOnCatalog(f: FileDescriptor, ctx: GenerationContext,
                                          g: FileDescriptor, ctx': GenerationContext)
    requires SeparatorEquivalent(f.name, g.name)
    requires ctx.remoteFileToActrType.Keys == ctx'.remoteFileToActrType.Keys
    ensures RemoteService.CanHandle(f, ctx) == RemoteService.CanHandle(g, ctx')
  {
    NormalizeEqualIffSeparatorEquivalent(f.name, g.name);
  }

  /** Name of the file LocalService writes for service `serviceName`. */
  function ActorFileName(package: string, serviceName: string, em: Emitter): string {
    em.toSnakeCase(if package != "" then package else serviceName) + "_service_actor.py"
  }

  /**
    The actor file name ends in `_service_actor.py`; with a non-empty package
    it does not depend on the service, so all services of such a file get the
    same name, and with an empty package it comes from the service's name.
   */
  lemma ActorFileNameShape(package: string, s1: string, s2: string, em: Emitter)
    ensures var n := ActorFileName(package, s1, em);
      |n| >= 17 && n[|n| - 17..] == "_service_actor.py"
    ensures package != "" ==> ActorFileName(package, s1, em) == ActorFileName(package, s2, em)
    ensures package == "" && em.toSnakeCase(s1) != em.toSnakeCase(s2) ==>
      ActorFileName(package, s1, em) != ActorFileName(package, s2, em)
  {
  }

  /** EmptyLocalWorkloadStrategy.generate: one workload shell; marks a local workload. */
  method GenerateEmptyLocalWorkload(f: FileDescriptor, ctx: GenerationContext, em: Emitter)
    returns (files: seq<GeneratedFile>)
    modifies ctx
    ensures files == [em.emptyLocalWorkload(f.package, f.name, ctx.remoteServices)]
    ensures ctx.hasLocalWorkload
  {
    var output := em.emptyLocalWorkload(f.package, f.name, ctx.remoteServices);
    ctx.hasLocalWorkload := true;
    files := [GeneratedFile(output.name, output.content)];
  }

  /**
    RemoteServiceStrategy.generate: one extensions file per service, in
    service order (none for a file without services); the context is untouched.
   */
  method GenerateRemoteService(f: FileDescriptor, ctx: GenerationContext, em: Emitter)
    returns (files: seq<GeneratedFile>)
    ensures |files| == |f.services|
    ensures forall i :: 0 <= i < |files| ==>
      files[i] == em.remoteExtensionsOnly(f.package, f.name, f.services[i].name, f.services[i].methods)
  {
    files := [];
    for i := 0 to |f.services|
      invariant |files| == i
      invariant forall j :: 0 <= j < i ==>
        files[j] == em.remoteExtensionsOnly(f.package, f.name, f.services[j].name, f.services[j].methods)
    {
      var service := f.services[i];
      var output := em.remoteExtensionsOnly(f.package, f.name, service.name, service.methods);
      files := files + [GeneratedFile(output.name, output.content)];
    }
  }

  /**
    LocalServiceStrategy.generate: one actor file per service, in service
    order, named from the package (or, without a package, from the service);
    marks a local workload even when the file has no services.
   */
  method GenerateLocalService(f: FileDescriptor, ctx: GenerationContext, em: Emitter)
    returns (files: seq<GeneratedFile>)
    modifies ctx
    ensures |files| == |f.services|
    ensures forall i :: 0 <= i < |files| ==>
      files[i] == GeneratedFile(
        ActorFileName(f.package, f.services[i].name, em),
        em.localActorCode(f.package, f.name, f.services[i].name, f.services[i].methods, ctx.remoteServices))
    ensures ctx.hasLocalWorkload
  {
    files := [];
    for i := 0 to |f.services|
      invariant |files| == i
      invariant forall j :: 0 <= j < i ==>
        files[j] == GeneratedFile(
          ActorFileName(f.package, f.services[j].name, em),
          em.localActorCode(f.package, f.name, f.services[j].name, f.services[j].methods, ctx.remoteServices))
    {
      var service := f.services[i];
      var output := em.localActorCode(f.package, f.name, service.name, service.methods, ctx.remoteServices);
      var packageSnake := if f.package != "" then em.toSnakeCase(f.package) else em.toSnakeCase(service.name);
      var fileName := packageSnake + "_service_actor.py";
      files := files + [GeneratedFile(fileName, output)];
    }
    ctx.hasLocalWorkload := true;
  }

  /**
    The strategy's action, dispatched on the variant. It sets the flag exactly
    for EmptyLocalWorkload and LocalService and never clears it.
   */
  method Generate(s: Strategy, f: FileDescriptor, ctx: GenerationContext, em: Emitter)
    returns (files: seq<GeneratedFile>)
    modifies ctx
    ensures |files| == s.ArtifactCount(f)
    ensures ctx.hasLocalWorkload == (old(ctx.hasLocalWorkload) || s.SetsLocalWorkload())
  {
    match s
    case EmptyLocalWorkload =>
      files := GenerateEmptyLocalWorkload(f, ctx, em);
    case RemoteService =>
      files := GenerateRemoteService(f, ctx, em);
    case LocalService =>
      files := GenerateLocalService(f, ctx, em);
    case DefaultClientWorkload =>
      files := [];
  }

  /**
    DefaultClientWorkloadStrategy.should_generate: the fallback is due exactly
    when remote services are consumed and no local workload was produced.
   */
  predicate ShouldGenerate(ctx: GenerationContext)
    reads ctx
    ensures ShouldGenerate(ctx) ==> ctx.remoteServices != []
    ensures ctx.hasLocalWorkload ==> !ShouldGenerate(ctx)
  {
    |ctx.remoteServices| > 0 && !ctx.hasLocalWorkload
  }

  /** DefaultClientWorkloadStrategy.generate_default_workload. */
  function GenerateDefaultWorkload(ctx: GenerationContext, em: Emitter): (g: GeneratedFile)
    ensures g == em.clientWorkload(ctx.remoteServices)
  {
    var output := em.clientWorkload(ctx.remoteServices);
    GeneratedFile(output.name, output.content)
  }

  /**
    create_default_strategies: the three per-file strategies, without the
    fallback, already in priority order.
   */
  function CreateDefaultStrategies(): (ss: seq<Strategy>)
    ensures |ss| == 3
    ensures EmptyLocalWorkload in ss && RemoteService in ss && LocalService in ss
    ensures DefaultClientWorkload !in ss
    ensures forall i, j :: 0 <= i < j < |ss| ==> ss[i].Priority() < ss[j].Priority()
  {
    [EmptyLocalWorkload, RemoteService, LocalService]
  }

  /** A file that is not remote, not local and has no services matches no default strategy. */
  lemma UnclassifiedFileMatchesNothing(f: FileDescriptor, ctx: GenerationContext)
    requires !ctx.IsRemote(f) && !ctx.IsLocal(f) && f.services == []
    ensures forall s :: s in CreateDefaultStrategies() ==> !s.CanHandle(f, ctx)
  {
  }
}
