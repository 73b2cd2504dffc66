/**
  The shared vocabulary of the protoc plugin's decision layer: the descriptor
  values the compiler hands over, the generated-file value, the remote-service
  catalog entry, path normalisation, and the GenerationContext that every
  strategy reads and two of them update.
 */
module Strategies {

  datatype Option<T> = None | Some(value: T)

  /** A generated output file; produced once, never changed afterwards. */
  datatype GeneratedFile = GeneratedFile(name: string, content: string)

  /** Catalog entry for a service implemented elsewhere; passed through opaquely. */
  datatype RemoteServiceInfo = RemoteServiceInfo(serviceName: string, routeKeys: seq<string>, actrType: string)

  /** A method of a service; the decision layer only hands it on to the renderers. */
  datatype MethodDescriptor = MethodDescriptor(name: string)

  datatype ServiceDescriptor = ServiceDescriptor(name: string, methods: seq<MethodDescriptor>)

  /** One .proto file of the compilation request. */
  datatype FileDescriptor = FileDescriptor(package: string, name: string, services: seq<ServiceDescriptor>)

  predicate IsSeparator(c: char) {
    c == '/' || c == '\\'
  }

  /** Two characters that are equal, or are both path separators. */
  predicate SameUpToSeparator(c: char, d: char) {
    c == d || (IsSeparator(c) && IsSeparator(d))
  }

  /** Two paths that differ at most in which separator convention they use. */
  predicate SeparatorEquivalent(a: string, b: string) {
    |a| == |b| && forall i :: 0 <= i < |a| ==> SameUpToSeparator(a[i], b[i])
  }

  /** `name.replace("\\", "/")`: every backslash becomes a forward slash. */
  function Normalize(s: string): (r: string)
    ensures |r| == |s|
    ensures '\\' !in r
    ensures forall i :: 0 <= i < |s| && s[i] == '\\' ==> r[i] == '/'
    ensures forall i :: 0 <= i < |s| && s[i] != '\\' ==> r[i] == s[i]
  {
    if s == [] then []
    else [if s[0] == '\\' then '/' else s[0]] + Normalize(s[1..])
  }

  lemma NormalizeIdempotent(s: string)
    ensures Normalize(Normalize(s)) == Normalize(s)
  {
  }

  /** A path without backslashes is its own normal form. */
  lemma NormalizeFixesSlashPaths(s: string)
    requires '\\' !in s
    ensures Normalize(s) == s
  {
  }

  /** Two names normalise to the same path exactly when they differ only in separators. */
  lemma NormalizeEqualIffSeparatorEquivalent(a: string, b: string)
    ensures Normalize(a) == Normalize(b) <==> SeparatorEquivalent(a, b)
  {
  }

  /**
    The run-wide context. The three lookup inputs are stored as given and
    never reassigned; `hasLocalWorkload` is the one field the strategies update.
   */
  class GenerationContext {
    const remoteFileToActrType: map<string, string>
    const localFilesSet: set<string>
    const remoteServices: seq<RemoteServiceInfo>
    var hasLocalWorkload: bool

    constructor (remoteFileToActrType: map<string, string>, localFilesSet: set<string>,
                 remoteServices: seq<RemoteServiceInfo>)
      ensures this.remoteFileToActrType == remoteFileToActrType
      ensures this.localFilesSet == localFilesSet
      ensures this.remoteServices == remoteServices
      ensures !hasLocalWorkload
    {
      this.remoteFileToActrType := remoteFileToActrType;
      this.localFilesSet := localFilesSet;
      this.remoteServices := remoteServices;
      hasLocalWorkload := false;
    }

    /** The file is a remote dependency (its normalised name is a catalog key). */
    predicate IsRemote(f: FileDescriptor) {
      Normalize(f.name) in remoteFileToActrType
    }

    /** The file is explicitly marked local (its normalised name is in the local set). */
    predicate IsLocal(f: FileDescriptor) {
      Normalize(f.name) in localFilesSet
    }

    /** The file declares at least one service. */
    predicate HasServices(f: FileDescriptor)
      ensures HasServices(f) <==> exists s :: s in f.services
    {
      assert f.services != [] ==> f.services[0] in f.services;
      f.services != []
    }
  }

  /**
    A file is remote exactly when some catalog key without backslashes spells
    the same path as the file's name, under either separator convention.
   */
  lemma IsRemoteIffKeyMatches(ctx: GenerationContext, f: FileDescriptor)
    ensures ctx.IsRemote(f) <==>
      exists k :: k in ctx.remoteFileToActrType && '\\' !in k && SeparatorEquivalent(f.name, k)
  {
    if ctx.IsRemote(f) {
      var k := Normalize(f.name);
      NormalizeIdempotent(f.name);
      NormalizeEqualIffSeparatorEquivalent(f.name, k);
      assert k in ctx.remoteFileToActrType && '\\' !in k && SeparatorEquivalent(f.name, k);
    }
    if exists k :: k in ctx.remoteFileToActrType && '\\' !in k && SeparatorEquivalent(f.name, k) {
      var k :| k in ctx.remoteFileToActrType && '\\' !in k && SeparatorEquivalent(f.name, k);
      NormalizeFixesSlashPaths(k);
      NormalizeEqualIffSeparatorEquivalent(f.name, k);
    }
  }

  /**
    A file is local exactly when some entry of the local set without
    backslashes spells the same path; entries are not normalised, so one
    that contains a backslash never matches any file.
   */
  lemma IsLocalIffEntryMatches(ctx: GenerationContext, f: FileDescriptor)
    ensures ctx.IsLocal(f) <==>
      exists k :: k in ctx.localFilesSet && '\\' !in k && SeparatorEquivalent(f.name, k)
    ensures forall k :: k in ctx.localFilesSet && '\\' in k ==> k != Normalize(f.name)
  {
    if ctx.IsLocal(f) {
      var k := Normalize(f.name);
      NormalizeIdempotent(f.name);
      NormalizeEqualIffSeparatorEquivalent(f.name, k);
      assert k in ctx.localFilesSet && '\\' !in k && SeparatorEquivalent(f.name, k);
    }
    if exists k :: k in ctx.localFilesSet && '\\' !in k && SeparatorEquivalent(f.name, k) {
      var k :| k in ctx.localFilesSet && '\\' !in k && SeparatorEquivalent(f.name, k);
      NormalizeFixesSlashPaths(k);
      NormalizeEqualIffSeparatorEquivalent(f.name, k);
    }
  }

  /** Files whose names differ only in separators are classified identically. */
  lemma ClassificationIgnoresSeparatorStyle(ctx: GenerationContext, f: FileDescriptor, g: FileDescriptor)
    requires SeparatorEquivalent(f.name, g.name)
    ensures ctx.IsRemote(f) == ctx.IsRemote(g)
    ensures ctx.IsLocal(f) == ctx.IsLocal(g)
  {
    NormalizeEqualIffSeparatorEquivalent(f.name, g.name);
  }
}
