// The process-wide libyang context: `Yang::getContext` folds the requested
// options into libyang's flag word and creates the context once, and
// `Yang::getDefaultContext` prepares that context (search directories, the
// default modules) the first time it succeeds. The two function-local
// statics, the shared context and the `initialized` latch, are the fields
// of one object here. The filesystem, `ly_ctx_new` and
// `ly_ctx_load_module` are oracle parameters.
module Yang {
  import opened Wrappers

  // ---------------------------------------------------------------------
  // Context options and the flag word

  /** `YangContextOptions`; `NoFlags` is the source's `None`. */
  datatype ContextOption =
    | NoFlags | AllImplemented | RefImplemented | NoYanglibrary | DisableSearchdirs
    | DisableSearchdirCwd | PreferSearchdirs | ExplicitCompile | SetPrivParsed
    | CompileObsolete | LybHashes | LeafrefExtended | LeafrefLinking
    | BuiltinPluginsOnly | StaticPluginsOnly | EnableImpFeatures

  /** The `LY_CTX_*` bit each option stands for. */
  function Flag(o: ContextOption): bv32
  {
    match o
    case NoFlags => 0
    case AllImplemented => 0x01
    case RefImplemented => 0x02
    case NoYanglibrary => 0x04
    case DisableSearchdirs => 0x08
    case DisableSearchdirCwd => 0x10
    case PreferSearchdirs => 0x20
    case ExplicitCompile => 0x80
    case SetPrivParsed => 0x40
    case CompileObsolete => 0x200
    case LybHashes => 0x400
    case LeafrefExtended => 0x800
    case LeafrefLinking => 0x1000
    case BuiltinPluginsOnly => 0x2000
    case StaticPluginsOnly => 0x4000
    case EnableImpFeatures => 0x100
  }

  /** Every option but `None` is a single bit of its own. */
  lemma FlagBits(a: ContextOption, b: ContextOption)
    ensures Flag(a) == 0 <==> a == NoFlags
    ensures Flag(a) & (Flag(a) - 1) == 0
    ensures a != b ==> Flag(a) & Flag(b) == 0
  {
  }

  /** The options OR-ed together, in order. */
  function Flags(opts: seq<ContextOption>): bv32
  {
    if opts == [] then 0 else Flags(opts[..|opts| - 1]) | Flag(opts[|opts| - 1])
  }

  /** A single bit is set in an OR exactly when it is set in one side. */
  lemma OrBit(a: bv32, b: bv32, f: bv32)
    requires f & (f - 1) == 0
    ensures (a | b) & f == f <==> a & f == f || b & f == f
  {
  }

  /** The flag word holds an option's bit if and only if the option was
      requested (or is `None`, which has no bit). */
  lemma {:induction false} FlagsExactly(opts: seq<ContextOption>, o: ContextOption)
    ensures Flags(opts) & Flag(o) == Flag(o) <==> o == NoFlags || o in opts
    decreases |opts|
  {
    FlagBits(o, o);
    if opts == [] {
    } else {
      var init, last := opts[..|opts| - 1], opts[|opts| - 1];
      FlagsExactly(init, o);
      FlagBits(last, o);
      OrBit(Flags(init), Flag(last), Flag(o));
      assert opts == init + [last];
    }
  }

  /** `for (auto o : opts) flags |= o`. */
  method OrFlags(opts: seq<ContextOption>) returns (flags: bv32)
    ensures flags == Flags(opts)
  {
    flags := 0;
    var i := 0;
    while i < |opts|
      invariant 0 <= i <= |opts|
      invariant flags == Flags(opts[..i])
    {
      assert opts[..i + 1][..i] == opts[..i];
      flags := flags | Flag(opts[i]);
      i := i + 1;
    }
    assert opts[..i] == opts;
  }

  // ---------------------------------------------------------------------
  // The context object

  /** A module to load: its name and, when the revision string is
      non-empty, that revision (otherwise the latest one). */
  datatype ModuleRef = ModuleRef(name: string, revision: Option<string>)

  function Requested(name: string, rev: string): (m: ModuleRef)
    ensures m.name == name
    ensures m.revision.None? <==> rev == ""
    ensures m.revision.Some? ==> m.revision.value == rev
  {
    ModuleRef(name, if rev == "" then None else Some(rev))
  }

  /** `YangContext`: the options it was created with, the search paths
      added to it, and the modules loaded into it. */
  class YangContext {
    const options: bv32
    var searchPaths: seq<string>
    var loaded: seq<ModuleRef>

    constructor(options: bv32)
      ensures this.options == options && searchPaths == [] && loaded == []
    {
      this.options := options;
      searchPaths := [];
      loaded := [];
    }

    /** `addSearchPath`: the path is set in libyang and recorded. */
    method AddSearchPath(path: string)
      modifies this
      ensures searchPaths == old(searchPaths) + [path]
      ensures loaded == old(loaded)
    {
      searchPaths := searchPaths + [path];
    }

    /** `loadModuleInContext`: `load` says whether libyang finds and loads
        the module; `ok` false is the `YangDataError` it throws. */
    method LoadModule(name: string, rev: string, load: ModuleRef -> bool) returns (ok: bool)
      modifies this
      ensures ok == load(Requested(name, rev))
      ensures loaded == if ok then old(loaded) + [Requested(name, rev)] else old(loaded)
      ensures searchPaths == old(searchPaths)
    {
      var m := Requested(name, rev);
      ok := load(m);
      if ok {
        loaded := loaded + [m];
      }
    }
  }

  // ---------------------------------------------------------------------
  // What a first successful default-context call does

  /** The candidate search paths that exist and are directories, in order. */
  function SearchDirs(candidates: seq<string>, isDir: string -> bool): (r: seq<string>)
    ensures |r| <= |candidates|
  {
    if candidates == [] then []
    else
      var init := SearchDirs(candidates[..|candidates| - 1], isDir);
      if isDir(candidates[|candidates| - 1]) then init + [candidates[|candidates| - 1]] else init
  }

  /** A path is added if and only if it is a candidate that is a directory. */
  lemma {:induction false} SearchDirsMembers(candidates: seq<string>, isDir: string -> bool, p: string)
    ensures p in SearchDirs(candidates, isDir) <==> p in candidates && isDir(p)
    decreases |candidates|
  {
    if candidates != [] {
      var init := candidates[..|candidates| - 1];
      SearchDirsMembers(init, isDir, p);
      assert candidates == init + [candidates[|candidates| - 1]];
    }
  }

  /** `kDefaultModules` as load requests. */
  function Requests(modules: seq<(string, string)>): (r: seq<ModuleRef>)
    ensures |r| == |modules|
    ensures forall k :: 0 <= k < |r| ==> r[k] == Requested(modules[k].0, modules[k].1)
  {
    seq(|modules|, k requires 0 <= k < |modules| => Requested(modules[k].0, modules[k].1))
  }

  /** The modules loaded before the first one that fails: a prefix of the
      requests, every one of them loaded, and the next one (if any) not. */
  function LoadedPrefix(ms: seq<ModuleRef>, load: ModuleRef -> bool): (r: seq<ModuleRef>)
    ensures r <= ms
    ensures forall k :: 0 <= k < |r| ==> load(r[k])
    ensures |r| < |ms| ==> !load(ms[|r|])
  {
    if ms == [] || !load(ms[0]) then [] else [ms[0]] + LoadedPrefix(ms[1..], load)
  }

  /** The loaded prefix is determined by where the first failure is. */
  lemma {:induction false} LoadedPrefixAt(ms: seq<ModuleRef>, load: ModuleRef -> bool, i: nat)
    requires i <= |ms|
    requires forall k :: 0 <= k < i ==> load(ms[k])
    requires i < |ms| ==> !load(ms[i])
    ensures LoadedPrefix(ms, load) == ms[..i]
    decreases i
  {
    if i > 0 {
      LoadedPrefixAt(ms[1..], load, i - 1);
      assert [ms[0]] + ms[1..][..i - 1] == ms[..i];
    }
  }

  /** Every default module loads. */
  predicate AllLoad(modules: seq<(string, string)>, load: ModuleRef -> bool)
  {
    forall k :: 0 <= k < |modules| ==> load(Requested(modules[k].0, modules[k].1))
  }

  /** Preparing succeeds exactly when some candidate is a directory and
      every module loads. */
  predicate Prepares(candidates: seq<string>, isDir: string -> bool,
                     modules: seq<(string, string)>, load: ModuleRef -> bool)
  {
    SearchDirs(candidates, isDir) != [] && AllLoad(modules, load)
  }

  /** What preparing loads: nothing when no search path was added, else
      the modules up to the first failure. */
  function PreparedModules(candidates: seq<string>, isDir: string -> bool,
                           modules: seq<(string, string)>, load: ModuleRef -> bool): (r: seq<ModuleRef>)
    ensures Prepares(candidates, isDir, modules, load) ==> r == Requests(modules)
    ensures SearchDirs(candidates, isDir) == [] ==> r == []
  {
    if SearchDirs(candidates, isDir) == [] then []
    else
      var r := LoadedPrefix(Requests(modules), load);
      assert Prepares(candidates, isDir, modules, load) ==> r == Requests(modules) by {
        if Prepares(candidates, isDir, modules, load) {
          LoadedPrefixAt(Requests(modules), load, |modules|);
          assert Requests(modules)[..|modules|] == Requests(modules);
        }
      }
      r
  }

  // ---------------------------------------------------------------------
  // The two accessors

  /** The statics of `Yang::getContext` and `Yang::getDefaultContext`. */
  class Yang {
    var instance: YangContext?
    var initialized: bool

    ghost predicate Valid()
      reads this
    {
      initialized ==> instance != null
    }

    constructor()
      ensures instance == null && !initialized
    {
      instance := null;
      initialized := false;
    }

    /** `getContext(opts)`: the first successful call creates the context
        with the OR of its options (`creates` says whether `ly_ctx_new`
        succeeds; when it fails the constructor throws and nothing is
        kept); every later call returns that same context and ignores its
        options. */
    method GetContext(opts: seq<ContextOption>, creates: bool) returns (r: Result<YangContext>)
      modifies this
      ensures initialized == old(initialized)
      ensures old(instance) != null ==> r.Success? && r.value == old(instance) && instance == old(instance)
      ensures old(instance) == null && creates ==>
                && r.Success? && fresh(r.value) && instance == r.value
                && r.value.options == Flags(opts) && r.value.searchPaths == [] && r.value.loaded == []
      ensures old(instance) == null && !creates ==> r.Failure? && instance == null
    {
      var flags := OrFlags(opts);
      if instance == null {
        if !creates {
          return Failure("YangError");
        }
        instance := new YangContext(flags);
      }
      return Success(instance);
    }

    /** Adds the candidates that are directories as search paths; `added`
        is how many. */
    static method AddSearchDirs(ctx: YangContext, candidates: seq<string>, isDir: string -> bool)
      returns (added: nat)
      modifies ctx
      ensures ctx.searchPaths == old(ctx.searchPaths) + SearchDirs(candidates, isDir)
      ensures ctx.loaded == old(ctx.loaded)
      ensures added == |SearchDirs(candidates, isDir)|
    {
      added := 0;
      var i := 0;
      while i < |candidates|
        invariant 0 <= i <= |candidates|
        invariant ctx.searchPaths == old(ctx.searchPaths) + SearchDirs(candidates[..i], isDir)
        invariant ctx.loaded == old(ctx.loaded)
        invariant added == |SearchDirs(candidates[..i], isDir)|
      {
        assert candidates[..i + 1][..i] == candidates[..i];
        if isDir(candidates[i]) {
          ctx.AddSearchPath(candidates[i]);
          added := added + 1;
        }
        i := i + 1;
      }
      assert candidates[..i] == candidates;
    }

    /** Loads the modules in order and stops at the first failure. */
    static method LoadAll(ctx: YangContext, modules: seq<(string, string)>, load: ModuleRef -> bool)
      returns (ok: bool)
      modifies ctx
      ensures ok == AllLoad(modules, load)
      ensures ctx.loaded == old(ctx.loaded) + LoadedPrefix(Requests(modules), load)
      ensures ctx.searchPaths == old(ctx.searchPaths)
    {
      var i := 0;
      while i < |modules|
        invariant 0 <= i <= |modules|
        invariant forall k :: 0 <= k < i ==> load(Requested(modules[k].0, modules[k].1))
        invariant ctx.loaded == old(ctx.loaded) + Requests(modules)[..i]
        invariant ctx.searchPaths == old(ctx.searchPaths)
      {
        var done := ctx.LoadModule(modules[i].0, modules[i].1, load);
        if !done {
          LoadedPrefixAt(Requests(modules), load, i);
          return false;
        }
        assert Requests(modules)[..i + 1] == Requests(modules)[..i] + [Requested(modules[i].0, modules[i].1)];
        i := i + 1;
      }
      LoadedPrefixAt(Requests(modules), load, i);
      return true;
    }

    /** `getDefaultContext`: the context of `getContext({NoYanglibrary})`.
        Once a call has prepared it, later calls return it with no other
        effect. Otherwise the candidates that are directories (`isDir`)
        become search paths, no such candidate is a `YangDataError`, and the
        default modules are loaded in order, a failure stopping there; only
        when all of that succeeds is the context marked prepared. */
    method GetDefaultContext(creates: bool, candidates: seq<string>, isDir: string -> bool,
                             modules: seq<(string, string)>, load: ModuleRef -> bool)
      returns (r: Result<YangContext>)
      requires Valid()
      modifies this, instance
      ensures Valid()
      ensures old(initialized) ==>
                r.Success? && r.value == old(instance) && instance == old(instance) && initialized
                && unchanged(old(instance))
      ensures r.Success? ==> initialized && instance != null && r.value == instance
      ensures r.Failure? ==> !initialized
      ensures !old(initialized) && instance != null ==>
                (r.Success? <==> Prepares(candidates, isDir, modules, load))
      ensures !old(initialized) && old(instance) != null ==>
                && instance == old(instance)
                && instance.searchPaths == old(instance.searchPaths) + SearchDirs(candidates, isDir)
                && instance.loaded == old(instance.loaded) + PreparedModules(candidates, isDir, modules, load)
      ensures old(instance) == null && creates ==>
                && fresh(instance) && instance.options == Flags([NoYanglibrary])
                && instance.searchPaths == SearchDirs(candidates, isDir)
                && instance.loaded == PreparedModules(candidates, isDir, modules, load)
      ensures old(instance) == null && !creates ==> r.Failure? && instance == null
    {
      var got := GetContext([NoYanglibrary], creates);
      if got.Failure? {
        return got;
      }
      var ctx := got.value;
      if initialized {
        return Success(ctx);
      }
      var added := AddSearchDirs(ctx, candidates, isDir);
      if added == 0 {
        return Failure("YangDataError");
      }
      var ok := LoadAll(ctx, modules, load);
      if !ok {
        return Failure("YangDataError");
      }
      initialized := true;
      return Success(ctx);
    }
  }
}
