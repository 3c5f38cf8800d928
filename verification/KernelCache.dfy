/** The executor's module and kernel caches (crates/vortex-backend/src/executor.rs). */
module KernelCache {
  import opened Options

  type Path = string
  type Name = string

  datatype Key = Key(path: Path, name: Name)
  datatype Module = Module(id: nat)
  datatype Kernel = Kernel(id: nat)

  datatype Error = LoadFailed | LookupFailed | ModuleDisappeared | KernelDisappeared
  datatype KernelLookup = KernelLookup(key: Key, moduleCacheHit: bool, kernelCacheHit: bool)

  /** What the device would give for a path and a name, when it gives anything. */
  datatype Device = Device(moduleAt: Path -> Module, kernelIn: (Module, Name) -> Kernel) {
    function Fresh(key: Key): Kernel { kernelIn(moduleAt(key.path), key.name) }
  }

  /** One request; the flags say whether a load and a symbol lookup would succeed this time. */
  datatype Attempt = Attempt(path: Path, name: Name, loads: bool, finds: bool) {
    function AsKey(): Key { Key(path, name) }
  }

  /** Loading and looking up with no cache at all. */
  function Uncached(d: Device, a: Attempt): Result<Kernel, Error> {
    if !a.loads then Err(LoadFailed)
    else if !a.finds then Err(LookupFailed)
    else Ok(d.Fresh(a.AsKey()))
  }

  datatype Cache = Cache(kernels: map<Key, Kernel>, modules: map<Path, Module>)

  const EMPTY := Cache(map[], map[])

  /** The state after a request, its result, and whether it loaded a module. */
  datatype Served = Served(cache: Cache, result: Result<KernelLookup, Error>, loaded: bool)

  function Serve(d: Device, c: Cache, a: Attempt): Served {
    var key, hit := a.AsKey(), a.path in c.modules;
    if key in c.kernels then Served(c, Ok(KernelLookup(key, hit, true)), false)
    else if !hit && !a.loads then Served(c, Err(LoadFailed), false)
    else
      var modules := if hit then c.modules else c.modules[a.path := d.moduleAt(a.path)];
      if !a.finds then Served(Cache(c.kernels, modules), Err(LookupFailed), !hit)
      else Served(Cache(c.kernels[key := d.kernelIn(modules[a.path], a.name)], modules), Ok(KernelLookup(key, hit, false)), !hit)
  }

  class VortexExecutor {
    var kernels: map<Key, Kernel>
    var modules: map<Path, Module>
    ghost const device: Device
    ghost var requests: seq<Attempt>

    /** The caches are what the requests so far have left. */
    ghost predicate Valid()
      reads this
    {
      State() == After(device, requests)
    }

    constructor (ghost d: Device)
      ensures Valid() && device == d && requests == []
    {
      kernels := map[];
      modules := map[];
      device := d;
      requests := [];
    }

    function State(): Cache
      reads this
    {
      Cache(kernels, modules)
    }

    /** Answers the next request of the history, never with the internal error. */
    method EnsureKernel(d: Device, a: Attempt) returns (r: Result<KernelLookup, Error>)
      requires Valid() && d == device
      modifies this
      ensures Valid() && requests == old(requests) + [a]
      ensures r == Answer(d, requests, |requests| - 1) && r != Err(ModuleDisappeared)
    {
      requests := requests + [a];
      assert requests[..|requests| - 1] == old(requests);
      var key := Key(a.path, a.name);
      var moduleCacheHit := a.path in modules;
      if key in kernels {
        return Ok(KernelLookup(key, moduleCacheHit, true));
      }
      if !moduleCacheHit {
        if !a.loads {
          return Err(LoadFailed);
        }
        modules := modules[a.path := d.moduleAt(a.path)];
      }
      if a.path !in modules {
        return Err(ModuleDisappeared);
      }
      var m := modules[a.path];
      if !a.finds {
        return Err(LookupFailed);
      }
      kernels := kernels[key := d.kernelIn(m, a.name)];
      r := Ok(KernelLookup(key, moduleCacheHit, false));
    }

    /** Gives the kernel a fresh load would give, unless no request for that key was ever answered. */
    method GetKernel(key: Key) returns (r: Result<Kernel, Error>)
      requires Valid()
      ensures r == if exists j :: 0 <= j < |requests| && Answered(device, requests, key, j) then Ok(device.Fresh(key))
                   else Err(KernelDisappeared)
    {
      AlwaysFaithful(device, requests);
      CachedIff(device, requests, key.path, key);
      r := if key in kernels then Ok(kernels[key]) else Err(KernelDisappeared);
    }
  }

  // ----- any sequence of requests -----

  function After(d: Device, history: seq<Attempt>): Cache {
    if history == [] then EMPTY
    else Serve(d, After(d, history[..|history| - 1]), history[|history| - 1]).cache
  }

  /** What request number `i` of a history was answered. */
  function Answer(d: Device, history: seq<Attempt>, i: nat): Result<KernelLookup, Error>
    requires i < |history|
  {
    Serve(d, After(d, history[..i]), history[i]).result
  }

  /** Request number `i` loaded a module. */
  predicate LoadedAt(d: Device, history: seq<Attempt>, i: nat)
    requires i < |history|
  {
    Serve(d, After(d, history[..i]), history[i]).loaded
  }

  /** Cached kernels have cached modules, and everything cached is what a fresh load would give. */
  ghost predicate Faithful(d: Device, c: Cache) {
    && (forall p :: p in c.modules ==> c.modules[p] == d.moduleAt(p))
    && (forall k :: k in c.kernels ==> k.path in c.modules && c.kernels[k] == d.Fresh(k))
  }

  lemma ServeFaithful(d: Device, c: Cache, a: Attempt)
    requires Faithful(d, c)
    ensures Faithful(d, Serve(d, c, a).cache)
  {
  }

  lemma {:induction false} AlwaysFaithful(d: Device, history: seq<Attempt>)
    ensures Faithful(d, After(d, history))
  {
    hide Faithful;
    if history == [] {
      EmptyFaithful(d);
    } else {
      AlwaysFaithful(d, history[..|history| - 1]);
      ServeFaithful(d, After(d, history[..|history| - 1]), history[|history| - 1]);
    }
  }

  lemma EmptyFaithful(d: Device)
    ensures Faithful(d, EMPTY)
  {
  }

  ghost predicate Within(a: Cache, b: Cache) {
    a.kernels.Keys <= b.kernels.Keys && a.modules.Keys <= b.modules.Keys
  }

  /** Nothing cached is ever dropped. */
  lemma {:induction false} NothingDropped(d: Device, history: seq<Attempt>, n: nat)
    requires n <= |history|
    ensures Within(After(d, history[..n]), After(d, history))
  {
    if n == |history| {
      assert history[..n] == history;
    } else {
      var m := |history| - 1;
      NothingDropped(d, history[..m], n);
      assert history[..m][..n] == history[..n];
    }
  }

  lemma AfterNext(d: Device, history: seq<Attempt>, n: nat)
    requires n < |history|
    ensures After(d, history[..n + 1]) == Serve(d, After(d, history[..n]), history[n]).cache
  {
    assert history[..n + 1][..n] == history[..n];
  }

  /** A key that was ever returned resolves, then and at any later time, to the kernel a fresh load would
      give: neither internal error can be reached. */
  lemma ReturnedKeysResolve(d: Device, history: seq<Attempt>, i: nat)
    requires i < |history| && Answer(d, history, i).Ok?
    ensures var key := Answer(d, history, i).value.key;
            key == history[i].AsKey() && key in After(d, history).kernels && After(d, history).kernels[key] == d.Fresh(key)
  {
    AfterNext(d, history, i);
    NothingDropped(d, history, i + 1);
    AlwaysFaithful(d, history);
  }

  /** Caching only turns failures into successes: whatever loading from scratch would answer with a kernel
      is answered with that kernel. */
  lemma RefinesUncached(d: Device, history: seq<Attempt>, i: nat)
    requires i < |history|
    ensures Uncached(d, history[i]).Ok? ==> Answer(d, history, i).Ok?
    ensures Answer(d, history, i).Ok? && Uncached(d, history[i]).Ok? ==>
              After(d, history[..i + 1]).kernels[Answer(d, history, i).value.key] == Uncached(d, history[i]).value
  {
    AfterNext(d, history, i);
    AlwaysFaithful(d, history[..i + 1]);
  }

  /** Request number `j` was for this path and got past loading. */
  predicate PastLoading(d: Device, history: seq<Attempt>, path: Path, j: nat)
    requires j < |history|
  {
    history[j].path == path && Answer(d, history, j) != Err(LoadFailed)
  }

  /** Request number `j` was for this key and was answered. */
  predicate Answered(d: Device, history: seq<Attempt>, key: Key, j: nat)
    requires j < |history|
  {
    history[j].AsKey() == key && Answer(d, history, j).Ok?
  }

  lemma PrefixAnswers(d: Device, history: seq<Attempt>, n: nat, j: nat, path: Path, key: Key)
    requires j < n <= |history|
    ensures PastLoading(d, history[..n], path, j) == PastLoading(d, history, path, j)
    ensures Answered(d, history[..n], key, j) == Answered(d, history, key, j)
  {
    hide Serve;
    assert history[..n][..j] == history[..j];
  }

  /** A module is cached exactly when some request for its path got past loading; a kernel exactly when some
      request for its key was answered. */
  lemma {:induction false} CachedIff(d: Device, history: seq<Attempt>, path: Path, key: Key)
    ensures path in After(d, history).modules <==> exists j :: 0 <= j < |history| && PastLoading(d, history, path, j)
    ensures key in After(d, history).kernels <==> exists j :: 0 <= j < |history| && Answered(d, history, key, j)
  {
    hide Serve, PastLoading, Answered, Faithful, Answer;
    if history != [] {
      var n := |history| - 1;
      CachedIff(d, history[..n], path, key);
      AlwaysFaithful(d, history[..n]);
      forall j | 0 <= j < n
        ensures PastLoading(d, history[..n], path, j) == PastLoading(d, history, path, j)
                && Answered(d, history[..n], key, j) == Answered(d, history, key, j)
      {
        PrefixAnswers(d, history, n, j, path, key);
      }
      CachedStep(d, history, path, key);
    }
  }

  /** What the last request adds. */
  lemma CachedStep(d: Device, history: seq<Attempt>, path: Path, key: Key)
    requires history != []
    requires Faithful(d, After(d, history[..|history| - 1]))
    ensures var n := |history| - 1;
            var before := After(d, history[..n]);
            && (path in After(d, history).modules <==>
                  path in before.modules || PastLoading(d, history, path, n))
            && (key in After(d, history).kernels <==>
                  key in before.kernels || Answered(d, history, key, n))
  {
  }

  /** The hit flags tell the history. */
  lemma HitFlags(d: Device, history: seq<Attempt>, i: nat)
    requires i < |history| && Answer(d, history, i).Ok?
    ensures Answer(d, history, i).value.moduleCacheHit
            <==> exists j :: 0 <= j < i && PastLoading(d, history, history[i].path, j)
    ensures Answer(d, history, i).value.kernelCacheHit
            <==> exists j :: 0 <= j < i && Answered(d, history, history[i].AsKey(), j)
  {
    hide PastLoading, Answered;
    CachedIff(d, history[..i], history[i].path, history[i].AsKey());
    forall j | 0 <= j < i
      ensures PastLoading(d, history[..i], history[i].path, j) == PastLoading(d, history, history[i].path, j)
              && Answered(d, history[..i], history[i].AsKey(), j) == Answered(d, history, history[i].AsKey(), j)
    {
      PrefixAnswers(d, history, i, j, history[i].path, history[i].AsKey());
    }
  }

  /** No module is loaded twice. */
  lemma LoadedOnce(d: Device, history: seq<Attempt>, i: nat, j: nat)
    requires i < j < |history| && LoadedAt(d, history, i) && LoadedAt(d, history, j)
    ensures history[i].path != history[j].path
  {
    AfterNext(d, history, i);
    NothingDropped(d, history[..j], i + 1);
    assert history[..j][..i + 1] == history[..i + 1];
  }

  // ----- what is answered, from the requests alone -----

  /** Some request up to number `i`, for this path, could load its module. */
  ghost predicate Loadable(history: seq<Attempt>, path: Path, i: nat) {
    exists l :: 0 <= l <= i < |history| && history[l].path == path && history[l].loads
  }

  /** Request number `j` is for this key, finds its symbol, and has a module that could be loaded by then. */
  ghost predicate Obtains(history: seq<Attempt>, key: Key, j: nat) {
    j < |history| && history[j].AsKey() == key && history[j].finds && Loadable(history, key.path, j)
  }

  ghost predicate Obtainable(history: seq<Attempt>, key: Key, i: nat) {
    exists j :: 0 <= j <= i && Obtains(history, key, j)
  }

  lemma LoadableNext(history: seq<Attempt>, path: Path, n: nat)
    requires n < |history|
    ensures Loadable(history, path, n) <==> (n > 0 && Loadable(history, path, n - 1)) || (history[n].path == path && history[n].loads)
  {
  }

  lemma ObtainableNext(history: seq<Attempt>, key: Key, n: nat)
    requires n < |history|
    ensures Obtainable(history, key, n) <==> (n > 0 && Obtainable(history, key, n - 1)) || Obtains(history, key, n)
  {
    hide Obtains;
  }

  /** What is cached after request number `i` is what could be obtained by then. */
  lemma {:induction false} CacheHolds(d: Device, history: seq<Attempt>, path: Path, key: Key, i: nat)
    requires i < |history|
    ensures path in After(d, history[..i + 1]).modules <==> Loadable(history, path, i)
    ensures key in After(d, history[..i + 1]).kernels <==> Obtainable(history, key, i)
    decreases i
  {
    hide Loadable, Obtainable, Obtains, Faithful, After;
    var a := history[i];
    var before := After(d, history[..i]);
    if i > 0 {
      CacheHolds(d, history, path, key, i - 1);
      CacheHolds(d, history, key.path, key, i - 1);
      CacheHolds(d, history, a.path, key, i - 1);
    } else {
      NothingYet(d, history);
    }
    AfterNext(d, history, i);
    AlwaysFaithful(d, history[..i]);
    LoadableNext(history, path, i);
    LoadableNext(history, key.path, i);
    ObtainableNext(history, key, i);
    CacheStep(d, before, a, path, key);
    ObtainsNow(history, key, i);
  }

  lemma NothingYet(d: Device, history: seq<Attempt>)
    ensures After(d, history[..0]) == EMPTY
  {
  }

  lemma ObtainsNow(history: seq<Attempt>, key: Key, i: nat)
    requires i < |history|
    ensures Obtains(history, key, i) <==> history[i].AsKey() == key && history[i].finds && Loadable(history, key.path, i)
  {
  }

  /** One request, in terms of what was cached before it. */
  lemma CacheStep(d: Device, c: Cache, a: Attempt, path: Path, key: Key)
    requires Faithful(d, c)
    ensures var next := Serve(d, c, a).cache;
            && (path in next.modules <==> path in c.modules || (path == a.path && a.loads))
            && (key in next.kernels <==>
                  key in c.kernels || (key == a.AsKey() && a.finds && (a.path in c.modules || a.loads)))
  {
  }

  /** Exactly which requests are answered, and which error the others get: a request succeeds if and only if
      some request for its key up to itself found the symbol in a module that could be loaded by then; if no
      request for its path could load the module it is a load failure, and otherwise a lookup failure. */
  lemma AnswerExactly(d: Device, history: seq<Attempt>, i: nat)
    requires i < |history|
    ensures Answer(d, history, i).Ok? <==> Obtainable(history, history[i].AsKey(), i)
    ensures Answer(d, history, i) == Err(LoadFailed) <==> !Loadable(history, history[i].path, i)
    ensures Answer(d, history, i).Ok? || Answer(d, history, i) == Err(LoadFailed) || Answer(d, history, i) == Err(LookupFailed)
    ensures Answer(d, history, i).Ok? ==> Answer(d, history, i).value.key == history[i].AsKey()
  {
    hide Faithful, After, Obtainable, Loadable;
    var a := history[i];
    CacheHolds(d, history, a.path, a.AsKey(), i);
    AfterNext(d, history, i);
    AlwaysFaithful(d, history[..i]);
    AnsweredIfCached(d, After(d, history[..i]), a);
  }

  lemma AnsweredIfCached(d: Device, c: Cache, a: Attempt)
    requires Faithful(d, c)
    ensures var s := Serve(d, c, a);
            && (s.result.Ok? <==> a.AsKey() in s.cache.kernels)
            && (s.result == Err(LoadFailed) <==> a.path !in s.cache.modules)
            && (s.result.Ok? || s.result == Err(LoadFailed) || s.result == Err(LookupFailed))
            && (s.result.Ok? ==> s.result.value.key == a.AsKey())
  {
  }
}
