/** The DeletionConfirmation admission plugin (plugin/pkg/global/deletionconfirmation/admission.go): a DELETE
    of a Shoot, Project or ShootState is admitted only if the object carries the deletion-confirmation
    annotation. A collection delete (empty name) is admitted only if every listed object would be.

    The informer listers, the live client and `CheckIfDeletionIsConfirmed` are inputs: a `Backend` holds
    their answers for the kind and namespace of one request, and an `Environment` says which informers have
    synced and what externally supplied ready functions answer. */
module DeletionConfirmation {
  import opened Wrappers

  datatype ResourceKind = Shoot | Project | ShootState | OtherKind(groupKind: string)

  /** The part of the admission attributes the plugin reads. An empty name is a collection delete. */
  datatype Attributes = Attributes(kind: ResourceKind, namespace: string, name: string)

  datatype Object = Object(name: string, annotations: map<string, string>)

  datatype Error =
    | NotFound(name: string)
    | APIFailure(reason: string)
    | DeletionNotConfirmed(reason: string)
    | NotYetReady
    | Forbidden(kind: ResourceKind, name: string, causes: seq<Error>)

  /** What the cache (`list`, `cacheGet`), the live client (`liveGet`) and the confirmation check answer
      for the kind and namespace of one request. The check gives the reason of its refusal, or nothing. */
  datatype Backend = Backend(
    list: Result<seq<Object>, Error>,
    cacheGet: string -> Result<Object, Error>,
    liveGet: string -> Result<Object, Error>,
    check: Object -> Option<string>)

  /** An informer, identified by the factory it came from and the kind it watches. */
  datatype Informer = Informer(factory: string, kind: ResourceKind)

  /** A ready function: the aggregate over the registered informers, or one assigned from outside. */
  datatype ReadyFunc = RegisteredInformersSynced | Supplied(id: string)

  /** The state of the informers and of externally supplied ready functions when a request arrives. */
  datatype Environment = Environment(hasSynced: Informer -> bool, supplied: string -> bool)

  /** Stored objects have non-empty names; the API server rejects an object without one. A listed object
      with an empty name would send the per-object validation of a collection delete back into the
      collection branch, which lists and fans out again without end. */
  predicate ListedNamesNonEmpty(b: Backend)
  {
    b.list.Success? ==> forall k :: 0 <= k < |b.list.value| ==> b.list.value[k].name != ""
  }

  predicate AllHaveSynced(informers: seq<Informer>, hasSynced: Informer -> bool)
  {
    forall k :: 0 <= k < |informers| ==> hasSynced(informers[k])
  }

  /** What waiting for readiness yields: a missing ready function means ready. */
  function IsReady(readyFunc: Option<ReadyFunc>, informers: seq<Informer>, env: Environment): bool
  {
    match readyFunc
    case None => true
    case Some(RegisteredInformersSynced) => AllHaveSynced(informers, env.hasSynced)
    case Some(Supplied(id)) => env.supplied(id)
  }

  // ---------------------------------------------------------------------------------------------------
  // The decision, as a function
  // ---------------------------------------------------------------------------------------------------

  /** The decision for one named object: the cached copy if it is confirmed; otherwise (cache miss or an
      unconfirmed cached copy) the live copy decides. A cache failure other than NotFound is returned. */
  function NamedDecision(a: Attributes, b: Backend): Option<Error>
  {
    var cached := b.cacheGet(a.name);
    if cached.Success? && b.check(cached.value).None? then None
    else if cached.Failure? && !cached.error.NotFound? then Some(cached.error)
    else
      match b.liveGet(a.name)
      case Failure(e) => Some(e)
      case Success(obj) =>
        match b.check(obj)
        case Some(reason) => Some(Forbidden(a.kind, a.name, [DeletionNotConfirmed(reason)]))
        case None => None
  }

  /** `Validate` as a function of the request, the backend's answers and whether the caches are ready. */
  function Admission(a: Attributes, b: Backend, ready: bool): Option<Error>
    requires ListedNamesNonEmpty(b)
    decreases if a.name == "" then 1 else 0, 1, 0
  {
    if a.kind.OtherKind? then None
    else if !ready then Some(Forbidden(a.kind, a.name, [NotYetReady]))
    else if a.name == "" then
      match b.list
      case Failure(e) => Some(e)
      case Success(objs) =>
        var errs := CollectErrors(a, objs, b, ready);
        if errs == [] then None else Some(Forbidden(a.kind, a.name, errs))
    else NamedDecision(a, b)
  }

  /** The errors of the per-object validations of a collection delete, in list order. */
  function CollectErrors(a: Attributes, objs: seq<Object>, b: Backend, ready: bool): seq<Error>
    requires ListedNamesNonEmpty(b)
    requires forall k :: 0 <= k < |objs| ==> objs[k].name != ""
    decreases 1, 0, |objs|
  {
    if objs == [] then []
    else
      var last := objs[|objs| - 1];
      CollectErrors(a, objs[..|objs| - 1], b, ready)
        + match Admission(a.(name := last.name), b, ready)
          case None => []
          case Some(e) => [e]
  }

  // ---------------------------------------------------------------------------------------------------
  // The plugin and the package-level registry of ready functions
  // ---------------------------------------------------------------------------------------------------

  /** The package-level `readyFuncs`: the HasSynced functions of the informers of every factory handed to
      a plugin instance. */
  class ReadyFuncRegistry {
    var informers: seq<Informer>

    constructor ()
      ensures informers == []
    {
      informers := [];
    }

    /** The aggregated ready function: every registered informer has synced. */
    method AllSynced(hasSynced: Informer -> bool) returns (ready: bool)
      ensures ready <==> AllHaveSynced(informers, hasSynced)
    {
      var i := 0;
      while i < |informers|
        invariant 0 <= i <= |informers|
        invariant forall k :: 0 <= k < i ==> hasSynced(informers[k])
      {
        if !hasSynced(informers[i]) {
          return false;
        }
        i := i + 1;
      }
      return true;
    }
  }

  class DeletionConfirmation {
    const registry: ReadyFuncRegistry
    var gardenCoreClient: Option<string>
    var shootLister: Option<string>
    var shootStateLister: Option<string>
    var projectLister: Option<string>
    var readyFunc: Option<ReadyFunc>

    /** `New`: a plugin with nothing injected yet, sharing the package-level registry. */
    constructor (registry: ReadyFuncRegistry)
      ensures this.registry == registry
      ensures gardenCoreClient.None? && shootLister.None? && shootStateLister.None? && projectLister.None?
      ensures readyFunc.None?
    {
      this.registry := registry;
      gardenCoreClient, shootLister, shootStateLister, projectLister := None, None, None, None;
      readyFunc := None;
    }

    method AssignReadyFunc(f: ReadyFunc)
      modifies this
      ensures readyFunc == Some(f)
      ensures gardenCoreClient == old(gardenCoreClient) && shootLister == old(shootLister)
      ensures shootStateLister == old(shootStateLister) && projectLister == old(projectLister)
    {
      readyFunc := Some(f);
    }

    /** Takes the three listers from the factory and registers its informers' HasSynced functions. */
    method SetCoreInformerFactory(factory: string)
      modifies this, registry
      ensures shootLister == Some(factory) && projectLister == Some(factory) && shootStateLister == Some(factory)
      ensures registry.informers == old(registry.informers)
                + [Informer(factory, Shoot), Informer(factory, Project), Informer(factory, ShootState)]
      ensures gardenCoreClient == old(gardenCoreClient) && readyFunc == old(readyFunc)
    {
      shootLister := Some(factory);
      projectLister := Some(factory);
      shootStateLister := Some(factory);
      registry.informers := registry.informers
        + [Informer(factory, Shoot), Informer(factory, Project), Informer(factory, ShootState)];
    }

    method SetCoreClientSet(client: string)
      modifies this
      ensures gardenCoreClient == Some(client)
      ensures shootLister == old(shootLister) && shootStateLister == old(shootStateLister)
      ensures projectLister == old(projectLister) && readyFunc == old(readyFunc)
    {
      gardenCoreClient := Some(client);
    }

    /** The first missing dependency, checked in the order shoot lister, project lister, shootState lister,
        core client; nothing when all are there. */
    function ValidateInitialization(): (r: Option<string>)
      reads this
      ensures r.None? <==> shootLister.Some? && projectLister.Some? && shootStateLister.Some? && gardenCoreClient.Some?
      ensures shootLister.None? ==> r == Some("missing shoot lister")
      ensures shootLister.Some? && projectLister.None? ==> r == Some("missing project lister")
      ensures shootLister.Some? && projectLister.Some? && shootStateLister.None? ==>
                r == Some("missing shootState lister")
      ensures shootLister.Some? && projectLister.Some? && shootStateLister.Some? && gardenCoreClient.None? ==>
                r == Some("missing gardener internal core client")
    {
      if shootLister.None? then Some("missing shoot lister")
      else if projectLister.None? then Some("missing project lister")
      else if shootStateLister.None? then Some("missing shootState lister")
      else if gardenCoreClient.None? then Some("missing gardener internal core client")
      else None
    }

    /** The handler's wait for its ready function. */
    method WaitForReady(env: Environment) returns (ready: bool)
      ensures ready == IsReady(readyFunc, registry.informers, env)
    {
      match readyFunc
      case None =>
        ready := true;
      case Some(RegisteredInformersSynced) =>
        ready := registry.AllSynced(env.hasSynced);
      case Some(Supplied(id)) =>
        ready := env.supplied(id);
    }

    /** `Validate`. Requests for other kinds pass untouched. Otherwise the aggregate ready function is
        installed if none is set, and the decision is `Admission` under the resulting readiness; a
        collection delete validates each listed object by a recursive call. */
    method Validate(a: Attributes, b: Backend, env: Environment) returns (err: Option<Error>)
      requires ListedNamesNonEmpty(b)
      modifies this
      ensures readyFunc == if a.kind.OtherKind? || old(readyFunc).Some? then old(readyFunc)
                           else Some(RegisteredInformersSynced)
      ensures gardenCoreClient == old(gardenCoreClient) && shootLister == old(shootLister)
      ensures shootStateLister == old(shootStateLister) && projectLister == old(projectLister)
      ensures err == Admission(a, b, IsReady(readyFunc, registry.informers, env))
      decreases if a.name == "" then 1 else 0
    {
      if a.kind.OtherKind? {
        return None;
      }

      if readyFunc.None? {
        AssignReadyFunc(RegisteredInformersSynced);
      }
      var ready := WaitForReady(env);
      if !ready {
        return Some(Forbidden(a.kind, a.name, [NotYetReady]));
      }

      if a.name == "" {
        if b.list.Failure? {
          return Some(b.list.error);
        }
        var objs := b.list.value;
        var result: seq<Error> := [];
        var i := 0;
        while i < |objs|
          invariant 0 <= i <= |objs|
          invariant readyFunc == old(readyFunc) || (old(readyFunc).None? && readyFunc == Some(RegisteredInformersSynced))
          invariant readyFunc.Some? && IsReady(readyFunc, registry.informers, env) == ready
          invariant gardenCoreClient == old(gardenCoreClient) && shootLister == old(shootLister)
          invariant shootStateLister == old(shootStateLister) && projectLister == old(projectLister)
          invariant result == CollectErrors(a, objs[..i], b, ready)
        {
          var out := Validate(a.(name := objs[i].name), b, env);
          if out.Some? {
            result := result + [out.value];
          }
          assert objs[..i + 1][..i] == objs[..i];
          i := i + 1;
        }
        assert objs[..i] == objs;
        if result == [] {
          return None;
        }
        return Some(Forbidden(a.kind, a.name, result));
      }

      err := NamedDecision(a, b);
    }
  }

  // ---------------------------------------------------------------------------------------------------
  // Properties of the decision
  // ---------------------------------------------------------------------------------------------------

  /** Kinds other than Shoot, Project and ShootState are admitted whatever the backend and readiness. */
  lemma UnrelatedKindsAdmitted(a: Attributes, b: Backend, ready: bool)
    requires ListedNamesNonEmpty(b)
    requires a.kind.OtherKind?
    ensures Admission(a, b, ready).None?
  {
  }

  /** While the caches are not ready every relevant request is forbidden, whatever the backend says. */
  lemma NotReadyIsForbidden(a: Attributes, b: Backend)
    requires ListedNamesNonEmpty(b)
    requires !a.kind.OtherKind?
    ensures Admission(a, b, false) == Some(Forbidden(a.kind, a.name, [NotYetReady]))
  {
  }

  /** The collected errors are empty exactly when every object is admitted, and are exactly the errors of
      the objects that are not. */
  lemma CollectErrorsCharacterized(a: Attributes, objs: seq<Object>, b: Backend, ready: bool)
    requires ListedNamesNonEmpty(b)
    requires forall k :: 0 <= k < |objs| ==> objs[k].name != ""
    ensures CollectErrors(a, objs, b, ready) == [] <==>
              forall k :: 0 <= k < |objs| ==> Admission(a.(name := objs[k].name), b, ready).None?
    ensures forall e :: e in CollectErrors(a, objs, b, ready) <==>
              exists k :: 0 <= k < |objs| && Admission(a.(name := objs[k].name), b, ready) == Some(e)
  {
    CollectErrorsEmpty(a, objs, b, ready);
    CollectErrorsMembers(a, objs, b, ready);
  }

  lemma {:induction false} CollectErrorsEmpty(a: Attributes, objs: seq<Object>, b: Backend, ready: bool)
    requires ListedNamesNonEmpty(b)
    requires forall k :: 0 <= k < |objs| ==> objs[k].name != ""
    ensures CollectErrors(a, objs, b, ready) == [] <==>
              forall k :: 0 <= k < |objs| ==> Admission(a.(name := objs[k].name), b, ready).None?
    decreases |objs|
  {
    if objs != [] {
      var n := |objs| - 1;
      var init := objs[..n];
      CollectErrorsEmpty(a, init, b, ready);
      assert forall k :: 0 <= k < n ==> init[k] == objs[k];
    }
  }

  lemma {:induction false} CollectErrorsMembers(a: Attributes, objs: seq<Object>, b: Backend, ready: bool)
    requires ListedNamesNonEmpty(b)
    requires forall k :: 0 <= k < |objs| ==> objs[k].name != ""
    ensures forall e :: e in CollectErrors(a, objs, b, ready) <==>
              exists k :: 0 <= k < |objs| && Admission(a.(name := objs[k].name), b, ready) == Some(e)
    decreases |objs|
  {
    if objs != [] {
      var n := |objs| - 1;
      var init := objs[..n];
      CollectErrorsMembers(a, init, b, ready);
      var d := Admission(a.(name := objs[n].name), b, ready);
      var tail := if d.None? then [] else [d.value];
      assert CollectErrors(a, objs, b, ready) == CollectErrors(a, init, b, ready) + tail;
      forall e
        ensures e in CollectErrors(a, objs, b, ready) <==>
                exists k :: 0 <= k < |objs| && Admission(a.(name := objs[k].name), b, ready) == Some(e)
      {
        if e in tail {
          assert Admission(a.(name := objs[n].name), b, ready) == Some(e);
        }
        if exists k :: 0 <= k < |objs| && Admission(a.(name := objs[k].name), b, ready) == Some(e) {
          var k :| 0 <= k < |objs| && Admission(a.(name := objs[k].name), b, ready) == Some(e);
          if k < n {
            assert init[k] == objs[k];
          }
        }
      }
    }
  }

  /** A collection delete: a list failure is returned as it is; otherwise the request is admitted exactly
      when every listed object is admitted on its own, and a refusal is Forbidden carrying exactly the
      individual errors. An empty collection is therefore admitted. */
  lemma CollectionDelete(a: Attributes, b: Backend)
    requires ListedNamesNonEmpty(b)
    requires !a.kind.OtherKind? && a.name == ""
    ensures b.list.Failure? ==> Admission(a, b, true) == Some(b.list.error)
    ensures b.list.Success? ==>
              (Admission(a, b, true).None? <==>
                 forall k :: 0 <= k < |b.list.value| ==> Admission(a.(name := b.list.value[k].name), b, true).None?)
    ensures b.list.Success? && Admission(a, b, true).Some? ==>
              Admission(a, b, true).value.Forbidden?
              && forall e :: e in Admission(a, b, true).value.causes <==>
                   exists k :: 0 <= k < |b.list.value|
                               && Admission(a.(name := b.list.value[k].name), b, true) == Some(e)
    ensures b.list == Success([]) ==> Admission(a, b, true).None?
  {
    if b.list.Success? {
      CollectErrorsCharacterized(a, b.list.value, b, true);
    }
  }

  /** A named delete whose cached copy is confirmed is admitted, and the live client is not consulted:
      any other live answers give the same decision. */
  lemma CachedConfirmedAdmitted(a: Attributes, b: Backend, liveGet: string -> Result<Object, Error>)
    requires ListedNamesNonEmpty(b)
    requires !a.kind.OtherKind? && a.name != ""
    requires b.cacheGet(a.name).Success? && b.check(b.cacheGet(a.name).value).None?
    ensures Admission(a, b, true).None?
    ensures Admission(a, b.(liveGet := liveGet), true) == Admission(a, b, true)
  {
  }

  /** A cache failure other than NotFound is returned unchanged, without a live lookup. */
  lemma CacheFailureReturned(a: Attributes, b: Backend, liveGet: string -> Result<Object, Error>)
    requires ListedNamesNonEmpty(b)
    requires !a.kind.OtherKind? && a.name != ""
    requires b.cacheGet(a.name).Failure? && !b.cacheGet(a.name).error.NotFound?
    ensures Admission(a, b, true) == Some(b.cacheGet(a.name).error)
    ensures Admission(a, b.(liveGet := liveGet), true) == Admission(a, b, true)
  {
  }

  /** On a cache miss or an unconfirmed cached copy the live lookup decides: its failure is returned, an
      unconfirmed live copy is Forbidden, a confirmed one is admitted. */
  lemma LiveLookupDecides(a: Attributes, b: Backend)
    requires ListedNamesNonEmpty(b)
    requires !a.kind.OtherKind? && a.name != ""
    requires (b.cacheGet(a.name).Failure? && b.cacheGet(a.name).error.NotFound?)
             || (b.cacheGet(a.name).Success? && b.check(b.cacheGet(a.name).value).Some?)
    ensures b.liveGet(a.name).Failure? ==> Admission(a, b, true) == Some(b.liveGet(a.name).error)
    ensures b.liveGet(a.name).Success? && b.check(b.liveGet(a.name).value).Some? ==>
              Admission(a, b, true)
              == Some(Forbidden(a.kind, a.name, [DeletionNotConfirmed(b.check(b.liveGet(a.name).value).value)]))
    ensures b.liveGet(a.name).Success? && b.check(b.liveGet(a.name).value).None? ==> Admission(a, b, true).None?
  {
  }

  /** A named delete is admitted exactly when the cached copy or, failing that, the live copy has been
      read and confirmed. */
  lemma NamedDeleteAdmittedIffConfirmed(a: Attributes, b: Backend)
    requires ListedNamesNonEmpty(b)
    requires !a.kind.OtherKind? && a.name != ""
    ensures Admission(a, b, true).None? <==>
              (b.cacheGet(a.name).Success? && b.check(b.cacheGet(a.name).value).None?)
              || ((b.cacheGet(a.name).Success? || b.cacheGet(a.name).error.NotFound?)
                  && b.liveGet(a.name).Success? && b.check(b.liveGet(a.name).value).None?)
  {
  }

  /** No relevant deletion is admitted, singly or as part of a collection, unless each object it deletes
      was read from cache or live and passed the confirmation check. */
  lemma {:induction false} AdmittedOnlyIfConfirmed(a: Attributes, b: Backend, ready: bool, k: nat)
    requires ListedNamesNonEmpty(b)
    requires !a.kind.OtherKind? && a.name == "" && b.list.Success? && k < |b.list.value|
    requires Admission(a, b, ready).None?
    ensures ready
    ensures var n := b.list.value[k].name;
            (b.cacheGet(n).Success? && b.check(b.cacheGet(n).value).None?)
            || (b.liveGet(n).Success? && b.check(b.liveGet(n).value).None?)
  {
    CollectErrorsCharacterized(a, b.list.value, b, ready);
    assert Admission(a.(name := b.list.value[k].name), b, ready).None?;
  }
}
