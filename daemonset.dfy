/**
 * Readiness of a DaemonSet and the idempotent pod-template annotator, over a
 * cluster client modelled as a store of DaemonSets.
 */
module DaemonSets {
  import opened Wrappers
  import opened Kube

  datatype DaemonSetStatus = DaemonSetStatus(
    observedGeneration: int,
    desiredNumberScheduled: int,
    updatedNumberScheduled: int,
    numberReady: int)

  /**
   * The parts of a DaemonSet the core reads or writes: its name, its
   * generation, the annotations of its pod template (`None` is a nil map)
   * and its status.
   */
  datatype DaemonSet = DaemonSet(
    name: NamespacedName,
    generation: int,
    templateAnnotations: Option<map<string, string>>,
    status: DaemonSetStatus)

  /** The errors the prober and the annotator return, wrapping the client's error. */
  datatype Error = GetFailed(name: NamespacedName, cause: ApiError) | PatchFailed(name: NamespacedName, cause: ApiError)

  /** The status describes the current spec, every desired pod runs the current template and is ready. */
  predicate RolledOut(ds: DaemonSet): (r: bool)
    ensures r ==> ds.status.observedGeneration == ds.generation
    ensures r ==> ds.status.numberReady >= ds.status.updatedNumberScheduled
  {
    && ds.status.observedGeneration == ds.generation
    && ds.status.updatedNumberScheduled == ds.status.desiredNumberScheduled
    && ds.status.numberReady >= ds.status.desiredNumberScheduled
  }

  /** Go's map index: the stored value, or "" for a missing key. */
  function Lookup(annotations: map<string, string>, key: string): string
  {
    if key in annotations then annotations[key] else ""
  }

  /** The annotator leaves a DaemonSet alone when its non-nil annotation map already yields `value` for `key`. */
  predicate AlreadyAnnotated(ds: DaemonSet, key: string, value: string): (r: bool)
    ensures r ==> ds.templateAnnotations.Some?
    ensures value != "" ==>
      (r <==> ds.templateAnnotations.Some? && key in ds.templateAnnotations.value && ds.templateAnnotations.value[key] == value)
  {
    ds.templateAnnotations.Some? && Lookup(ds.templateAnnotations.value, key) == value
  }

  /** The DaemonSet with its pod-template annotation `key` set to `value`; a nil map becomes a new one. */
  function Annotated(ds: DaemonSet, key: string, value: string): (r: DaemonSet)
    ensures r.templateAnnotations.Some? && key in r.templateAnnotations.value && r.templateAnnotations.value[key] == value
    ensures r == ds.(templateAnnotations := r.templateAnnotations)
  {
    var annotations := if ds.templateAnnotations.None? then map[] else ds.templateAnnotations.value;
    ds.(templateAnnotations := Some(annotations[key := value]))
  }

  /**
   * The cluster as the client sees it. `objects` is the stored state;
   * `getFault` and `patchFault` stand for a transport or server failure that
   * the next read or write would report; `patchRequests` records every patch
   * sent, whether or not it succeeded.
   */
  class Client {
    var objects: map<NamespacedName, DaemonSet>
    var getFault: Option<string>
    var patchFault: Option<string>
    var patchRequests: seq<DaemonSet>

    /** Every object is stored under its own name. */
    ghost predicate Valid()
      reads this
    {
      forall n :: n in objects ==> objects[n].name == n
    }

    constructor (objects: map<NamespacedName, DaemonSet>, getFault: Option<string>, patchFault: Option<string>)
      requires forall n :: n in objects ==> objects[n].name == n
      ensures Valid()
      ensures this.objects == objects && this.getFault == getFault && this.patchFault == patchFault
      ensures patchRequests == []
    {
      this.objects := objects;
      this.getFault := getFault;
      this.patchFault := patchFault;
      this.patchRequests := [];
    }

    /** What reading `name` returns. */
    function Get(name: NamespacedName): (r: Result<DaemonSet, ApiError>)
      reads this
      ensures r.Ok? ==> name in objects && r.value == objects[name]
      ensures r == Err(NotFound) <==> getFault.None? && name !in objects
      ensures Valid() && r.Ok? ==> r.value.name == name
    {
      if getFault.Some? then Err(ApiFailure(getFault.value))
      else if name !in objects then Err(NotFound)
      else Ok(objects[name])
    }

    /**
     * Writes `obj` over the stored object of the same name. The merge patch
     * the source computes against the fetched object is, with no concurrent
     * writer, the same as this replacement.
     */
    method Patch(obj: DaemonSet) returns (err: Option<ApiError>)
      requires Valid()
      modifies this
      ensures Valid()
      ensures getFault == old(getFault) && patchFault == old(patchFault)
      ensures patchRequests == old(patchRequests) + [obj]
      ensures err == (if patchFault.Some? then Some(ApiFailure(patchFault.value))
                      else if obj.name !in old(objects) then Some(NotFound)
                      else None)
      ensures objects == if err.None? then old(objects)[obj.name := obj] else old(objects)
    {
      patchRequests := patchRequests + [obj];
      if patchFault.Some? {
        err := Some(ApiFailure(patchFault.value));
      } else if obj.name !in objects {
        err := Some(NotFound);
      } else {
        objects := objects[obj.name := obj];
        err := None;
      }
    }
  }

  class DaemonSetProber {
    const client: Client

    constructor (client: Client)
      ensures this.client == client
    {
      this.client := client;
    }

    /**
     * Whether the DaemonSet `name` has rolled out. A DaemonSet not yet created
     * is not ready but is no error; any other read failure is.
     */
    method IsReady(name: NamespacedName) returns (ready: bool, err: Option<Error>)
      ensures ready <==> name in client.objects && client.getFault.None? && RolledOut(client.objects[name])
      ensures err.None? <==> client.getFault.None?
      ensures client.getFault.Some? ==> err == Some(GetFailed(name, ApiFailure(client.getFault.value)))
    {
      var fetched := client.Get(name);
      if fetched.Err? {
        if fetched.error == NotFound {
          return false, None;
        }
        return false, Some(GetFailed(name, fetched.error));
      }
      var ds := fetched.value;
      var generation := ds.generation;
      var observedGeneration := ds.status.observedGeneration;
      var updated := ds.status.updatedNumberScheduled;
      var desired := ds.status.desiredNumberScheduled;
      var readyPods := ds.status.numberReady;
      return observedGeneration == generation && updated == desired && readyPods >= desired, None;
    }
  }

  class DaemonSetAnnotator {
    const client: Client

    constructor (client: Client)
      ensures this.client == client
    {
      this.client := client;
    }

    /**
     * Sets the pod-template annotation `key` of the DaemonSet `name` to
     * `value`, unless it already holds that value; a read error, not-found
     * included, and a write error are returned.
     */
    method SetAnnotation(name: NamespacedName, key: string, value: string) returns (err: Option<Error>)
      requires client.Valid()
      modifies client
      ensures client.Valid()
      ensures client.getFault == old(client.getFault) && client.patchFault == old(client.patchFault)
      ensures old(client.Get(name)).Err? ==>
        err == Some(GetFailed(name, old(client.Get(name)).error)) && unchanged(client)
      ensures old(client.Get(name)).Ok? && AlreadyAnnotated(old(client.Get(name)).value, key, value) ==>
        err.None? && unchanged(client)
      ensures old(client.Get(name)).Ok? && !AlreadyAnnotated(old(client.Get(name)).value, key, value) ==>
        var patched := Annotated(old(client.Get(name)).value, key, value);
        && client.patchRequests == old(client.patchRequests) + [patched]
        && err == (if client.patchFault.Some? then Some(PatchFailed(name, ApiFailure(client.patchFault.value))) else None)
        && client.objects == if err.None? then old(client.objects)[name := patched] else old(client.objects)
    {
      var fetched := client.Get(name);
      if fetched.Err? {
        return Some(GetFailed(name, fetched.error));
      }
      var ds := fetched.value;
      var patchedDS := ds;
      if patchedDS.templateAnnotations.None? {
        patchedDS := patchedDS.(templateAnnotations := Some(map[]));
      } else if Lookup(patchedDS.templateAnnotations.value, key) == value {
        return None;
      }
      patchedDS := patchedDS.(templateAnnotations := Some(patchedDS.templateAnnotations.value[key := value]));
      assert patchedDS == Annotated(ds, key, value);
      var patchErr := client.Patch(patchedDS);
      if patchErr.Some? {
        return Some(PatchFailed(name, patchErr.value));
      }
      return None;
    }
  }

  /**
   * Two calls with the same key and value: once the first has succeeded, the
   * second succeeds without sending a patch, so the only write is the first
   * call's, and only when the annotation was not already set.
   */
  method SetAnnotationTwice(annotator: DaemonSetAnnotator, name: NamespacedName, key: string, value: string)
    returns (first: Option<Error>, second: Option<Error>)
    requires annotator.client.Valid()
    modifies annotator.client
    ensures first.None? ==> second.None?
    ensures first.None? ==>
      var fetched := old(annotator.client.Get(name));
      && fetched.Ok?
      && annotator.client.patchRequests == old(annotator.client.patchRequests) +
           (if AlreadyAnnotated(fetched.value, key, value) then [] else [Annotated(fetched.value, key, value)])
    ensures first.None? ==>
      name in annotator.client.objects && AlreadyAnnotated(annotator.client.objects[name], key, value)
  {
    first := annotator.SetAnnotation(name, key, value);
    if first.None? {
      AnnotatedIsAnnotated(old(annotator.client.Get(name)).value, key, value);
    }
    second := annotator.SetAnnotation(name, key, value);
  }

  /** The annotator's result carries the new annotation and keeps every other annotation and field. */
  lemma AnnotatedChangesOnlyKey(ds: DaemonSet, key: string, value: string)
    ensures var r := Annotated(ds, key, value);
      && r.templateAnnotations.Some?
      && key in r.templateAnnotations.value && r.templateAnnotations.value[key] == value
      && (forall k :: k != key ==>
            Lookup(r.templateAnnotations.value, k) == (if ds.templateAnnotations.None? then "" else Lookup(ds.templateAnnotations.value, k)))
      && (ds.templateAnnotations.None? ==> r.templateAnnotations.value == map[key := value])
      && (ds.templateAnnotations.Some? ==> r.templateAnnotations.value.Keys == ds.templateAnnotations.value.Keys + {key})
      && r.name == ds.name && r.generation == ds.generation && r.status == ds.status
  {
  }

  /** Idempotence: an annotated DaemonSet needs no further write for the same key and value. */
  lemma AnnotatedIsAnnotated(ds: DaemonSet, key: string, value: string)
    ensures AlreadyAnnotated(Annotated(ds, key, value), key, value)
    ensures Annotated(Annotated(ds, key, value), key, value) == Annotated(ds, key, value)
  {
    var once := Annotated(ds, key, value).templateAnnotations.value;
    assert once[key := value] == once;
  }

  /** Go's zero-value lookup: with a non-nil map, an empty value for an absent key counts as already set. */
  lemma EmptyValueForAbsentKeySkipsWrite(ds: DaemonSet, key: string)
    requires ds.templateAnnotations.Some? && key !in ds.templateAnnotations.value
    ensures AlreadyAnnotated(ds, key, "")
  {
  }

  /** A nil map is never already annotated, whatever the value. */
  lemma NilAnnotationsAlwaysWritten(ds: DaemonSet, key: string, value: string)
    requires ds.templateAnnotations.None?
    ensures !AlreadyAnnotated(ds, key, value)
  {
  }

  /** A status that still describes the previous generation is never ready, whatever the counters say. */
  lemma StaleStatusNotReady(ds: DaemonSet)
    requires ds.status.observedGeneration != ds.generation
    ensures !RolledOut(ds)
  {
  }

  /** The readiness example: generation 5, observed 5, desired, updated and ready 3 is ready; observed 4 is not. */
  lemma ReadinessExample(name: NamespacedName, annotations: Option<map<string, string>>)
    ensures RolledOut(DaemonSet(name, 5, annotations, DaemonSetStatus(5, 3, 3, 3)))
    ensures !RolledOut(DaemonSet(name, 5, annotations, DaemonSetStatus(4, 3, 3, 3)))
  {
  }
}
