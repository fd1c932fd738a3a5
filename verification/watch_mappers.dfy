/**
 * The watch mappers that turn a change to a related object into the reference of the
 * DockerMachine (or other infrastructure object) to reconcile.
 */
module WatchMappers {
  import opened Wrappers
  import opened Resources

  /** A reference to an object to reconcile; `within` always sets the namespace. */
  datatype ObjectRef = ObjectRef(name: string, namespace: Option<string>)

  /** Maps a Machine to the object its infrastructure reference names, provided the
      reference has a name and declares exactly the `target` kind and API version. */
  function ToMachine(machine: Machine, target: ResourceType): (r: Option<ObjectRef>)
    ensures r.Some? <==>
      && machine.infrastructureRef.kind == Some(target.kind)
      && machine.infrastructureRef.apiVersion == Some(target.apiVersion)
      && machine.infrastructureRef.name.Some?
    ensures r.Some? ==> r.value.name == machine.infrastructureRef.name.value
    ensures r.Some? ==> r.value.namespace.Some?
    ensures r.Some? && machine.infrastructureRef.namespace.Some? ==>
      r.value.namespace == machine.infrastructureRef.namespace
    ensures r.Some? && machine.infrastructureRef.namespace.None? ==> r.value.namespace == Some("")
  {
    var ref := machine.infrastructureRef;
    match (ref.kind, ref.apiVersion, ref.name)
    case (Some(kind), Some(apiVersion), Some(name)) =>
      if kind == target.kind && apiVersion == target.apiVersion then
        Some(ObjectRef(name, Some(ref.namespace.UnwrapOr(""))))
      else None
    case _ => None
  }

  /** A reference that declares the target type and carries a namespace is mapped back
      to exactly the object it names, whatever the Machine's metadata. */
  lemma ToMachineRoundTrip(meta: ObjectMeta, target: ResourceType, r: ObjectRef)
    requires r.namespace.Some?
    ensures ToMachine(Machine(meta, ObjectReference(Some(target.apiVersion), Some(target.kind),
                                                    Some(r.name), r.namespace)), target) == Some(r)
  {
  }

  /** Maps a Cluster change to nothing: the list request it builds is never awaited, so
      it is never sent, and no reference is ever produced. */
  function ClusterToMachine(cluster: Cluster): (r: Option<ObjectRef>)
    ensures r.None?
  {
    None
  }
}
