/** TaskPerformerContextManager: the registry of task performers a
    processing service can run, keyed by an identifier built from each
    performer's class name and version. */
module TaskPerformers {
  import opened Primitives

  /** An ITaskPerformer as the registry sees it: its Name and Version
      properties, either of which may be null. */
  datatype Performer = Performer(name: Option<string>, version: Option<string>)

  /** The performer behind the default context: NoneTaskPerformer, whose
      Name and Version are empty. */
  const NonePerformer := Performer(Some(""), Some(""))

  /** TaskPerformerContext: the context built around one performer. */
  class TaskPerformerContext {
    const performer: Performer

    constructor (performer: Performer)
      ensures this.performer == performer
    {
      this.performer := performer;
    }
  }

  /** GetClassIdentifier: "" for a null or whitespace name, the name alone
      for a null or whitespace version, "name-version" otherwise. */
  function ClassIdentifier(name: Option<string>, version: Option<string>): (id: string)
    ensures id == "" <==> IsNullOrWhiteSpace(name)
    ensures !IsNullOrWhiteSpace(name) ==> name.value <= id
    ensures !IsNullOrWhiteSpace(name) && !IsNullOrWhiteSpace(version) ==>
              |id| == |name.value| + 1 + |version.value| && id[|name.value|] == '-'
              && id[|name.value| + 1..] == version.value
    ensures !IsNullOrWhiteSpace(name) && IsNullOrWhiteSpace(version) ==> id == name.value
  {
    if IsNullOrEmpty(name) || IsNullOrWhiteSpace(name) then ""
    else if IsNullOrEmpty(version) || IsNullOrWhiteSpace(version) then name.value
    else name.value + "-" + version.value
  }

  /** The registered performers, by identifier. */
  type Registry = map<string, Performer>

  datatype Outcome = Outcome(registry: Registry, ok: bool)

  /** What Add accepts: a non-null instance with a non-empty name and a
      non-empty version (whitespace is accepted). */
  predicate Acceptable(instance: Option<Performer>)
  {
    instance.Some? && !IsNullOrEmpty(instance.value.name) && !IsNullOrEmpty(instance.value.version)
  }

  /** Add: an acceptable performer goes in under its identifier when that
      identifier is free; an entry already present is never replaced. */
  function AddTo(r: Registry, instance: Option<Performer>): (o: Outcome)
    ensures o.ok <==> Acceptable(instance) && ClassIdentifier(instance.value.name, instance.value.version) !in r
    ensures o.ok ==> o.registry.Keys == r.Keys + {ClassIdentifier(instance.value.name, instance.value.version)}
    ensures !o.ok ==> o.registry == r
    ensures forall id :: id in r ==> id in o.registry && o.registry[id] == r[id]
  {
    if Acceptable(instance) then
      var id := ClassIdentifier(instance.value.name, instance.value.version);
      if id !in r then Outcome(r[id := instance.value], true) else Outcome(r, false)
    else Outcome(r, false)
  }

  /** Remove: nothing for a null or empty name or version; otherwise the
      entry under the identifier goes, reporting whether there was one. */
  function RemoveFrom(r: Registry, name: Option<string>, version: Option<string>): (o: Outcome)
    ensures o.ok ==> o.registry.Keys == r.Keys - {ClassIdentifier(name, version)}
    ensures o.ok <==> !IsNullOrEmpty(name) && !IsNullOrEmpty(version) && ClassIdentifier(name, version) in r
    ensures o.registry.Keys <= r.Keys && forall id :: id in o.registry ==> o.registry[id] == r[id]
  {
    if IsNullOrEmpty(name) || IsNullOrEmpty(version) then Outcome(r, false)
    else
      var id := ClassIdentifier(name, version);
      Outcome(r - {id}, id in r)
  }

  /** TryGetContext: the performer registered under a non-empty identifier
      built from non-null name and version, or None for the default
      context. */
  function Lookup(r: Registry, name: Option<string>, version: Option<string>): (p: Option<Performer>)
    ensures p.Some? <==> name.Some? && version.Some? && !IsNullOrWhiteSpace(name) && ClassIdentifier(name, version) in r
    ensures p.Some? ==> p.value == r[ClassIdentifier(name, version)]
  {
    if name.Some? && version.Some? then
      var id := ClassIdentifier(name, version);
      if |id| > 0 && id in r then Some(r[id]) else None
    else None
  }

  /** A performer with a non-whitespace name can be found again, under the
      same name and version, right after it is added. */
  lemma AddThenLookup(r: Registry, p: Performer)
    requires AddTo(r, Some(p)).ok
    requires !IsBlank(p.name.value)
    ensures Lookup(AddTo(r, Some(p)).registry, p.name, p.version) == Some(p)
  {
  }

  /** A performer whose name is all whitespace is accepted but stored under
      "", which lookup never consults: it can never be found, and once it
      is there every other whitespace-named performer is refused. */
  lemma WhitespaceNameUnreachable(r: Registry, p: Performer, q: Performer)
    requires Acceptable(Some(p)) && IsBlank(p.name.value)
    requires Acceptable(Some(q)) && IsBlank(q.name.value)
    ensures AddTo(r, Some(p)).ok <==> "" !in r
    ensures Lookup(AddTo(r, Some(p)).registry, p.name, p.version).None?
    ensures !AddTo(AddTo(r, Some(p)).registry, Some(q)).ok
  {
  }

  /** Removing under the name and version just added undoes the add. */
  lemma AddThenRemove(r: Registry, p: Performer)
    requires AddTo(r, Some(p)).ok
    ensures RemoveFrom(AddTo(r, Some(p)).registry, p.name, p.version) == Outcome(r, true)
  {
    var id := ClassIdentifier(p.name, p.version);
    assert AddTo(r, Some(p)).registry - {id} == r;
  }

  /** The identifier does not keep name and version apart when a name
      contains '-': ("a-b", "c") and ("a", "b-c") share "a-b-c", so the
      second is refused after the first. */
  lemma IdentifierCollision(r: Registry)
    requires "a-b-c" !in r
    ensures ClassIdentifier(Some("a-b"), Some("c")) == ClassIdentifier(Some("a"), Some("b-c"))
    ensures var first := AddTo(r, Some(Performer(Some("a-b"), Some("c"))));
            first.ok && !AddTo(first.registry, Some(Performer(Some("a"), Some("b-c")))).ok
  {
    assert !IsWhiteSpaceChar('a') && !IsWhiteSpaceChar('b') && !IsWhiteSpaceChar('c');
    assert "a-b"[0] == 'a' && "a"[0] == 'a' && "c"[0] == 'c' && "b-c"[0] == 'b';
    assert ClassIdentifier(Some("a-b"), Some("c")) == "a-b-c";
    assert ClassIdentifier(Some("a"), Some("b-c")) == "a-b-c";
  }

  /** Two whitespace versions of the same name share the bare name as
      identifier, so only the first is registered. */
  lemma BlankVersionsCollapse(r: Registry, name: string, v1: string, v2: string)
    requires !IsBlank(name) && IsBlank(v1) && IsBlank(v2) && v1 != "" && v2 != ""
    requires name !in r
    ensures var first := AddTo(r, Some(Performer(Some(name), Some(v1))));
            first.ok && !AddTo(first.registry, Some(Performer(Some(name), Some(v2)))).ok
  {
  }

  /** Where no name contains '-' and no version is blank, the identifier
      determines name and version. */
  lemma {:induction false} IdentifierInjective(n1: string, v1: string, n2: string, v2: string)
    requires !IsBlank(n1) && !IsBlank(n2) && !IsBlank(v1) && !IsBlank(v2)
    requires '-' !in n1 && '-' !in n2
    requires ClassIdentifier(Some(n1), Some(v1)) == ClassIdentifier(Some(n2), Some(v2))
    ensures n1 == n2 && v1 == v2
  {
    var id := ClassIdentifier(Some(n1), Some(v1));
    if |n1| != |n2| {
      assert false;
    }
    assert n1 == id[..|n1|] == n2;
    assert v1 == id[|n1| + 1..] == v2;
  }

  /** The manager: a dictionary of contexts and the shared default context
      handed out when a lookup fails. */
  class TaskPerformerContextManager {
    var performers: map<string, TaskPerformerContext>
    const noneContext: TaskPerformerContext

    /** The registered performers, as the pure registry. */
    function Registered(): Registry
      reads this
    {
      map id | id in performers :: performers[id].performer
    }

    constructor ()
      ensures performers == map[] && noneContext.performer == NonePerformer
    {
      performers := map[];
      noneContext := new TaskPerformerContext(NonePerformer);
    }

    method Add(instance: Option<Performer>) returns (added: bool)
      modifies this
      ensures var o := AddTo(old(Registered()), instance);
              added == o.ok && Registered() == o.registry
      ensures forall id :: id in old(performers) ==> id in performers && performers[id] == old(performers)[id]
      ensures added ==> fresh(performers[ClassIdentifier(instance.value.name, instance.value.version)])
    {
      if Acceptable(instance) {
        var id := ClassIdentifier(instance.value.name, instance.value.version);
        if id !in performers {
          var context := new TaskPerformerContext(instance.value);
          performers := performers[id := context];
          return true;
        }
      }
      return false;
    }

    method Remove(name: Option<string>, version: Option<string>) returns (removed: bool)
      modifies this
      ensures var o := RemoveFrom(old(Registered()), name, version);
              removed == o.ok && Registered() == o.registry
      ensures performers.Keys <= old(performers.Keys)
      ensures forall id :: id in performers ==> performers[id] == old(performers)[id]
    {
      if !IsNullOrEmpty(name) && !IsNullOrEmpty(version) {
        var id := ClassIdentifier(name, version);
        removed := id in performers;
        performers := performers - {id};
        return;
      }
      return false;
    }

    method TryGetContext(name: Option<string>, version: Option<string>) returns (found: bool, context: TaskPerformerContext)
      ensures var p := Lookup(Registered(), name, version);
              found == p.Some? && (found ==> context == performers[ClassIdentifier(name, version)] && context.performer == p.value)
      ensures !found ==> context == noneContext
    {
      if name.Some? && version.Some? {
        var id := ClassIdentifier(name, version);
        if |id| > 0 && id in performers {
          return true, performers[id];
        }
      }
      return false, noneContext;
    }
  }
}
