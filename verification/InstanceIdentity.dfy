/**
 * The first start of an Agent (backend/ic_env_guard/bootstrap/identity.py): an
 * intent file, the database migrations, the identity file and a marker in the
 * database, written in this order by a process that may stop between any two of
 * these steps.  Starts may be configured with different identity paths.
 */
module InstanceIdentity {
  import opened Wrappers

  datatype Result = Started(id: nat) | Refused | Stopped

  /** The migrations, and the first one after which a missing identity is not bootstrapped any more. */
  const Latest: nat := 5
  const Managed: nat := 4

  class Disk {
    /** The identity path recorded in the intent file. */
    var intent: Option<nat>
    /** The identity files. */
    var ids: map<nat, nat>
    /** How many migrations the database has. */
    var version: nat
    /** The marker and the identity path bound to it. */
    var marker: bool
    var binding: Option<nat>
    /** Every identity that was ever put in place. */
    ghost var published: seq<nat>

    /** A machine without identity; its database, if any, is older than the identity. */
    constructor (version: nat)
      requires version < Managed
      ensures Consistent() && published == [] && intent == None && this.version == version
    {
      intent, ids, this.version, marker, binding, published := None, map[], version, false, None, [];
    }

    /** The identity path in use, if there is one. */
    ghost predicate UsesOnly(path: nat)
      reads this
    {
      && (intent.Some? ==> intent.value == path)
      && (binding.Some? ==> binding.value == path)
      && ids.Keys <= {path}
    }

    /** Another path is in use, or an identity that must exist is missing. */
    ghost predicate Refuses(path: nat)
      reads this
    {
      || (intent.Some? && intent.value != path)
      || (binding.Some? && binding.value != path)
      || (path !in ids && (marker || (intent.None? && version >= Managed)))
    }

    /** What every crash leaves: no identity yet and a way to bootstrap one, or exactly one. */
    ghost predicate Consistent()
      reads this
    {
      && version <= Latest
      && if published == [] then
           ids == map[] && !marker && binding.None? && (intent.Some? || version < Managed)
         else
           && |published| == 1 && version == Latest
           && (exists path :: path in ids && ids == map[path := published[0]] && UsesOnly(path))
           && (intent.None? ==> marker)
           && (marker ==> binding.Some?)
    }

    /** `initialize_instance_id` for an identity path, with the identity it would draw. */
    method Start(path: nat, drawn: nat, budget: nat) returns (r: Result)
      modifies this
      ensures old(Consistent()) ==> Consistent()
      ensures published == old(published) || published == old(published) + [drawn]
      ensures old(Consistent()) && old(published) != [] ==> published == old(published)
      ensures r.Started? ==> path in ids && ids[path] == r.id && marker && (old(Consistent()) ==> published == [r.id])
      ensures old(Consistent()) && old(UsesOnly(path)) ==> !r.Refused? && UsesOnly(path)
      ensures old(Consistent()) && old(UsesOnly(path)) && budget >= Latest + 4 ==> r.Started?
      ensures r.Refused? ==> old(Refuses(path))
      ensures old(Refuses(path)) ==> !r.Started? && ids == old(ids) && published == old(published)
    {
      var left := budget;
      if intent.Some? && intent.value != path {
        return Refused;
      }
      var allowed := intent.Some? || version < Managed;
      if allowed && intent.None? {
        if left == 0 {
          return Stopped;
        }
        left := left - 1;
        intent := Some(path);
      }
      while version < Latest
        invariant ids == old(ids) && marker == old(marker) && binding == old(binding) && published == old(published)
        invariant old(version) <= version && (old(version) <= Latest ==> version <= Latest)
        invariant allowed ==> intent == Some(path)
        invariant !allowed ==> intent == old(intent)
        invariant budget <= left + 1 + version - old(version)
        decreases Latest - version
      {
        if left == 0 {
          return Stopped;
        }
        left := left - 1;
        version := version + 1;
      }
      if binding.Some? && binding.value != path {
        return Refused;
      }
      var id: nat;
      if path in ids {
        id := ids[path];
      } else {
        if marker || !allowed {
          return Refused;
        }
        if left == 0 {
          return Stopped;
        }
        left := left - 1;
        id := drawn;
        ids, published := ids[path := drawn], published + [drawn];
      }
      assert old(Consistent()) ==> published == [id] && ids == map[path := id] && path in ids && UsesOnly(path);
      if left == 0 {
        return Stopped;
      }
      left := left - 1;
      binding, marker := Some(path), true;
      assert old(Consistent()) ==> path in ids && UsesOnly(path);
      if allowed {
        if left == 0 {
          return Stopped;
        }
        left := left - 1;
        intent := None;
      }
      assert old(Consistent()) ==> path in ids && ids == map[path := published[0]] && UsesOnly(path);
      return Started(id);
    }

    /**
     * Any history of starts, each cut off after some number of steps, publishes at
     * most one identity, and every start that comes through reports that one.
     */
    method History(starts: seq<(nat, nat, nat)>) returns (results: seq<Result>)
      requires Consistent() && published == []
      modifies this
      ensures Consistent() && |published| <= 1 && |results| == |starts|
      ensures forall i :: 0 <= i < |results| && results[i].Started? ==> published == [results[i].id]
      ensures (forall i, j :: 0 <= i < |starts| && 0 <= j < |starts| ==> starts[i].0 == starts[j].0) && old(intent).None? ==>
                forall i :: 0 <= i < |results| ==> results[i] != Refused
    {
      results := [];
      for i := 0 to |starts|
        invariant Consistent() && |results| == i
        invariant forall k :: 0 <= k < i && results[k].Started? ==> published == [results[k].id]
        invariant (forall j, k :: 0 <= j < |starts| && 0 <= k < |starts| ==> starts[j].0 == starts[k].0) && old(intent).None? ==>
                    && (forall j :: 0 <= j < |starts| ==> UsesOnly(starts[j].0))
                    && forall k :: 0 <= k < i ==> results[k] != Refused
      {
        var r := Start(starts[i].0, starts[i].1, starts[i].2);
        results := results + [r];
      }
    }
  }
}
