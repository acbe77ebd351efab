/**
 * The file-based credential store
 * (backend/ic_env_guard/enrollment/credential_store.py).  A directory maps names to
 * files and files to their bytes; published references and temporary names are
 * kept in two maps.  A script says of each file operation whether it is carried
 * out, fails, or finds the process gone; what was carried out persists.
 */
module CredentialStore {
  import opened Utf8

  /** A call returns, reports an error, or stops with the process. */
  datatype Result<T> = Done(value: T) | Refused | Stopped

  /** What becomes of one file operation. */
  datatype Step = Go | Fail | Stop

  /** The step of operation `i`; a script that has run out says nothing against it. */
  function At(script: seq<Step>, i: nat): Step {
    if i < |script| then script[i] else Go
  }

  predicate AllGo(script: seq<Step>, from: nat, n: nat) {
    forall i: nat :: from <= i < from + n ==> At(script, i) == Go
  }

  /** How many writes it takes to write `n` bytes, at most `chunk` at a time. */
  function Writes(n: nat, chunk: nat): nat {
    if n == 0 || chunk == 0 then 0 else 1 + Writes(if chunk < n then n - chunk else 0, chunk)
  }

  /** The operations that create a temporary file, write it and flush it. */
  function Writing(secret: seq<byte>, chunk: nat): nat { Writes(|secret|, chunk) + 2 }

  /** The names of the first map that lead to a file. */
  function NamesOf(names: map<nat, nat>, file: nat): set<nat> {
    set n | n in names && names[n] == file
  }

  /** `st_nlink` */
  function LinkCount(refs: map<nat, nat>, tmps: map<nat, nat>, file: nat): nat {
    |NamesOf(refs, file)| + |NamesOf(tmps, file)|
  }

  predicate Injective(names: map<nat, nat>) {
    forall m, n :: m in names && n in names && names[m] == names[n] ==> m == n
  }

  /** Two names of the same kind never share a file, so a file has one name of a kind or none. */
  lemma OneName(names: map<nat, nat>, file: nat)
    requires Injective(names)
    ensures |NamesOf(names, file)| == if exists n :: n in names && names[n] == file then 1 else 0
  {
    var s := NamesOf(names, file);
    if n :| n in names && names[n] == file {
      assert s == {n};
    } else {
      assert s == {};
    }
  }

  /** What `_recover_temporary_files` accepts: no other name, or exactly one published one. */
  predicate Recoverable(refs: map<nat, nat>, tmps: map<nat, nat>, file: nat) {
    LinkCount(refs, tmps, file) == 1 || (LinkCount(refs, tmps, file) == 2 && |NamesOf(refs, file)| == 1)
  }

  lemma TidyIsRecoverable(refs: map<nat, nat>, tmps: map<nat, nat>, t: nat)
    requires t in tmps
    ensures Injective(refs) && Injective(tmps) ==> Recoverable(refs, tmps, tmps[t])
  {
    if Injective(refs) && Injective(tmps) {
      OneName(refs, tmps[t]);
      OneName(tmps, tmps[t]);
    }
  }

  class Store {
    var refs: map<nat, nat>
    var tmps: map<nat, nat>
    var files: map<nat, seq<byte>>
    var next: nat

    /** An empty directory. */
    constructor ()
      ensures Valid() && Published() == map[] && refs == map[] && tmps == map[]
    {
      refs, tmps, files, next := map[], map[], map[], 0;
    }

    /** Every name leads to a file. */
    ghost predicate WellFormed()
      reads this
    {
      && (forall r :: r in refs ==> refs[r] in files)
      && (forall t :: t in tmps ==> tmps[t] in files)
      && (forall f :: f in files ==> f < next)
    }

    ghost predicate Tidy()
      reads this
    {
      Injective(refs) && Injective(tmps)
    }

    ghost predicate Valid()
      reads this
    {
      WellFormed() && Tidy()
    }

    /** What the references hold. */
    ghost function Published(): (m: map<nat, seq<byte>>)
      requires WellFormed()
      reads this
    {
      map r | r in refs :: files[refs[r]]
    }

    /** All temporary names but `t` are as they were. */
    twostate predicate OthersKept(t: nat)
      reads this
    {
      && (forall m :: m != t ==> (m in tmps <==> m in old(tmps)))
      && (forall m :: m in tmps && m != t ==> tmps[m] == old(tmps)[m])
    }

    /** At most the temporary name `t` has changed, and then to a file of its own. */
    twostate predicate OnlyTemporary(t: nat)
      reads this
    {
      && refs == old(refs) && OthersKept(t)
      && (t in tmps ==> (t in old(tmps) && tmps[t] == old(tmps)[t]) || tmps[t] !in old(files))
      && (forall f :: f in old(files) ==> f in files && files[f] == old(files)[f])
    }

    /** Takes a temporary name away, if the operation is carried out. */
    method Discard(t: nat, step: Step)
      requires WellFormed()
      modifies this`tmps
      ensures WellFormed() && tmps == if step == Go then old(tmps) - {t} else old(tmps)
    {
      if step == Go {
        tmps := tmps - {t};
      }
    }

    /** `_write_temporary`: the secret in a file of its own, written in chunks. */
    method WriteTemporary(t: nat, secret: seq<byte>, chunk: nat, script: seq<Step>, at: nat) returns (r: Result<nat>, after: nat)
      requires WellFormed()
      modifies this
      ensures WellFormed() && OnlyTemporary(t)
      ensures r.Done? <==> t !in old(tmps) && (secret == [] || chunk > 0) && AllGo(script, at, Writing(secret, chunk))
      ensures r.Done? ==>
                && t in tmps && tmps[t] == r.value && r.value !in old(files) && r.value in files && files[r.value] == secret
                && after == at + Writing(secret, chunk)
      ensures r.Stopped? ==> Stop in script
    {
      after := at + 1;
      if At(script, at) == Stop {
        return Stopped, after;
      }
      if At(script, at) == Fail || t in tmps {
        r, after := GiveUp(t, script, after);
        assert !AllGo(script, at, Writing(secret, chunk)) || t in old(tmps);
        return;
      }
      var file := next;
      next := next + 1;
      files := files[file := []];
      tmps := tmps[t := file];
      r, after := WriteAll(t, file, secret, chunk, script, after);
      assert AllGo(script, at, Writing(secret, chunk)) <==> AllGo(script, at + 1, Writes(|secret|, chunk) + 1);
    }

    /** The error path: the temporary name is removed if that can be done. */
    method GiveUp<T>(t: nat, script: seq<Step>, at: nat) returns (r: Result<T>, after: nat)
      requires WellFormed()
      modifies this`tmps
      ensures WellFormed() && tmps == if At(script, at) == Go then old(tmps) - {t} else old(tmps)
      ensures r == if At(script, at) == Stop then Stopped else Refused
      ensures r.Stopped? ==> Stop in script
    {
      after := at + 1;
      Discard(t, At(script, at));
      return if At(script, at) == Stop then Stopped else Refused, after;
    }

    /** The loop of writes, and the flush. */
    method WriteAll(t: nat, file: nat, secret: seq<byte>, chunk: nat, script: seq<Step>, at: nat) returns (r: Result<nat>, after: nat)
      requires WellFormed() && t in tmps && tmps[t] == file && file in files && files[file] == []
      modifies this`files, this`tmps
      ensures WellFormed() && files.Keys == old(files.Keys)
      ensures forall f :: f in files && f != file ==> files[f] == old(files)[f]
      ensures tmps == old(tmps) || tmps == old(tmps) - {t}
      ensures r.Done? <==> (secret == [] || chunk > 0) && AllGo(script, at, Writes(|secret|, chunk) + 1)
      ensures r.Done? ==> tmps == old(tmps) && r.value == file && files[file] == secret && after == at + Writes(|secret|, chunk) + 1
      ensures r.Stopped? ==> Stop in script
    {
      var w;
      w, after := WriteChunks(file, secret, chunk, script, at);
      LastStep(script, at, Writes(|secret|, chunk));
      if w.Done? && At(script, after) == Go {
        return Done(file), after + 1;
      }
      if w.Stopped? || (w.Done? && At(script, after) == Stop) {
        return Stopped, after + 1;
      }
      r, after := GiveUp(t, script, after + 1);
    }

    method WriteChunks(file: nat, secret: seq<byte>, chunk: nat, script: seq<Step>, at: nat) returns (r: Result<()>, after: nat)
      requires file in files && files[file] == []
      modifies this`files
      ensures files.Keys == old(files.Keys) && forall f :: f in files && f != file ==> files[f] == old(files)[f]
      ensures r.Done? <==> (secret == [] || chunk > 0) && AllGo(script, at, Writes(|secret|, chunk))
      ensures r.Done? ==> files[file] == secret && after == at + Writes(|secret|, chunk)
      ensures r.Stopped? ==> Stop in script
    {
      var view := secret;
      after := at;
      while view != []
        invariant files.Keys == old(files.Keys) && forall f :: f in files && f != file ==> files[f] == old(files)[f]
        invariant files[file] + view == secret
        invariant at <= after && AllGo(script, at, after - at) && (secret == view || chunk > 0)
        invariant after + Writes(|view|, chunk) == at + Writes(|secret|, chunk)
        decreases |view|
      {
        if chunk == 0 {
          return if At(script, after) == Stop then Stopped else Refused, after;
        }
        var written := if chunk < |view| then chunk else |view|;
        assert Writes(|view|, chunk) == 1 + Writes(|view| - written, chunk);
        if At(script, after) != Go {
          return if At(script, after) == Stop then Stopped else Refused, after;
        }
        LastStep(script, at, after - at);
        files := files[file := files[file] + view[..written]];
        view := view[written..];
        after := after + 1;
      }
      return Done(()), after;
    }

    /** The link is made: everything before it is carried out, and the names are free. */
    ghost predicate Links(ref: nat, t: nat, secret: seq<byte>, chunk: nat, script: seq<Step>, at: nat)
      reads this
    {
      && ref !in refs && t !in tmps && (secret == [] || chunk > 0)
      && AllGo(script, at, Writing(secret, chunk) + 1)
    }

    /**
     * `_publish_new`: a hard link to the temporary file makes the reference, which
     * then loses its other name.  The whole secret is published exactly when the
     * link is made; the call succeeds exactly when the two operations after it are
     * carried out as well.
     */
    method PublishNew(ref: nat, t: nat, secret: seq<byte>, chunk: nat, script: seq<Step>, at: nat) returns (r: Result<bool>, after: nat)
      requires Valid()
      modifies this
      ensures Valid() && OthersKept(t)
      ensures Published() == if old(Links(ref, t, secret, chunk, script, at)) then old(Published())[ref := secret] else old(Published())
      ensures r == Done(true) <==>
                old(Links(ref, t, secret, chunk, script, at)) && AllGo(script, at + Writing(secret, chunk) + 1, 2)
      ensures r == Done(false) ==> ref in old(refs)
      ensures r.Done? ==> t !in old(tmps) && tmps == old(tmps)
      ensures r.Stopped? ==> Stop in script
    {
      var w;
      w, after := WriteTemporary(t, secret, chunk, script, at);
      KeepsPublished(t);
      if !w.Done? {
        return if w.Stopped? then Stopped else Refused, after;
      }
      LastStep(script, at, Writing(secret, chunk));
      r, after := LinkTemporary(ref, t, script, after);
      assert t !in tmps ==> tmps == old(tmps);
    }

    /** The link, and the two operations after it. */
    method LinkTemporary(ref: nat, t: nat, script: seq<Step>, at: nat) returns (r: Result<bool>, after: nat)
      requires Valid() && t in tmps && forall k :: k in refs ==> refs[k] != tmps[t]
      modifies this`refs, this`tmps
      ensures Valid() && (tmps == old(tmps) || tmps == old(tmps) - {t})
      ensures Published() == if ref !in old(refs) && At(script, at) == Go then old(Published())[ref := old(files[tmps[t]])] else old(Published())
      ensures r == Done(true) <==> ref !in old(refs) && AllGo(script, at, 3)
      ensures r == Done(false) ==> ref in old(refs)
      ensures r.Done? ==> tmps == old(tmps) - {t}
      ensures r.Stopped? ==> Stop in script
    {
      after := at + 1;
      if At(script, at) == Stop {
        return Stopped, after;
      }
      if At(script, at) == Fail {
        r, after := GiveUp(t, script, after);
        return;
      }
      if ref in refs {
        r, after := GiveUp(t, script, after);
        return if r.Refused? && t !in tmps then Done(false) else r, after;
      }
      LinkTo(ref, tmps[t]);
      assert AllGo(script, at, 3) <==> At(script, at) == Go && At(script, at + 1) == Go && At(script, at + 2) == Go;
      r, after := DropTemporary(t, script, after);
    }

    /** A reference to a file that no other reference leads to. */
    method LinkTo(ref: nat, file: nat)
      requires Valid() && file in files && forall k :: k in refs ==> refs[k] != file
      modifies this`refs
      ensures Valid() && Published() == old(Published())[ref := files[file]] && refs == old(refs)[ref := file]
    {
      refs := refs[ref := file];
      assert Published() == old(Published())[ref := files[file]];
    }

    /** After the link: the temporary name goes, and the directory is flushed. */
    method DropTemporary(t: nat, script: seq<Step>, at: nat) returns (r: Result<bool>, after: nat)
      requires Valid()
      modifies this`tmps
      ensures Valid() && (tmps == old(tmps) || tmps == old(tmps) - {t})
      ensures r.Done? ==> r.value
      ensures r.Done? <==> At(script, at) == Go && At(script, at + 1) == Go
      ensures r.Done? ==> tmps == old(tmps) - {t}
      ensures r.Stopped? ==> Stop in script
    {
      after := at + 2;
      if At(script, at) == Go {
        Discard(t, Go);
        return if At(script, at + 1) == Go then Done(true) else if At(script, at + 1) == Stop then Stopped else Refused, after;
      }
      if At(script, at) == Stop {
        return Stopped, after;
      }
      r, after := GiveUp(t, script, at + 1);
    }

    /** What the references hold does not depend on temporary names. */
    twostate lemma KeepsPublished(t: nat)
      requires old(WellFormed()) && WellFormed() && OnlyTemporary(t)
      ensures Published() == old(Published())
      ensures old(Tidy()) ==> Tidy()
    {
    }

    /**
     * `put`, with the eight references and temporary names it may draw.  Wherever
     * the process stops or an operation fails, the published credentials are those
     * of before, or those and one new reference with the whole secret; for names
     * nobody has drawn before, exactly when the link is made.
     */
    method Put(secret: seq<byte>, draws: seq<(nat, nat)>, chunk: nat, script: seq<Step>) returns (r: Result<nat>)
      requires Valid() && |draws| == 8
      modifies this
      ensures Valid()
      ensures r.Done? ==> r.value !in old(refs) && Published() == old(Published())[r.value := secret] && tmps == old(tmps)
      ensures !r.Done? ==>
                || Published() == old(Published())
                || (exists ref: nat :: ref !in old(Published()) && Published() == old(Published())[ref := secret])
      ensures secret != [] && draws[0].0 !in old(refs) ==>
                && Published() == (if old(Links(draws[0].0, draws[0].1, secret, chunk, script, 0))
                                   then old(Published())[draws[0].0 := secret] else old(Published()))
                && (r.Done? <==> old(Links(draws[0].0, draws[0].1, secret, chunk, script, 0)) && AllGo(script, Writing(secret, chunk) + 1, 2))
      ensures r.Stopped? ==> Stop in script
    {
      if secret == [] {
        return Refused;
      }
      var at := 0;
      for i := 0 to 8
        invariant Valid() && Published() == old(Published()) && tmps == old(tmps) && refs.Keys == old(refs.Keys)
        invariant i == 0 ==> at == 0 && refs == old(refs) && files == old(files) && next == old(next)
        invariant i > 0 ==> draws[0].0 in old(refs)
      {
        var done;
        assert i == 0 ==> Links(draws[0].0, draws[0].1, secret, chunk, script, at) == old(Links(draws[0].0, draws[0].1, secret, chunk, script, 0));
        done, at := PublishNew(draws[i].0, draws[i].1, secret, chunk, script, at);
        assert Published().Keys == refs.Keys;
        if !done.Done? {
          assert draws[i].0 !in old(refs) ==> draws[i].0 !in old(Published());
          return if done.Stopped? then Stopped else Refused;
        }
        if done.value {
          return Done(draws[i].0);
        }
        assert done == Done(false);
      }
      return Refused;
    }

    /** The rename is made: everything before it is carried out, on an existing reference. */
    ghost predicate Renames(ref: nat, secret: seq<byte>, t: nat, chunk: nat, script: seq<Step>)
      reads this
    {
      ref in refs && secret != [] && t !in tmps && chunk > 0 && AllGo(script, 0, Writing(secret, chunk) + 1)
    }

    /**
     * `replace`: a rename over an existing reference, so its old or its new secret is
     * there at any moment; the new one exactly when the rename is made, whether or
     * not the call then reports success.
     */
    method Replace(ref: nat, secret: seq<byte>, t: nat, chunk: nat, script: seq<Step>) returns (r: Result<()>)
      requires Valid()
      modifies this
      ensures Valid() && OthersKept(t)
      ensures Published() == if old(Renames(ref, secret, t, chunk, script)) then old(Published())[ref := secret] else old(Published())
      ensures r.Done? <==> old(Renames(ref, secret, t, chunk, script)) && At(script, Writing(secret, chunk) + 1) == Go
      ensures r.Done? ==> tmps == old(tmps)
      ensures r.Stopped? ==> Stop in script
    {
      if secret == [] || ref !in refs {
        return Refused;
      }
      var w, at := WriteTemporary(t, secret, chunk, script, 0);
      KeepsPublished(t);
      if !w.Done? {
        return if w.Stopped? then Stopped else Refused;
      }
      LastStep(script, 0, Writing(secret, chunk));
      r := RenameTemporary(ref, t, script, at);
      assert t !in tmps ==> tmps == old(tmps);
    }

    /** The rename, and the flush after it. */
    method RenameTemporary(ref: nat, t: nat, script: seq<Step>, at: nat) returns (r: Result<()>)
      requires Valid() && t in tmps && forall k :: k in refs ==> refs[k] != tmps[t]
      modifies this`refs, this`tmps
      ensures Valid() && (tmps == old(tmps) || tmps == old(tmps) - {t})
      ensures Published() == if At(script, at) == Go then old(Published())[ref := old(files[tmps[t]])] else old(Published())
      ensures r.Done? <==> At(script, at) == Go && At(script, at + 1) == Go
      ensures r.Done? ==> tmps == old(tmps) - {t}
      ensures r.Stopped? ==> Stop in script
    {
      if At(script, at) == Stop {
        return Stopped;
      }
      if At(script, at) == Fail {
        var after;
        r, after := GiveUp(t, script, at + 1);
        return;
      }
      LinkTo(ref, tmps[t]);
      Discard(t, Go);
      return if At(script, at + 1) == Go then Done(()) else if At(script, at + 1) == Stop then Stopped else Refused;
    }

    /** `delete`: the reference goes exactly when the unlink is made, whether or not the call then reports success. */
    method Delete(ref: nat, script: seq<Step>, at: nat) returns (r: Result<()>, after: nat)
      requires Valid()
      modifies this
      ensures Valid() && tmps == old(tmps)
      ensures Published() == if ref in old(refs) && At(script, at) == Go then old(Published()) - {ref} else old(Published())
      ensures r.Done? <==> ref in old(refs) && AllGo(script, at, 2)
      ensures r.Stopped? ==> Stop in script
      ensures r.Refused? ==> ref !in old(refs) || Fail in script
    {
      after := at + 2;
      if ref !in refs {
        return Refused, at;
      }
      if At(script, at) != Go {
        return if At(script, at) == Stop then Stopped else Refused, after;
      }
      refs := refs - {ref};
      assert Published() == old(Published()) - {ref};
      assert AllGo(script, at, 2) <==> At(script, at + 1) == Go;
      return if At(script, at + 1) == Go then Done(()) else if At(script, at + 1) == Stop then Stopped else Refused, after;
    }

    /**
     * `_recover_temporary_files` at the next start.  It takes no reference away;
     * unless an operation fails it reports an error only for a directory in which
     * two names of a kind share a file; and when it ends there is no temporary file.
     */
    method Recover(script: seq<Step>) returns (r: Result<()>)
      requires WellFormed()
      modifies this
      ensures WellFormed() && Published() == old(Published()) && refs == old(refs)
      ensures old(Tidy()) ==> Tidy() && (r.Refused? ==> Fail in script)
      ensures r.Done? ==> tmps == map[]
      ensures r.Stopped? ==> Stop in script
      ensures tmps.Keys <= old(tmps.Keys)
    {
      var at := 0;
      while tmps != map[]
        invariant WellFormed() && refs == old(refs) && files == old(files)
        invariant tmps.Keys <= old(tmps.Keys)
        invariant old(Tidy()) ==> Tidy()
        decreases |tmps.Keys|
      {
        var t :| t in tmps;
        TidyIsRecoverable(refs, tmps, t);
        if !Recoverable(refs, tmps, tmps[t]) {
          return Refused;
        }
        if At(script, at) != Go {
          return if At(script, at) == Stop then Stopped else Refused;
        }
        ghost var before := tmps;
        tmps := tmps - {t};
        assert tmps.Keys == before.Keys - {t};
        if At(script, at + 1) != Go {
          return if At(script, at + 1) == Stop then Stopped else Refused;
        }
        at := at + 2;
      }
      return Done(());
    }

    /**
     * `cleanup_orphans`: deletes every reference that is not retained and nothing
     * else; when it ends exactly the retained ones among the existing are left.
     */
    method CleanupOrphans(retained: set<nat>, script: seq<Step>) returns (r: Result<()>)
      requires Valid()
      modifies this
      ensures Valid() && tmps == old(tmps)
      ensures r.Refused? ==> Fail in script
      ensures r.Stopped? ==> Stop in script
      ensures r.Done? ==> Published() == Restricted(old(Published()), retained)
      ensures exists kept: set<nat> :: retained <= kept && Published() == Restricted(old(Published()), kept)
    {
      var at := 0;
      var todo := refs.Keys;
      assert Published() == Restricted(old(Published()), todo + retained);
      while todo != {}
        invariant Valid() && tmps == old(tmps) && todo <= refs.Keys
        invariant Published() == Restricted(old(Published()), todo + retained)
        decreases |todo|
      {
        var ref :| ref in todo;
        if ref !in retained {
          RestrictedLess(old(Published()), todo, retained, ref);
          var d;
          d, at := Delete(ref, script, at);
          assert refs.Keys == Published().Keys;
          if !d.Done? {
            assert retained <= todo + retained && retained <= todo - {ref} + retained;
            return if d.Stopped? then Stopped else Refused;
          }
        } else {
          assert todo + retained == todo - {ref} + retained;
        }
        todo := todo - {ref};
      }
      assert {} + retained == retained;
      return Done(());
    }

    /**
     * Any number of processes one after the other, with any failures and stops.
     * Every reference holds, whole, what it held at the outset or what some call
     * supplied.
     */
    method Lifetime(calls: seq<(Call, seq<Step>)>)
      requires Valid()
      modifies this
      ensures Valid()
      ensures forall ref :: ref in Published() ==> Published()[ref] in old(Published()).Values || Supplied(calls, |calls|, Published()[ref])
    {
      for i := 0 to |calls|
        invariant Valid()
        invariant forall ref :: ref in Published() ==> Published()[ref] in old(Published()).Values || Supplied(calls, i, Published()[ref])
      {
        ghost var before := Published();
        Perform(calls[i].0, calls[i].1);
        forall ref | ref in Published()
          ensures Published()[ref] in old(Published()).Values || Supplied(calls, i + 1, Published()[ref])
        {
          assert (ref in before && Published()[ref] == before[ref]) || Supplies(calls[i].0, Published()[ref]);
        }
      }
    }

    /** One call: every reference holds what it held or what the call supplied. */
    method Perform(call: Call, script: seq<Step>)
      requires Valid()
      modifies this
      ensures Valid()
      ensures forall ref :: ref in Published() ==>
                (ref in old(Published()) && Published()[ref] == old(Published())[ref]) || Supplies(call, Published()[ref])
    {
      match call
      case PutCall(secret, draws, chunk) =>
        if |draws| == 8 {
          var _ := Put(secret, draws, chunk, script);
        }
      case ReplaceCall(ref, secret, t, chunk) =>
        var _ := Replace(ref, secret, t, chunk, script);
      case DeleteCall(ref) =>
        var _, _ := Delete(ref, script, 0);
      case CleanupCall(retained) =>
        var _ := CleanupOrphans(retained, script);
      case RestartCall =>
        var _ := Recover(script);
    }
  }

  /** The credentials among `kept`. */
  function Restricted(m: map<nat, seq<byte>>, kept: set<nat>): (r: map<nat, seq<byte>>)
    ensures r.Keys == m.Keys * kept
  {
    map k | k in m && k in kept :: m[k]
  }

  lemma RestrictedLess(m: map<nat, seq<byte>>, todo: set<nat>, retained: set<nat>, ref: nat)
    requires ref !in retained
    ensures Restricted(m, todo + retained) - {ref} == Restricted(m, todo - {ref} + retained)
  {
  }

  lemma LastStep(script: seq<Step>, at: nat, n: nat)
    ensures AllGo(script, at, n + 1) <==> AllGo(script, at, n) && At(script, at + n) == Go
  {
  }

  datatype Call =
    | PutCall(secret: seq<byte>, draws: seq<(nat, nat)>, chunk: nat)
    | ReplaceCall(ref: nat, secret: seq<byte>, tmp: nat, chunk: nat)
    | DeleteCall(ref: nat)
    | CleanupCall(retained: set<nat>)
    | RestartCall

  predicate Supplies(c: Call, secret: seq<byte>) { (c.PutCall? || c.ReplaceCall?) && c.secret == secret }

  /** One of the first `n` calls supplied the secret. */
  predicate Supplied(calls: seq<(Call, seq<Step>)>, n: nat, secret: seq<byte>) {
    exists i :: 0 <= i < n && i < |calls| && Supplies(calls[i].0, secret)
  }

  /**
   * A put that reports a failure although its credential stays in the store: the
   * directory cannot be flushed after the link.
   */
  method LeakingPut(secret: seq<byte>, draws: seq<(nat, nat)>) returns (store: Store, r: Result<nat>)
    requires secret != [] && |draws| == 8
    ensures store.WellFormed() && r == Refused && store.Published() == map[draws[0].0 := secret]
  {
    store := new Store();
    var script := [Go, Go, Go, Go, Go, Fail];
    assert Writes(|secret|, |secret|) == 1;
    assert At(script, 5) == Fail;
    r := store.Put(secret, draws, |secret|, script);
  }
}
