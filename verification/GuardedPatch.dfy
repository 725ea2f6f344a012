/**
 Writes guarded by resourceVersion. A client reads the object, edits its copy,
 and sends the difference as a JSON merge patch (section 2 of RFC 7396) that
 carries the version it read; any number of clients interleave.
 */
module GuardedPatch {
  import opened Options
  import opened Inventory

  datatype Meta = Meta(annotations: map<string, string>, finalizers: seq<string>, deleting: bool)

  datatype Versioned = Versioned(version: nat, meta: Meta)

  // -------------------------------------------------------------- merge patch

  /** Null removes a member, a value replaces it, and an array is replaced whole. */
  datatype Patch = Patch(annotations: map<string, Option<string>>, finalizers: Option<seq<string>>)

  function Lookup(m: map<string, string>, k: string): Option<string> {
    if k in m then Some(m[k]) else None
  }

  function Diff(base: Meta, modified: Meta): Patch {
    Patch(
      map k | k in base.annotations.Keys + modified.annotations.Keys
              && Lookup(base.annotations, k) != Lookup(modified.annotations, k)
            :: Lookup(modified.annotations, k),
      if base.finalizers == modified.finalizers then None else Some(modified.finalizers))
  }

  function Merge(current: Meta, p: Patch): Meta {
    Meta(
      map k | k in current.annotations.Keys + p.annotations.Keys
              && (k in p.annotations ==> p.annotations[k].Some?)
            :: if k in p.annotations then p.annotations[k].value else current.annotations[k],
      if p.finalizers.Some? then p.finalizers.value else current.finalizers,
      current.deleting)
  }

  /** Against the state it was computed from, a patch yields the edited copy. */
  lemma MergeUndoesDiff(base: Meta, modified: Meta)
    requires base.deleting == modified.deleting
    ensures Merge(base, Diff(base, modified)) == modified
  {
    assert Merge(base, Diff(base, modified)).annotations == modified.annotations;
  }

  // -------------------------------------------------------------------- edits

  const ROLE_ARN := "eks.amazonaws.com/role-arn"
  const AUDIENCE := "eks.amazonaws.com/audience"
  const REGIONAL_STS := "eks.amazonaws.com/sts-regional-endpoints"
  const TOKEN_EXPIRATION := "eks.amazonaws.com/token-expiration"
  const MANAGED_KEYS := [ROLE_ARN, AUDIENCE, REGIONAL_STS, TOKEN_EXPIRATION]
  const MANAGED := {ROLE_ARN, AUDIENCE, REGIONAL_STS, TOKEN_EXPIRATION}

  function Desired(arn: string): map<string, string> {
    map[ROLE_ARN := arn, AUDIENCE := "sts.amazonaws.com", REGIONAL_STS := "true", TOKEN_EXPIRATION := "86400"]
  }

  function Remove(s: seq<string>, f: string): (r: seq<string>)
    ensures f !in r
    ensures forall x :: x != f ==> (x in r <==> x in s)
    ensures f !in s ==> r == s
  {
    if s == [] then []
    else if s[0] == f then Remove(s[1..], f)
    else [s[0]] + Remove(s[1..], f)
  }

  /** The writes the controllers make on objects they share with others. */
  datatype Client =
    | Annotate(arn: string)
    | Unannotate(arn: string)
    | AddFinalizer(finalizer: string)
    | DropFinalizer(finalizer: string)

  predicate Carries(m: Meta, arn: string) {
    ROLE_ARN in m.annotations && m.annotations[ROLE_ARN] == arn
  }

  predicate InSync(m: Meta, arn: string) {
    forall k :: k in MANAGED_KEYS ==> k in m.annotations && m.annotations[k] == Desired(arn)[k]
  }

  /** The edited copy a client sends, or None when it decides not to write. */
  function Edit(c: Client, m: Meta): Option<Meta> {
    match c
    case Annotate(arn) =>
      if arn == "" || InSync(m, arn) then None
      else Some(m.(annotations := m.annotations + Desired(arn)))
    case Unannotate(arn) =>
      if arn == "" || !Carries(m, arn) then None
      else Some(m.(annotations := m.annotations - MANAGED))
    case AddFinalizer(f) =>
      if m.deleting || f in m.finalizers then None
      else Some(m.(finalizers := m.finalizers + [f]))
    case DropFinalizer(f) =>
      if f !in m.finalizers then None
      else Some(m.(finalizers := Remove(m.finalizers, f)))
  }

  /** An apply writes exactly when one of the four values is missing or different. */
  lemma AnnotateWhenNeeded(m: Meta, arn: string)
    ensures Edit(Annotate(arn), m).None? <==>
              || arn == ""
              || (&& Lookup(m.annotations, "eks.amazonaws.com/role-arn") == Some(arn)
                  && Lookup(m.annotations, "eks.amazonaws.com/audience") == Some("sts.amazonaws.com")
                  && Lookup(m.annotations, "eks.amazonaws.com/sts-regional-endpoints") == Some("true")
                  && Lookup(m.annotations, "eks.amazonaws.com/token-expiration") == Some("86400"))
  {
    assert MANAGED_KEYS[0] in MANAGED_KEYS && MANAGED_KEYS[1] in MANAGED_KEYS;
    assert MANAGED_KEYS[2] in MANAGED_KEYS && MANAGED_KEYS[3] in MANAGED_KEYS;
  }

  method PlanAnnotate(sa: Meta, arn: string) returns (edited: Option<Meta>)
    ensures edited == Edit(Annotate(arn), sa)
  {
    if arn == "" {
      return None;
    }
    var desired := Desired(arn);
    var changed := false;
    for i := 0 to |MANAGED_KEYS|
      invariant !changed ==> forall j :: 0 <= j < i ==>
                  MANAGED_KEYS[j] in sa.annotations && sa.annotations[MANAGED_KEYS[j]] == desired[MANAGED_KEYS[j]]
      invariant changed ==> !InSync(sa, arn)
    {
      var key := MANAGED_KEYS[i];
      if key !in sa.annotations || sa.annotations[key] != desired[key] {
        changed := true;
        break;
      }
    }
    if !changed {
      return None;
    }
    var annotations := sa.annotations + desired;
    edited := Some(sa.(annotations := annotations));
  }

  method PlanUnannotate(sa: Meta, arn: string) returns (edited: Option<Meta>)
    ensures edited == Edit(Unannotate(arn), sa)
  {
    if arn == "" || ROLE_ARN !in sa.annotations || sa.annotations[ROLE_ARN] != arn {
      return None;
    }
    var annotations := sa.annotations;
    for i := 0 to |MANAGED_KEYS|
      invariant annotations == sa.annotations - set j | 0 <= j < i :: MANAGED_KEYS[j]
    {
      annotations := annotations - {MANAGED_KEYS[i]};
    }
    assert (set j | 0 <= j < |MANAGED_KEYS| :: MANAGED_KEYS[j]) == MANAGED by {
      assert forall k :: k in MANAGED ==> k in MANAGED_KEYS;
    }
    edited := Some(sa.(annotations := annotations));
  }

  // ------------------------------------------------------------- interleaving

  type Id = nat

  /** A client that has read the object and is about to send its patch. */
  datatype Pending = Pending(client: Client, base: Versioned)

  /** Every write, deletion and creation takes the next version. */
  datatype Server = Server(stored: Option<Versioned>, clock: nat, pending: map<Id, Pending>)

  datatype Step =
    | Read(id: Id, client: Client)
    | Send(id: Id)
    | Forget(id: Id)
    | ForeignWrite(meta: Meta)
    | ForeignDelete

  function Stored(s: Server, m: Meta): Server {
    s.(stored := Some(Versioned(s.clock + 1, m)), clock := s.clock + 1)
  }

  /** Whether the server accepts the pending patch of a client. */
  predicate Accepts(s: Server, id: Id) {
    id in s.pending && s.stored.Some? && s.stored.value.version == s.pending[id].base.version
  }

  function Sent(p: Pending): Patch {
    match Edit(p.client, p.base.meta)
    case Some(modified) => Diff(p.base.meta, modified)
    case None => Patch(map[], None)
  }

  function Next(s: Server, step: Step): Server {
    match step
    case Read(id, client) =>
      if s.stored.Some? && Edit(client, s.stored.value.meta).Some?
      then s.(pending := s.pending[id := Pending(client, s.stored.value)]) else s
    case Send(id) =>
      if id !in s.pending then s
      else if Accepts(s, id)
      then Stored(s, Merge(s.stored.value.meta, Sent(s.pending[id]))).(pending := s.pending - {id})
      else s.(pending := s.pending - {id})
    case Forget(id) => s.(pending := s.pending - {id})
    case ForeignWrite(meta) => Stored(s, meta)
    case ForeignDelete => s.(stored := None, clock := s.clock + 1)
  }

  function Run(s: Server, steps: seq<Step>): Server
    decreases |steps|
  {
    if steps == [] then s else Run(Next(s, steps[0]), steps[1..])
  }

  function Initial(start: Option<Meta>): Server {
    Server(if start.Some? then Some(Versioned(0, start.value)) else None, 0, map[])
  }

  ghost predicate Inv(s: Server) {
    && (s.stored.Some? ==> s.stored.value.version == s.clock)
    && forall id :: id in s.pending ==>
         && s.pending[id].base.version <= s.clock
         && Edit(s.pending[id].client, s.pending[id].base.meta).Some?
         && (s.stored.Some? && s.pending[id].base.version == s.clock ==> s.stored.value == s.pending[id].base)
         && (s.stored.None? ==> s.pending[id].base.version < s.clock)
  }

  lemma StepKeeps(s: Server, step: Step)
    requires Inv(s)
    ensures Inv(Next(s, step)) && Next(s, step).clock >= s.clock
  {
  }

  lemma {:induction false} RunKeeps(s: Server, steps: seq<Step>)
    requires Inv(s)
    ensures Inv(Run(s, steps)) && Run(s, steps).clock >= s.clock
    decreases |steps|
  {
    if steps != [] {
      StepKeeps(s, steps[0]);
      RunKeeps(Next(s, steps[0]), steps[1..]);
    }
  }

  /**
   Whatever the other writers did, an accepted patch has the effect of editing
   the stored object in one indivisible step.
   */
  lemma AcceptedPatchIsAtomic(start: Option<Meta>, steps: seq<Step>, id: Id)
    requires Accepts(Run(Initial(start), steps), id)
    ensures var s := Run(Initial(start), steps);
            && s.stored.value == s.pending[id].base
            && Edit(s.pending[id].client, s.stored.value.meta).Some?
            && Next(s, Send(id)).stored.Some?
            && Next(s, Send(id)).stored.value.meta == Edit(s.pending[id].client, s.stored.value.meta).value
  {
    RunKeeps(Initial(start), steps);
    var s := Run(Initial(start), steps);
    var m := s.stored.value.meta;
    MergeUndoesDiff(m, Edit(s.pending[id].client, m).value);
  }

  /** A client's pending patch stays the one it prepared, until it is sent or forgotten. */
  lemma {:induction false} PendingSince(s: Server, steps: seq<Step>, id: Id)
    requires forall i :: 0 <= i < |steps| ==> !(steps[i].Read? && steps[i].id == id)
    ensures id in Run(s, steps).pending ==> id in s.pending && Run(s, steps).pending[id] == s.pending[id]
    decreases |steps|
  {
    if steps != [] {
      PendingSince(Next(s, steps[0]), steps[1..], id);
    }
  }

  lemma ReadStaysCurrent(read: Server, between: seq<Step>, id: Id)
    requires Inv(read) && id in read.pending && read.stored == Some(read.pending[id].base)
    requires forall i :: 0 <= i < |between| ==> !(between[i].Read? && between[i].id == id)
    requires Accepts(Run(read, between), id)
    ensures var t := Run(read, between);
            t.clock == read.clock && t.stored == read.stored && t.pending[id] == read.pending[id]
  {
    RunKeeps(read, between);
    PendingSince(read, between, id);
  }

  /**
   Between a client's read and its accepted patch nobody wrote: in particular
   no ARN written after the read is overwritten or erased.
   */
  lemma NothingWrittenBetween(start: Option<Meta>, before: seq<Step>, client: Client, between: seq<Step>, id: Id)
    requires forall i :: 0 <= i < |between| ==> !(between[i].Read? && between[i].id == id)
    requires var s := Run(Initial(start), before);
             s.stored.Some? && Edit(client, s.stored.value.meta).Some?
             && Accepts(Run(Next(s, Read(id, client)), between), id)
    ensures var s := Run(Initial(start), before);
            var t := Run(Next(s, Read(id, client)), between);
            t.clock == s.clock && t.stored == s.stored && t.pending[id].client == client
  {
    RunKeeps(Initial(start), before);
    var s := Run(Initial(start), before);
    StepKeeps(s, Read(id, client));
    ReadStaysCurrent(Next(s, Read(id, client)), between, id);
  }

  /** What an accepted removal takes away: the deleting role's own ARN and the managed keys, nothing else. */
  lemma RemovalErasesOwnArnOnly(start: Option<Meta>, steps: seq<Step>, id: Id)
    requires Accepts(Run(Initial(start), steps), id)
    requires Run(Initial(start), steps).pending[id].client.Unannotate?
    ensures var s := Run(Initial(start), steps);
            var before, after := s.stored.value.meta, Next(s, Send(id)).stored.value.meta;
            && Carries(before, s.pending[id].client.arn)
            && (forall k :: k in MANAGED ==> k !in after.annotations)
            && (forall k :: k !in MANAGED ==> Lookup(after.annotations, k) == Lookup(before.annotations, k))
            && after.finalizers == before.finalizers
  {
    AcceptedPatchIsAtomic(start, steps, id);
  }

  /** What an accepted apply changes: the four managed keys, nothing else. */
  lemma ApplySparesUnmanaged(start: Option<Meta>, steps: seq<Step>, id: Id)
    requires Accepts(Run(Initial(start), steps), id)
    requires Run(Initial(start), steps).pending[id].client.Annotate?
    ensures var s := Run(Initial(start), steps);
            var before, after := s.stored.value.meta, Next(s, Send(id)).stored.value.meta;
            && Lookup(after.annotations, "eks.amazonaws.com/role-arn") == Some(s.pending[id].client.arn)
            && Lookup(after.annotations, "eks.amazonaws.com/audience") == Some("sts.amazonaws.com")
            && Lookup(after.annotations, "eks.amazonaws.com/sts-regional-endpoints") == Some("true")
            && Lookup(after.annotations, "eks.amazonaws.com/token-expiration") == Some("86400")
            && (forall k :: k !in MANAGED ==> Lookup(after.annotations, k) == Lookup(before.annotations, k))
            && after.finalizers == before.finalizers
  {
    AcceptedPatchIsAtomic(start, steps, id);
  }

  /** Finalizer patches replace the whole list and still keep every foreign entry. */
  lemma FinalizerPatchSparesForeign(start: Option<Meta>, steps: seq<Step>, id: Id, g: string)
    requires Accepts(Run(Initial(start), steps), id)
    requires var c := Run(Initial(start), steps).pending[id].client;
             (c.AddFinalizer? || c.DropFinalizer?) && c.finalizer != g
    ensures var s := Run(Initial(start), steps);
            var before, after := s.stored.value.meta, Next(s, Send(id)).stored.value.meta;
            && (g in after.finalizers <==> g in before.finalizers)
            && (s.pending[id].client.finalizer in after.finalizers <==> s.pending[id].client.AddFinalizer?)
            && after.annotations == before.annotations
  {
    AcceptedPatchIsAtomic(start, steps, id);
  }

  /** Without the version guard the same patch would drop a finalizer added after the read. */
  lemma UnguardedPatchDropsForeign()
    ensures var base, current := Meta(map[], ["role"], true), Meta(map[], ["role", "other"], true);
            && Edit(DropFinalizer("role"), base).Some?
            && "other" in current.finalizers
            && "other" !in Merge(current, Diff(base, Edit(DropFinalizer("role"), base).value)).finalizers
  {
    assert Remove(["role"], "role") == [];
  }
}
