// What every run of the access-record store satisfies.
module AccessTheorems {
  import opened Basics
  import opened CredentialReferences
  import opened AccessRecords
  import opened AccessSteps

  // ---- Tickets ------------------------------------------------------------

  // Within one process revisions only grow, and keep growing where they were
  // marked, reset or removed.
  predicate RevisionsGrow(a: State, b: State) {
    forall scope :: scope in a.revision ==> scope in b.revision && a.revision[scope] <= b.revision[scope]
  }

  predicate Supersedes(step: Step, scope: Name) {
    match step
    case Marked(lock, method_) => ScopeOf(lock, method_) == scope
    case Reset(lock, method_) => ScopeOf(lock, method_) == scope
    case Removed(_, _) => true
    case _ => false
  }

  lemma Frames(s: State, step: Step)
    ensures step.Reconciled? ==>
              var t := Merge(s, step.lock, step.method_, step.items, step.ticket, step.epoch);
              t.revision == s.revision && t.freshAt == s.freshAt && t.loaded == s.loaded
    ensures step.Named? ==>
              var t := Rename(s, ScopeOf(step.lock, step.method_), step.reference, step.text, step.at);
              t == s.(scopes := t.scopes, saving := t.saving)
  {
    hide Merge, Rename;
    if step.Reconciled? {
      MergeFrame(s, step.lock, step.method_, step.items, step.ticket, step.epoch);
    }
    if step.Named? {
      RenameFrame(s, ScopeOf(step.lock, step.method_), step.reference, step.text, step.at);
    }
  }

  lemma RevisionStep(s: State, step: Step)
    requires Enabled(s, step) && !step.Restarted?
    ensures RevisionsGrow(s, Next(s, step))
    ensures forall scope :: scope in s.revision && Supersedes(step, scope) ==>
              Next(s, step).revision[scope] > s.revision[scope]
    ensures forall scope :: scope in s.revision && !Supersedes(step, scope) ==>
              Next(s, step).revision[scope] == s.revision[scope]
  {
    hide Merge, Rename;
    Frames(s, step);
  }

  ghost predicate OneProcess(steps: seq<Step>, i: nat, j: nat) {
    forall k :: i <= k < j && k < |steps| ==> !steps[k].Restarted?
  }

  lemma {:induction false} RevisionsNeverDecrease(steps: seq<Step>, states: seq<State>, i: nat, j: nat)
    requires Run(steps, states) && i <= j <= |steps| && OneProcess(steps, i, j)
    ensures RevisionsGrow(states[i], states[j])
  {
    hide Next, Enabled;
    if i < j {
      RevisionsNeverDecrease(steps, states, i, j - 1);
      RevisionStep(states[j - 1], steps[j - 1]);
    }
  }

  // A ticket that was superseded once is never current again.
  lemma SupersededForGood(steps: seq<Step>, states: seq<State>, scope: Name, ticket: nat, i: nat, m: nat, j: nat)
    requires Run(steps, states) && i <= m < j <= |steps| && OneProcess(steps, i, j)
    requires Current(states[i], scope, ticket) && Supersedes(steps[m], scope)
    ensures !Current(states[j], scope, ticket)
  {
    hide Next, Enabled, Supersedes;
    RevisionsNeverDecrease(steps, states, i, m);
    RevisionStep(states[m], steps[m]);
    RevisionsNeverDecrease(steps, states, m + 1, j);
  }

  // What makes a scope fresh: the end of a successful save, of a reconciliation
  // whose ticket is current at that very moment.
  lemma FreshStep(s: State, step: Step, scope: Name)
    requires Enabled(s, step)
    requires scope in Next(s, step).freshAt && (scope !in s.freshAt || Next(s, step).freshAt[scope] != s.freshAt[scope])
    ensures step.SaveEnded? && step.end.Done? && s.saving.Some? && s.saving.value.Reconciling?
    ensures s.saving.value.scope == scope && Current(s, scope, s.saving.value.ticket)
  {
    if step.SaveEnded? {
      hide Mark, Forget, Load, Remove, Reconcile, Rename, Restart;
    } else {
      hide Merge, Rename, EndSave;
      Frames(s, step);
    }
  }

  // A reconciliation with a ticket that was superseded before it has the lock
  // changes nothing; superseded while it saves, it leaves the scope stale.
  lemma SupersededNeverFresh(steps: seq<Step>, states: seq<State>, scope: Name, ticket: nat, i: nat, m: nat, j: nat)
    requires Run(steps, states) && i <= m < j < |steps| && OneProcess(steps, i, j)
    requires Current(states[i], scope, ticket) && Supersedes(steps[m], scope)
    ensures steps[j].Reconciled? && ScopeOf(steps[j].lock, steps[j].method_) == scope && steps[j].ticket == ticket ==>
              states[j + 1] == states[j]
    ensures states[j].saving.Some? && states[j].saving.value.Reconciling?
            && states[j].saving.value.scope == scope && states[j].saving.value.ticket == ticket
            && steps[j].SaveEnded? ==>
              states[j + 1].freshAt == states[j].freshAt && states[j + 1].observed == states[j].observed
  {
    hide Supersedes, Merge;
    SupersededForGood(steps, states, scope, ticket, i, m, j);
    assert Enabled(states[j], steps[j]);
  }

  // ---- What a fresh scope shows -------------------------------------------

  // Every ticket that a reconciliation was run with while current is used once.
  ghost predicate Once(steps: seq<Step>, states: seq<State>) {
    && |states| == |steps| + 1
    && forall k :: 0 <= k < |steps| ==> UsesNew(states[k], steps[k])
  }

  predicate UsesNew(s: State, step: Step) {
    step.Reconciled? && Current(s, ScopeOf(step.lock, step.method_), step.ticket) ==>
      (ScopeOf(step.lock, step.method_), step.ticket) !in s.used
  }

  // A ticket that passed the checks and is still current finds a loaded store.
  ghost predicate AdmittedIsLoaded(s: State) {
    forall p <- s.admitted :: p.0 in s.revision && p.1 <= s.revision[p.0] && (p.1 == s.revision[p.0] ==> s.loaded)
  }

  // What a fresh scope shows as observed are references of active records.
  ghost predicate FreshIsTrue(s: State) {
    forall scope <- s.freshAt ::
      && s.loaded && scope in s.observed && scope in s.scopes
      && s.observed[scope] <= ActiveReferences(s.scopes[scope].records)
  }

  ghost predicate FreshIsUsed(s: State) {
    forall scope <- s.freshAt :: scope in s.revision && (scope, s.revision[scope]) in s.used
  }

  ghost predicate SavingIsTrue(s: State) {
    s.saving.Some? && s.saving.value.Reconciling? ==>
      var r := s.saving.value;
      && (r.scope, r.ticket) in s.used && (r.scope, r.ticket) in s.admitted
      && r.scope in s.scopes && r.observed <= ActiveReferences(s.scopes[r.scope].records)
  }

  ghost predicate Sound(s: State) {
    AdmittedIsLoaded(s) && FreshIsTrue(s) && FreshIsUsed(s) && SavingIsTrue(s)
  }

  lemma MergeObserves(s: State, lock: string, method_: string, items: seq<Item>, ticket: nat, epoch: string)
    requires s.saving.None?
    ensures var t, scope := Merge(s, lock, method_, items, ticket, epoch), ScopeOf(lock, method_);
            t.saving.Some? ==>
              && t.saving.value.Reconciling? && t.saving.value.scope == scope && t.saving.value.ticket == ticket
              && t.saving.value.observed <= ActiveReferences(t.scopes[scope].records)
  {
    hide Base, Merged, Observed, Lapsed, AllDerivable, Sightings, ActiveReferences, ScopeOf;
    var scope := ScopeOf(lock, method_);
    var was := ScopeFor(s, scope, epoch);
    if AllDerivable(s.key, lock, method_, was.epoch, items) {
      ObservedIsActive(was.records, Pin(method_), Sightings(s.key, lock, method_, was.epoch, items), s.next);
    }
  }

  lemma SoundReconcile(s: State, step: Step)
    requires Sound(s) && Enabled(s, step) && UsesNew(s, step) && step.Reconciled?
    ensures Sound(Next(s, step))
  {
    hide Merge, ActiveReferences, WellFormed;
    var scope := ScopeOf(step.lock, step.method_);
    if Current(s, scope, step.ticket) {
      assert scope !in s.freshAt;
      MergeFrame(s, step.lock, step.method_, step.items, step.ticket, step.epoch);
      MergeObserves(s, step.lock, step.method_, step.items, step.ticket, step.epoch);
    }
  }

  lemma RelabelKeepsActive(scope: Scope, i: nat, text: string)
    requires i < |scope.records|
    ensures ActiveReferences(Relabel(scope, i, text).records) == ActiveReferences(scope.records)
  {
    hide Strip;
    var a, b := scope.records, Relabel(scope, i, text).records;
    assert forall j :: 0 <= j < |a| ==> b[j].active == a[j].active && b[j].reference == a[j].reference;
    assert forall o :: o in ActiveReferences(a) ==> o in ActiveReferences(b);
  }

  lemma SoundRename(s: State, step: Step)
    requires Sound(s) && Enabled(s, step) && step.Named?
    ensures Sound(Next(s, step))
  {
    hide Strip, ActiveReferences, Find, Nameable, Relabel;
    var scope := ScopeOf(step.lock, step.method_);
    if Nameable(s, scope, step.reference, step.text, step.at) {
      NameableFinds(s, scope, step.reference, step.text, step.at);
      RelabelKeepsActive(s.scopes[scope], Find(s.scopes[scope].records, step.reference).value, step.text);
    }
  }

  lemma SoundMark(s: State, scope: Name)
    requires Sound(s)
    ensures Sound(Mark(s, scope))
  {
    hide ActiveReferences;
  }

  lemma SoundForget(s: State, scope: Name)
    requires Sound(s) && s.saving.None?
    ensures Sound(Forget(s, scope))
  {
    hide ActiveReferences, References;
  }

  lemma SoundEndSave(s: State, end: WriteEnd, now: real)
    requires Sound(s) && s.saving.Some?
    ensures Sound(EndSave(s, end, now))
  {
    hide ActiveReferences, EndSave;
    EndSaveFrame(s, end, now);
  }

  lemma SoundRemove(s: State, content: WriteEnd, key: WriteEnd)
    requires Sound(s) && s.saving.None?
    ensures Sound(Remove(s, content, key))
  {
    hide ActiveReferences;
  }

  lemma SoundLoad(s: State, end: LoadEnd)
    requires Sound(s) && s.saving.None?
    ensures Sound(Load(s, end))
  {
    hide ActiveReferences;
  }

  lemma SoundAdmit(s: State, scope: Name, ticket: nat)
    requires Sound(s) && s.loaded && Current(s, scope, ticket)
    ensures Sound(s.(admitted := s.admitted + {(scope, ticket)}))
  {
    hide ActiveReferences;
  }

  lemma SoundStep(s: State, step: Step)
    requires Sound(s) && Enabled(s, step) && UsesNew(s, step)
    ensures Sound(Next(s, step))
  {
    hide Mark, Forget, EndSave, Load, Remove, Reconcile, Rename, UsesNew, ActiveReferences, WellFormed;
    match step
    case Marked(lock, method_) => SoundMark(s, ScopeOf(lock, method_));
    case Admitted(lock, method_, ticket) => SoundAdmit(s, ScopeOf(lock, method_), ticket);
    case Reconciled(_, _, _, _, _) => SoundReconcile(s, step);
    case Named(_, _, _, _, _) => SoundRename(s, step);
    case Reset(lock, method_) => SoundForget(s, ScopeOf(lock, method_));
    case LegacySet(_, _) =>
    case SaveEnded(end, at) => SoundEndSave(s, end, at);
    case Loaded(end) => SoundLoad(s, end);
    case Removed(content, key) => SoundRemove(s, content, key);
    case Restarted =>
  }

  // In every run that uses each ticket once, whenever a scope is fresh what it
  // shows as observed are references of active stored records; and a ticket
  // still current under the lock finds the store loaded.
  lemma {:induction false} FreshIsSound(steps: seq<Step>, states: seq<State>, k: nat)
    requires Run(steps, states) && Once(steps, states) && k <= |steps|
    ensures Sound(states[k])
  {
    hide Next, Enabled, UsesNew;
    if k == 0 {
      assert Sound(INITIAL);
    } else {
      hide Sound;
      FreshIsSound(steps, states, k - 1);
      SoundStep(states[k - 1], steps[k - 1]);
    }
  }

  // ---- What is stored, in memory and on file ------------------------------

  ghost predicate Stored(scopes: map<Name, Scope>, next: Reference) {
    forall scope <- scopes ::
      && |scopes[scope].records| <= 512
      && DistinctReferences(scopes[scope].records)
      && ReferencesBelow(scopes[scope].records, next)
      && LabelsFit(scopes[scope].records)
      && '/' !in scopes[scope].epoch
  }

  ghost predicate LabelsFit(records: seq<PrivateRecord>) {
    forall i :: 0 <= i < |records| ==> |records[i].alias| <= 64 && forall c <- records[i].alias :: c as int >= 32
  }

  ghost predicate WellStored(s: State) {
    Stored(s.scopes, s.next) && (s.file.Some? ==> Stored(s.file.value.scopes, s.next))
  }

  lemma StoredLater(scopes: map<Name, Scope>, next: Reference, more: nat)
    requires Stored(scopes, next)
    ensures Stored(scopes, next + more)
  {
  }

  lemma OutcomeStored(s: State, was: Scope, lock: string, method_: string, items: seq<Item>)
    requires Stores(s, was, lock, method_, items)
    requires DistinctReferences(was.records) && ReferencesBelow(was.records, s.next) && LabelsFit(was.records)
    ensures var records := Outcome(s, was, lock, method_, items);
            && |records| <= MAX_RECORDS && LabelsFit(records)
            && DistinctReferences(records) && ReferencesBelow(records, s.next + |items|)
  {
    hide Merged, AllDerivable, Sightings, DistinctReferences, ReferencesBelow;
    MergedAdds(was.records, Pin(method_), Sightings(s.key, lock, method_, was.epoch, items), s.next);
    MergedKeeps(was.records, Pin(method_), Sightings(s.key, lock, method_, was.epoch, items), s.next);
    SightingsLength(s.key, lock, method_, was.epoch, items);
  }

  lemma MergeStores(s: State, lock: string, method_: string, items: seq<Item>, ticket: nat, epoch: string)
    requires WellStored(s) && '/' !in epoch
    ensures WellStored(Merge(s, lock, method_, items, ticket, epoch))
  {
    hide Stores, Outcome, DistinctReferences, ReferencesBelow, LabelsFit, SeenNow, Lapsed, ScopeOf;
    var was := ScopeFor(s, ScopeOf(lock, method_), epoch);
    NoRecords(s.next);
    StoredLater(s.scopes, s.next, |items|);
    if s.file.Some? {
      StoredLater(s.file.value.scopes, s.next, |items|);
    }
    if Stores(s, was, lock, method_, items) {
      OutcomeStored(s, was, lock, method_, items);
    }
  }

  lemma SightingsLength(key: Option<Bytes>, lock: string, method_: string, epoch: string, items: seq<Item>)
    requires AllDerivable(key, lock, method_, epoch, items)
    ensures |Sightings(key, lock, method_, epoch, items)| == |items|
  {
  }

  lemma NoRecords(next: Reference)
    ensures DistinctReferences([]) && LabelsFit([]) && forall n: nat :: ReferencesBelow([], n)
  {
  }

  lemma RelabelStores(scope: Scope, i: nat, text: string, next: Reference)
    requires i < |scope.records|
    ensures DistinctReferences(Relabel(scope, i, text).records) == DistinctReferences(scope.records)
    ensures ReferencesBelow(Relabel(scope, i, text).records, next) == ReferencesBelow(scope.records, next)
    ensures LabelsFit(scope.records) && Printable(text) ==> LabelsFit(Relabel(scope, i, text).records)
  {
    hide Strip;
    var a, b := scope.records, Relabel(scope, i, text).records;
    assert forall j :: 0 <= j < |a| ==> b[j].reference == a[j].reference;
  }

  lemma StoredStep(s: State, step: Step)
    requires WellStored(s) && Enabled(s, step)
    ensures WellStored(Next(s, step)) && s.next <= Next(s, step).next
  {
    hide Merge, DistinctReferences, ReferencesBelow, LabelsFit, Strip, Find, Nameable, Relabel, WellFormed;
    if step.Reconciled? {
      MergeStores(s, step.lock, step.method_, step.items, step.ticket, step.epoch);
      MergeFrame(s, step.lock, step.method_, step.items, step.ticket, step.epoch);
    } else if step.Named? {
      var scope := ScopeOf(step.lock, step.method_);
      if Nameable(s, scope, step.reference, step.text, step.at) {
        NameableFinds(s, scope, step.reference, step.text, step.at);
        RelabelStores(s.scopes[scope], Find(s.scopes[scope].records, step.reference).value, step.text, s.next);
        RelabelShape(s.scopes[scope], Find(s.scopes[scope].records, step.reference).value, step.text);
      }
    }
  }

  lemma RelabelShape(scope: Scope, i: nat, text: string)
    requires i < |scope.records|
    ensures Relabel(scope, i, text).epoch == scope.epoch && |Relabel(scope, i, text).records| == |scope.records|
  {
    hide Strip;
  }

  // At most 512 records in a scope, each with a reference of its own and a
  // label of at most 64 printable characters, always.
  lemma {:induction false} AlwaysWellStored(steps: seq<Step>, states: seq<State>, k: nat)
    requires Run(steps, states) && k <= |steps|
    ensures WellStored(states[k])
  {
    hide Next, Enabled;
    if k > 0 {
      AlwaysWellStored(steps, states, k - 1);
      StoredStep(states[k - 1], steps[k - 1]);
    }
  }

  // ---- The life of a record -----------------------------------------------

  // The scopes of the loaded store; before it is loaded, those it will load.
  function Content(s: State): map<Name, Scope> {
    if s.loaded then s.scopes else if s.file.Some? then s.file.value.scopes else map[]
  }

  // The steps that carry a scope's content on: no reset of it and no removal,
  // no restart while its content is not on file, and no save before the load.
  predicate Carries(s: State, step: Step, scope: Name) {
    match step
    case Reset(lock, method_) => ScopeOf(lock, method_) != scope
    case Removed(_, _) => false
    case Restarted =>
      && s.file.Some? && scope in s.file.value.scopes && scope in Content(s)
      && s.file.value.scopes[scope] == Content(s)[scope]
    case SaveEnded(end, _) => end.Failed? || s.loaded
    case _ => true
  }

  // The records evolve, and only a renaming of its own reference changes a label.
  ghost predicate CarriedOn(a: Scope, b: Scope, pin: bool) {
    a.epoch == b.epoch && Evolves(a.records, b.records, pin)
  }

  predicate Relabels(step: Step, reference: Reference) {
    step.Named? && step.reference == reference
  }

  lemma MergeCarries(s: State, lock: string, method_: string, items: seq<Item>, ticket: nat, epoch: string)
    requires ScopeOf(lock, method_) in s.scopes
    ensures var scope := ScopeOf(lock, method_);
            var a, b := s.scopes[scope], Merge(s, lock, method_, items, ticket, epoch).scopes[scope];
            && CarriedOn(a, b, Pin(method_))
            && forall n :: 0 <= n < |a.records| ==> b.records[n].alias == a.records[n].alias
  {
    hide Merged, AllDerivable, Sightings, SeenNow, Lapsed;
    var was := s.scopes[ScopeOf(lock, method_)];
    if Stores(s, was, lock, method_, items) {
      MergedKeeps(was.records, Pin(method_), Sightings(s.key, lock, method_, was.epoch, items), s.next);
    }
  }

  lemma RenameCarries(s: State, name: Name, reference: Reference, text: string, now: real, scope: Name, pin: bool)
    requires scope in s.scopes
    ensures var t := Rename(s, name, reference, text, now);
            && scope in t.scopes && CarriedOn(s.scopes[scope], t.scopes[scope], pin)
            && forall n :: 0 <= n < |s.scopes[scope].records| && s.scopes[scope].records[n].reference != reference ==>
                 t.scopes[scope].records[n].alias == s.scopes[scope].records[n].alias
  {
    hide Strip, Nameable;
    if Nameable(s, name, reference, text, now) {
      NameableFinds(s, name, reference, text, now);
    }
  }

  lemma CarryStep(s: State, step: Step, lock: string, method_: string)
    requires method_ in ACCESS_METHODS && Enabled(s, step)
    requires ScopeOf(lock, method_) in Content(s) && Carries(s, step, ScopeOf(lock, method_))
    ensures var scope := ScopeOf(lock, method_);
            && scope in Content(Next(s, step))
            && var a, b := Content(s)[scope], Content(Next(s, step))[scope];
               && CarriedOn(a, b, Pin(method_))
               && forall n :: 0 <= n < |a.records| && !Relabels(step, a.records[n].reference) ==>
                    b.records[n].alias == a.records[n].alias
  {
    hide Merge, Rename, ScopeOf;
    var scope := ScopeOf(lock, method_);
    if step.Reconciled? {
      MergeFrame(s, step.lock, step.method_, step.items, step.ticket, step.epoch);
      assert step.method_ in ACCESS_METHODS;
      ScopesDiffer(lock, method_, step.lock, step.method_);
      if scope == ScopeOf(step.lock, step.method_) && s.loaded {
        MergeCarries(s, step.lock, step.method_, step.items, step.ticket, step.epoch);
      }
    } else if step.Named? {
      RenameFrame(s, ScopeOf(step.lock, step.method_), step.reference, step.text, step.at);
      if s.loaded {
        RenameCarries(s, ScopeOf(step.lock, step.method_), step.reference, step.text, step.at, scope, Pin(method_));
      }
    }
  }

  // ---- Memory and file ----------------------------------------------------

  function Get<K, V>(m: map<K, V>, k: K): Option<V> {
    if k in m then Some(m[k]) else None
  }

  // The scopes as they were when a save last replaced the file; none, if it was
  // deleted since or never written.
  ghost function LastSaved(steps: seq<Step>, states: seq<State>, k: nat): map<Name, Scope>
    requires k <= |steps| < |states|
  {
    if k == 0 then map[]
    else if steps[k - 1].SaveEnded? && !steps[k - 1].end.Failed? then states[k - 1].scopes
    else if steps[k - 1].Removed? && !steps[k - 1].content.Failed? then map[]
    else LastSaved(steps, states, k - 1)
  }

  function FileScopes(s: State): map<Name, Scope> {
    if s.file.Some? then s.file.value.scopes else map[]
  }

  lemma FileStep(s: State, step: Step)
    requires Enabled(s, step)
    ensures FileScopes(Next(s, step)) ==
              if step.SaveEnded? && !step.end.Failed? then s.scopes
              else if step.Removed? && !step.content.Failed? then map[]
              else FileScopes(s)
  {
    hide Merge, Rename, References, ScopeOf, WellFormed;
    if step.Reconciled? {
      MergeFrame(s, step.lock, step.method_, step.items, step.ticket, step.epoch);
    } else if step.Named? {
      RenameFrame(s, ScopeOf(step.lock, step.method_), step.reference, step.text, step.at);
    }
  }

  lemma {:induction false} FileIsLastSave(steps: seq<Step>, states: seq<State>, k: nat)
    requires Run(steps, states) && k <= |steps|
    ensures FileScopes(states[k]) == LastSaved(steps, states, k)
  {
    hide Next, Enabled;
    if k > 0 {
      hide FileScopes;
      FileIsLastSave(steps, states, k - 1);
      FileStep(states[k - 1], steps[k - 1]);
    }
  }

  // A scope of a loaded store survives a restart unchanged exactly if it is as
  // it was when a save last replaced the file.
  lemma RestartKeeps(steps: seq<Step>, states: seq<State>, k: nat, scope: Name)
    requires Run(steps, states) && k < |steps| && steps[k] == Restarted
    requires states[k].loaded && scope in states[k].scopes
    ensures Get(Content(states[k + 1]), scope) == Some(states[k].scopes[scope])
            <==> Get(LastSaved(steps, states, k), scope) == Some(states[k].scopes[scope])
  {
    hide Run;
    RunStep(steps, states, k);
    FileIsLastSave(steps, states, k);
  }

  // ---- Records over a run -------------------------------------------------

  // Setup hands the store out only once it is loaded.
  predicate InUse(s: State, step: Step) {
    step.Reset? || step.LegacySet? ==> s.loaded
  }

  ghost predicate AlwaysInUse(steps: seq<Step>, states: seq<State>, j: nat) {
    && |states| == |steps| + 1
    && forall k :: 0 <= k < j && k < |steps| ==> InUse(states[k], steps[k])
  }

  // Operations run on a loaded store.
  ghost predicate Ready(s: State) {
    && AdmittedIsLoaded(s)
    && (forall scope <- s.freshAt :: s.loaded)
    && (s.saving.Some? ==> s.loaded)
  }

  lemma StaysReady(s: State, step: Step)
    requires Ready(s) && Enabled(s, step) && InUse(s, step)
    ensures Ready(Next(s, step))
  {
    if step.Reconciled? {
      hide Stores, Outcome, Lapsed, SeenNow, ScopeOf, WellFormed;
      MergeFrame(s, step.lock, step.method_, step.items, step.ticket, step.epoch);
    } else if step.Named? {
      hide Strip, Find, Relabel, ScopeOf, Printable;
      RenameFrame(s, ScopeOf(step.lock, step.method_), step.reference, step.text, step.at);
    } else if step.SaveEnded? {
      hide EndSave;
      EndSaveFrame(s, step.end, step.at);
    } else {
      hide Merge, Rename, EndSave, References, ScopeOf, WellFormed;
    }
  }

  lemma {:induction false} AlwaysReady(steps: seq<Step>, states: seq<State>, k: nat)
    requires Run(steps, states) && AlwaysInUse(steps, states, k) && k <= |steps|
    ensures Ready(states[k])
  {
    hide Next, Enabled, InUse;
    if k == 0 {
      assert Ready(INITIAL);
    } else {
      hide Ready;
      AlwaysReady(steps, states, k - 1);
      StaysReady(states[k - 1], steps[k - 1]);
    }
  }

  predicate Forgets(step: Step, scope: Name) {
    step.Removed? || (step.Reset? && ScopeOf(step.lock, step.method_) == scope)
  }

  // A restart at k finds the scope as it was when a save last replaced the file.
  ghost predicate Persisted(steps: seq<Step>, states: seq<State>, k: nat, scope: Name)
    requires k <= |steps| < |states|
  {
    Get(LastSaved(steps, states, k), scope) == Get(Content(states[k]), scope)
  }

  // The store was used as setup hands it out; and from step i to j the scope
  // was neither reset nor removed, and every restart found it persisted.
  ghost predicate Undisturbed(steps: seq<Step>, states: seq<State>, i: nat, j: nat, scope: Name) {
    && AlwaysInUse(steps, states, j)
    && forall k :: i <= k < j && k < |steps| ==>
         && !Forgets(steps[k], scope)
         && (steps[k].Restarted? ==> Persisted(steps, states, k, scope))
  }

  lemma UndisturbedCarries(steps: seq<Step>, states: seq<State>, i: nat, j: nat, scope: Name)
    requires Run(steps, states) && i < j <= |steps| && Undisturbed(steps, states, i, j, scope)
    requires scope in Content(states[j - 1])
    ensures Carries(states[j - 1], steps[j - 1], scope)
  {
    hide Run, Next, Enabled, ScopeOf, InUse;
    AlwaysReady(steps, states, j - 1);
    FileIsLastSave(steps, states, j - 1);
    RunStep(steps, states, j - 1);
    SavesLoaded(states[j - 1], steps[j - 1]);
  }

  lemma SavesLoaded(s: State, step: Step)
    requires Ready(s) && Enabled(s, step)
    ensures step.SaveEnded? ==> s.loaded
  {
  }

  // A record keeps its place, base, reference and type: a PIN it stays active,
  // of the other kinds one that was retired stays retired.
  lemma {:induction false} RecordsLive(
    steps: seq<Step>, states: seq<State>, i: nat, j: nat, lock: string, method_: string)
    requires Run(steps, states) && i <= j <= |steps| && method_ in ACCESS_METHODS
    requires Undisturbed(steps, states, i, j, ScopeOf(lock, method_))
    requires ScopeOf(lock, method_) in Content(states[i])
    ensures ScopeOf(lock, method_) in Content(states[j])
    ensures CarriedOn(Content(states[i])[ScopeOf(lock, method_)], Content(states[j])[ScopeOf(lock, method_)],
                      Pin(method_))
  {
    hide Next, Enabled, Content, Carries, ScopeOf, InUse, Persisted;
    if i < j {
      RecordsLive(steps, states, i, j - 1, lock, method_);
      UndisturbedCarries(steps, states, i, j, ScopeOf(lock, method_));
      CarryStep(states[j - 1], steps[j - 1], lock, method_);
    }
  }

  // A label changes only when its own reference is named.
  lemma {:induction false} OnlyNamingRelabels(
    steps: seq<Step>, states: seq<State>, i: nat, j: nat, lock: string, method_: string, n: nat)
    requires Run(steps, states) && i <= j <= |steps| && method_ in ACCESS_METHODS
    requires Undisturbed(steps, states, i, j, ScopeOf(lock, method_))
    requires ScopeOf(lock, method_) in Content(states[i])
    requires n < |Content(states[i])[ScopeOf(lock, method_)].records|
    requires forall k :: i <= k < j ==>
               !Relabels(steps[k], Content(states[i])[ScopeOf(lock, method_)].records[n].reference)
    ensures ScopeOf(lock, method_) in Content(states[j])
    ensures n < |Content(states[j])[ScopeOf(lock, method_)].records|
    ensures Content(states[j])[ScopeOf(lock, method_)].records[n].alias
            == Content(states[i])[ScopeOf(lock, method_)].records[n].alias
  {
    hide Next, Enabled, Content, Carries, ScopeOf, Relabels, InUse, Persisted;
    if i < j {
      OnlyNamingRelabels(steps, states, i, j - 1, lock, method_, n);
      RecordsLive(steps, states, i, j - 1, lock, method_);
      UndisturbedCarries(steps, states, i, j, ScopeOf(lock, method_));
      CarryStep(states[j - 1], steps[j - 1], lock, method_);
    }
  }

  // ---- Runs that lose no save ---------------------------------------------

  // A save of changed scopes is under way.
  predicate Unsaved(s: State) {
    s.saving.Some? && !s.saving.value.Setting?
  }

  // The step neither fails a save of changed scopes nor restarts during one.
  predicate SaveLands(s: State, step: Step) {
    Unsaved(s) ==> !step.Restarted? && (step.SaveEnded? ==> !step.end.Failed?)
  }

  ghost predicate OnFile(s: State) {
    forall scope <- s.scopes :: s.scopes[scope].records != [] ==>
      s.file.Some? && scope in s.file.value.scopes && s.file.value.scopes[scope] == s.scopes[scope]
  }

  // What is in memory is on file, unless its save is under way.
  ghost predicate InStep(s: State) {
    !Unsaved(s) ==> OnFile(s)
  }

  lemma StaysInStep(s: State, step: Step)
    requires InStep(s) && Enabled(s, step) && SaveLands(s, step)
    ensures InStep(Next(s, step))
  {
    if step.Reconciled? {
      hide Stores, Outcome, Lapsed, SeenNow, ScopeOf, WellFormed;
      MergeFrame(s, step.lock, step.method_, step.items, step.ticket, step.epoch);
    } else if step.Named? {
      hide Strip, Find, Relabel, ScopeOf, Printable;
      RenameFrame(s, ScopeOf(step.lock, step.method_), step.reference, step.text, step.at);
    } else if step.SaveEnded? {
      hide EndSave;
      EndSaveFrame(s, step.end, step.at);
    } else {
      hide Merge, Rename, EndSave, References, ScopeOf, WellFormed;
    }
  }

  ghost predicate SavesLand(steps: seq<Step>, states: seq<State>, j: nat) {
    && |states| == |steps| + 1
    && forall k :: 0 <= k < j && k < |steps| ==> SaveLands(states[k], steps[k])
  }

  lemma {:induction false} AlwaysInStep(steps: seq<Step>, states: seq<State>, k: nat)
    requires Run(steps, states) && SavesLand(steps, states, k) && k <= |steps|
    ensures InStep(states[k])
  {
    hide Next, Enabled, SaveLands;
    if k == 0 {
      assert InStep(INITIAL);
    } else {
      hide InStep;
      AlwaysInStep(steps, states, k - 1);
      StaysInStep(states[k - 1], steps[k - 1]);
    }
  }

  // If no save of changed scopes fails and no restart comes during one, every
  // restart finds a scope with records persisted.
  lemma {:induction false} SavesPersist(
    steps: seq<Step>, states: seq<State>, i: nat, j: nat, lock: string, method_: string)
    requires Run(steps, states) && i <= j <= |steps| && method_ in ACCESS_METHODS
    requires SavesLand(steps, states, j) && AlwaysInUse(steps, states, j)
    requires forall k :: i <= k < j ==> !Forgets(steps[k], ScopeOf(lock, method_))
    requires ScopeOf(lock, method_) in Content(states[i]) && Content(states[i])[ScopeOf(lock, method_)].records != []
    ensures Undisturbed(steps, states, i, j, ScopeOf(lock, method_))
  {
    hide Run, Next, Enabled, ScopeOf, InUse, Forgets, LastSaved;
    if i < j {
      SavesPersist(steps, states, i, j - 1, lock, method_);
      RecordsLive(steps, states, i, j - 1, lock, method_);
      AlwaysInStep(steps, states, j - 1);
      FileIsLastSave(steps, states, j - 1);
    }
  }

  // Naming takes a fresh scope, and an active record that was observed in it.
  lemma OnlyObservedIsNamed(s: State, lock: string, method_: string, reference: Reference, text: string, now: real)
    requires Sound(s) && s.saving.None? && method_ in ACCESS_METHODS
    requires Next(s, Named(lock, method_, reference, text, now)) != s
    ensures var scope := ScopeOf(lock, method_);
            && IsFresh(s, scope, now) && Sees(s, scope, reference)
            && reference in ActiveReferences(s.scopes[scope].records)
            && Printable(text) && Printable(Strip(text))
  {
    hide ActiveReferences, Strip, IsFresh, Printable, Relabel;
    var scope := ScopeOf(lock, method_);
    assert Nameable(s, scope, reference, text, now);
    NameableObserves(s, scope, reference, text, now);
  }

  lemma NameableObserves(s: State, scope: Name, reference: Reference, text: string, now: real)
    requires Nameable(s, scope, reference, text, now)
    ensures scope in s.scopes && reference in ActiveReferences(s.scopes[scope].records)
    ensures Printable(text) && Printable(Strip(text))
  {
  }

  // While a save is awaited only marks and checks of other tasks run.
  lemma AwaitingStep(s: State, step: Step)
    requires Enabled(s, step) && s.saving.Some? && !step.SaveEnded? && !step.Restarted?
    ensures step.Marked? || step.Admitted?
    ensures var t := Next(s, step);
            && t.scopes == s.scopes && t.saving == s.saving && t.legacy == s.legacy && t.confirmed == s.confirmed
  {
    hide Merge, Rename, References, ScopeOf, WellFormed;
  }

  ghost predicate Awaits(steps: seq<Step>, i: nat, j: nat) {
    forall k :: i < k < j && k < |steps| ==> !steps[k].SaveEnded? && !steps[k].Restarted?
  }

  lemma {:induction false} AwaitedSave(steps: seq<Step>, states: seq<State>, i: nat, j: nat)
    requires Run(steps, states) && i < j <= |steps| && Awaits(steps, i, j)
    requires |states| == |steps| + 1 && states[i + 1].saving.Some?
    ensures var a, b := states[i + 1], states[j];
            b.scopes == a.scopes && b.saving == a.saving && b.legacy == a.legacy && b.confirmed == a.confirmed
  {
    hide Run, Next, Enabled;
    if i + 1 < j {
      AwaitedSave(steps, states, i, j - 1);
      RunStep(steps, states, j - 1);
      AwaitingStep(states[j - 1], steps[j - 1]);
    }
  }

  lemma NamingBegins(s: State, step: Step)
    requires Enabled(s, step) && step.Named?
    ensures var scope := ScopeOf(step.lock, step.method_);
            var t := Next(s, step);
            && t.confirmed == s.confirmed && t.legacy == s.legacy
            && if MayName(s.scopes, s.freshAt, s.observed, scope, step.reference, step.text, step.at) then
                 t.saving == Some(Naming(step.reference))
                 && Renamed(s.scopes, t.scopes, scope, step.reference, step.text)
               else t == s
  {
    hide Nameable, MayName, Renamed, Strip, Find, Relabel, ScopeOf;
    var scope := ScopeOf(step.lock, step.method_);
    NameableIff(s, scope, step.reference, step.text, step.at);
    RenameFrame(s, scope, step.reference, step.text, step.at);
    if Nameable(s, scope, step.reference, step.text, step.at) {
      RenameRelabels(s, scope, step.reference, step.text, step.at);
    }
  }

  // A renaming that is accepted, and whose save returns, gives the first active
  // record with that reference the stripped name, in memory and on file, and
  // confirms it; it changes no other record, no other scope and nothing else of
  // that record.  One that is not accepted changes nothing.
  lemma NamingIsStored(steps: seq<Step>, states: seq<State>, i: nat, j: nat)
    requires Run(steps, states) && i < j < |steps| && Awaits(steps, i, j)
    requires steps[i].Named? && steps[j].SaveEnded? && steps[j].end.Done?
    ensures var a, b, n := states[i], states[j + 1], steps[i];
            var scope := ScopeOf(n.lock, n.method_);
            if MayName(a.scopes, a.freshAt, a.observed, scope, n.reference, n.text, n.at) then
              && Renamed(a.scopes, b.scopes, scope, n.reference, n.text)
              && b.file == Some(Saved(b.scopes, b.legacy)) && b.confirmed == a.confirmed + {n.reference}
            else states[i + 1] == a
  {
    hide Run, Next, Enabled, MayName, Renamed, ScopeOf, EndSave;
    RunStep(steps, states, i);
    NamingBegins(states[i], steps[i]);
    if states[i + 1] != states[i] {
      AwaitedSave(steps, states, i, j);
      RunStep(steps, states, j);
      NamingEnds(states[j], steps[j]);
    }
  }

  lemma NamingEnds(s: State, step: Step)
    requires Enabled(s, step) && step.SaveEnded? && step.end.Done? && s.saving.Some? && s.saving.value.Naming?
    ensures var t := Next(s, step);
            && t.scopes == s.scopes && t.file == Some(Saved(t.scopes, t.legacy))
            && t.confirmed == s.confirmed + {s.saving.value.reference}
  {
  }

  // ---- Confirmed labels ---------------------------------------------------

  // A label is confirmed only by the save of its renaming, and loses that with a
  // removal or a restart ...
  lemma ConfirmedStep(s: State, step: Step, reference: Reference)
    requires Enabled(s, step) && reference in Next(s, step).confirmed
    ensures !step.Restarted? && !step.Removed?
    ensures reference in s.confirmed
            || (step.SaveEnded? && step.end.Done? && s.saving == Some(Naming(reference)))
  {
    hide Rename, References, ScopeOf, Stores, Outcome, SeenNow, Lapsed;
    if step.Named? {
      RenameFrame(s, ScopeOf(step.lock, step.method_), step.reference, step.text, step.at);
    }
  }

  lemma {:induction false} ConfirmedWasNamed(steps: seq<Step>, states: seq<State>, k: nat, reference: Reference)
    returns (n: nat)
    requires Run(steps, states) && k <= |steps| && |states| == |steps| + 1 && reference in states[k].confirmed
    ensures n < k && steps[n].SaveEnded? && steps[n].end.Done? && states[n].saving == Some(Naming(reference))
    ensures forall m :: n <= m < k ==> !steps[m].Restarted? && !steps[m].Removed?
  {
    hide Next, Enabled;
    assert k > 0;
    ConfirmedStep(states[k - 1], steps[k - 1], reference);
    if reference in states[k - 1].confirmed {
      n := ConfirmedWasNamed(steps, states, k - 1, reference);
    } else {
      n := k - 1;
    }
  }

  // ... with a reconciliation that does not see its credential, ...
  lemma UnseenLapses(s: State, step: Step, i: nat)
    requires Enabled(s, step) && step.Reconciled? && Current(s, ScopeOf(step.lock, step.method_), step.ticket)
    requires ScopeOf(step.lock, step.method_) in s.scopes
    requires i < |s.scopes[ScopeOf(step.lock, step.method_)].records|
    requires var was := s.scopes[ScopeOf(step.lock, step.method_)];
             && AllDerivable(s.key, step.lock, step.method_, was.epoch, step.items)
             && forall k :: 0 <= k < |step.items| ==>
                  Base(s.key, step.lock, step.method_, was.epoch, step.items[k]) != Some(was.records[i].base)
    ensures s.scopes[ScopeOf(step.lock, step.method_)].records[i].reference !in Next(s, step).confirmed
  {
    hide Base, Stores, Outcome, SeenNow, ScopeOf, WellFormed;
    var was := s.scopes[ScopeOf(step.lock, step.method_)];
    var sightings := Sightings(s.key, step.lock, step.method_, was.epoch, step.items);
    assert LastSeen(sightings, was.records[i].base).None?;
    assert was.records[i].reference in Unseen(was.records, sightings);
  }

  // ... and with a reset of its scope.
  lemma ResetUnconfirms(s: State, step: Step, i: nat)
    requires Enabled(s, step) && step.Reset? && ScopeOf(step.lock, step.method_) in s.scopes
    requires i < |s.scopes[ScopeOf(step.lock, step.method_)].records|
    ensures s.scopes[ScopeOf(step.lock, step.method_)].records[i].reference !in Next(s, step).confirmed
    ensures ScopeOf(step.lock, step.method_) !in Next(s, step).scopes
  {
    hide ScopeOf;
    var records := s.scopes[ScopeOf(step.lock, step.method_)].records;
    assert records[i].reference in References(records);
  }

  // ---- Resets and restarts ------------------------------------------------

  // The scope holds no reference drawn before `n`.
  ghost predicate NothingOld(scopes: map<Name, Scope>, scope: Name, n: Reference) {
    scope in scopes ==> forall i :: 0 <= i < |scopes[scope].records| ==> scopes[scope].records[i].reference >= n
  }

  ghost predicate Renewed(s: State, scope: Name, n: Reference) {
    && n <= s.next && NothingOld(s.scopes, scope, n)
    && (s.file.Some? ==> NothingOld(s.file.value.scopes, scope, n))
  }

  lemma MergeRenews(s: State, lock: string, method_: string, items: seq<Item>, ticket: nat, epoch: string, n: Reference)
    requires WellStored(s) && n <= s.next && NothingOld(s.scopes, ScopeOf(lock, method_), n)
    ensures NothingOld(Merge(s, lock, method_, items, ticket, epoch).scopes, ScopeOf(lock, method_), n)
  {
    hide Merged, AllDerivable, Sightings, SeenNow, Lapsed;
    var was := ScopeFor(s, ScopeOf(lock, method_), epoch);
    if Stores(s, was, lock, method_, items) {
      var sightings := Sightings(s.key, lock, method_, was.epoch, items);
      MergedKeeps(was.records, Pin(method_), sightings, s.next);
      MergedAdds(was.records, Pin(method_), sightings, s.next);
    }
  }

  lemma RenameRenews(s: State, name: Name, reference: Reference, text: string, now: real, scope: Name, n: Reference)
    requires NothingOld(s.scopes, scope, n)
    ensures NothingOld(Rename(s, name, reference, text, now).scopes, scope, n)
  {
    hide Strip, Nameable;
    if Nameable(s, name, reference, text, now) {
      NameableFinds(s, name, reference, text, now);
    }
  }

  lemma RenewedStep(s: State, step: Step, scope: Name, n: Reference)
    requires WellStored(s) && Renewed(s, scope, n) && Enabled(s, step)
    ensures Renewed(Next(s, step), scope, n)
  {
    hide Merge, Rename, ScopeOf, WellStored;
    if step.Reconciled? {
      var name := ScopeOf(step.lock, step.method_);
      MergeFrame(s, step.lock, step.method_, step.items, step.ticket, step.epoch);
      if name == scope {
        MergeRenews(s, step.lock, step.method_, step.items, step.ticket, step.epoch, n);
      }
    } else if step.Named? {
      var name := ScopeOf(step.lock, step.method_);
      RenameFrame(s, name, step.reference, step.text, step.at);
      RenameRenews(s, name, step.reference, step.text, step.at, scope, n);
    }
  }

  lemma {:induction false} StaysRenewed(steps: seq<Step>, states: seq<State>, i: nat, j: nat, scope: Name, n: Reference)
    requires Run(steps, states) && i <= j <= |steps| && Renewed(states[i], scope, n)
    ensures Renewed(states[j], scope, n)
  {
    hide Next, Enabled, Renewed, WellStored;
    if i < j {
      StaysRenewed(steps, states, i, j - 1, scope, n);
      AlwaysWellStored(steps, states, j - 1);
      RenewedStep(states[j - 1], steps[j - 1], scope, n);
    }
  }

  lemma {:induction false} DrawnGrows(steps: seq<Step>, states: seq<State>, i: nat, j: nat)
    requires Run(steps, states) && i <= j <= |steps|
    ensures states[i].next <= states[j].next
  {
    hide Next, Enabled, WellStored;
    if i < j {
      DrawnGrows(steps, states, i, j - 1);
      AlwaysWellStored(steps, states, j - 1);
      StoredStep(states[j - 1], steps[j - 1]);
    }
  }

  // Once the save of a reset has succeeded, no reference the scope ever held
  // comes back, whatever is read, restarted, removed or loaded later.
  lemma ResetForgets(steps: seq<Step>, states: seq<State>, e: nat, i: nat, j: nat, scope: Name)
    requires Run(steps, states) && e <= i < j <= |steps|
    requires states[i].saving == Some(Resetting) && scope !in states[i].scopes
    requires steps[i].SaveEnded? && !steps[i].end.Failed?
    requires scope in Content(states[e]) && scope in Content(states[j])
    ensures References(Content(states[e])[scope].records) !! References(Content(states[j])[scope].records)
  {
    hide Run, Next, Enabled;
    RunStep(steps, states, i);
    AlwaysWellStored(steps, states, i);
    AlwaysWellStored(steps, states, e);
    DrawnGrows(steps, states, e, i);
    SavedWithout(states[i], steps[i], scope);
    StaysRenewed(steps, states, i + 1, j, scope, states[i].next);
  }

  lemma SavedWithout(s: State, step: Step, scope: Name)
    requires step.SaveEnded? && !step.end.Failed? && Enabled(s, step) && scope !in s.scopes
    ensures Renewed(Next(s, step), scope, s.next)
  {
    hide EndSave;
    EndSaveFrame(s, step.end, step.at);
  }

  // ---- One record for each credential -------------------------------------

  ghost predicate DistinctInventories(steps: seq<Step>) {
    forall k :: 0 <= k < |steps| && steps[k].Reconciled? ==> DistinctItems(steps[k].items)
  }

  ghost predicate OneEach(scopes: map<Name, Scope>) {
    forall lock: string, method_: string ::
      method_ in ACCESS_METHODS && ScopeOf(lock, method_) in scopes ==>
        OneRecordEach(scopes[ScopeOf(lock, method_)].records, Pin(method_))
  }

  ghost predicate OneEachStored(s: State) {
    OneEach(s.scopes) && (s.file.Some? ==> OneEach(s.file.value.scopes))
  }

  lemma OutcomeOneEach(s: State, was: Scope, lock: string, method_: string, items: seq<Item>)
    requires Stores(s, was, lock, method_, items)
    requires '/' !in was.epoch && DistinctItems(items) && OneRecordEach(was.records, Pin(method_))
    ensures OneRecordEach(Outcome(s, was, lock, method_, items), Pin(method_))
  {
    hide Merged, AllDerivable, Sightings, OneRecordEach, NoDoubleEnrolment, DistinctItems;
    var sightings := Sightings(s.key, lock, method_, was.epoch, items);
    DistinctItemsSuffice(s.key, lock, method_, was.epoch, items, was.records, Pin(method_));
    OneRecordEachKept(was.records, Pin(method_), sightings, s.next);
  }

  lemma MergeOneEach(s: State, lock: string, method_: string, items: seq<Item>, ticket: nat, epoch: string)
    requires WellStored(s) && OneEach(s.scopes) && '/' !in epoch && method_ in ACCESS_METHODS && DistinctItems(items)
    ensures OneEach(Merge(s, lock, method_, items, ticket, epoch).scopes)
  {
    hide Stores, Outcome, SeenNow, Lapsed, ScopeOf, OneRecordEach, DistinctItems, DistinctReferences, ReferencesBelow;
    var scope := ScopeOf(lock, method_);
    var was := ScopeFor(s, scope, epoch);
    NoneTwice(Pin(method_));
    if Stores(s, was, lock, method_, items) {
      OutcomeOneEach(s, was, lock, method_, items);
    }
    var t := Merge(s, lock, method_, items, ticket, epoch);
    forall l: string, m: string | m in ACCESS_METHODS && ScopeOf(l, m) in t.scopes
      ensures OneRecordEach(t.scopes[ScopeOf(l, m)].records, Pin(m))
    {
      ScopesDiffer(lock, method_, l, m);
    }
  }

  lemma NoneTwice(pin: bool)
    ensures OneRecordEach([], pin)
  {
  }

  lemma RelabelOneEach(scope: Scope, i: nat, text: string, pin: bool)
    requires i < |scope.records| && OneRecordEach(scope.records, pin)
    ensures OneRecordEach(Relabel(scope, i, text).records, pin)
  {
    hide Strip;
    var a, b := scope.records, Relabel(scope, i, text).records;
    assert forall j :: 0 <= j < |a| ==> b[j].active == a[j].active && b[j].base == a[j].base;
  }

  lemma RenameOneEach(s: State, name: Name, reference: Reference, text: string, now: real)
    requires OneEach(s.scopes)
    ensures OneEach(Rename(s, name, reference, text, now).scopes)
  {
    hide Strip, Nameable, Relabel, OneRecordEach, ScopeOf, Find;
    if Nameable(s, name, reference, text, now) {
      NameableFinds(s, name, reference, text, now);
      var t := Rename(s, name, reference, text, now);
      forall l: string, m: string | m in ACCESS_METHODS && ScopeOf(l, m) in t.scopes
        ensures OneRecordEach(t.scopes[ScopeOf(l, m)].records, Pin(m))
      {
        if ScopeOf(l, m) == name {
          RelabelOneEach(s.scopes[name], Find(s.scopes[name].records, reference).value, text, Pin(m));
        }
      }
    }
  }

  lemma OneEachStep(s: State, step: Step)
    requires WellStored(s) && OneEachStored(s) && Enabled(s, step)
    requires step.Reconciled? ==> DistinctItems(step.items)
    ensures OneEachStored(Next(s, step))
  {
    hide Merge, Rename, ScopeOf, WellStored, OneRecordEach, DistinctItems;
    if step.Reconciled? {
      MergeFrame(s, step.lock, step.method_, step.items, step.ticket, step.epoch);
      MergeOneEach(s, step.lock, step.method_, step.items, step.ticket, step.epoch);
    } else if step.Named? {
      RenameFrame(s, ScopeOf(step.lock, step.method_), step.reference, step.text, step.at);
      RenameOneEach(s, ScopeOf(step.lock, step.method_), step.reference, step.text, step.at);
    }
  }

  // If no inventory lists one credential twice, at most one live record stands
  // for each: one active record of a base, and for a PIN only one at all.
  lemma {:induction false} OneRecordForEach(steps: seq<Step>, states: seq<State>, k: nat)
    requires Run(steps, states) && DistinctInventories(steps) && k <= |steps|
    ensures OneEachStored(states[k])
  {
    hide Next, Enabled, DistinctItems;
    if k == 0 {
      assert OneEach(INITIAL.scopes);
    } else {
      hide OneEachStored, WellStored;
      OneRecordForEach(steps, states, k - 1);
      AlwaysWellStored(steps, states, k - 1);
      OneEachStep(states[k - 1], steps[k - 1]);
    }
  }

  // A PIN's record is the only one of its base from then on, with the same
  // reference, while its scope is carried on.
  lemma PinKeepsReference(steps: seq<Step>, states: seq<State>, i: nat, j: nat, lock: string, n: nat, m: nat)
    requires Run(steps, states) && DistinctInventories(steps) && i <= j <= |steps|
    requires ScopeOf(lock, "keypad_pin") in Content(states[i])
    requires Undisturbed(steps, states, i, j, ScopeOf(lock, "keypad_pin"))
    requires n < |Content(states[i])[ScopeOf(lock, "keypad_pin")].records|
    ensures ScopeOf(lock, "keypad_pin") in Content(states[j])
    ensures var a, b := Content(states[i])[ScopeOf(lock, "keypad_pin")].records,
                        Content(states[j])[ScopeOf(lock, "keypad_pin")].records;
            m < |b| && b[m].base == a[n].base ==> m == n && b[m].reference == a[n].reference
  {
    hide Next, Enabled, Undisturbed, ScopeOf;
    RecordsLive(steps, states, i, j, lock, "keypad_pin");
    OneRecordForEach(steps, states, j);
  }

  // ---- Limits of what holds -----------------------------------------------

  // A ticket used a second time, while its scope is fresh: what the scope shows
  // stays true exactly if all of it is seen again, or it shows PINs.
  lemma ReusedTicket(s: State, lock: string, method_: string, items: seq<Item>, ticket: nat, epoch: string)
    requires WellStored(s) && FreshIsTrue(s) && Enabled(s, Reconciled(lock, method_, items, ticket, epoch))
    requires Current(s, ScopeOf(lock, method_), ticket) && ScopeOf(lock, method_) in s.freshAt
    requires Stores(s, s.scopes[ScopeOf(lock, method_)], lock, method_, items)
    ensures FreshIsTrue(Next(s, Reconciled(lock, method_, items, ticket, epoch)))
            <==> Pin(method_)
                 || s.observed[ScopeOf(lock, method_)]
                    !! Lapsed(s, s.scopes[ScopeOf(lock, method_)], lock, method_, items)
  {
    hide Merged, AllDerivable, Sightings, SeenNow, ActiveReferences, Unseen, WellFormed, DistinctReferences,
        ReferencesBelow;
    var scope := ScopeOf(lock, method_);
    var was := s.scopes[scope];
    var sightings := Sightings(s.key, lock, method_, was.epoch, items);
    StaleObservation(was.records, Pin(method_), sightings, s.next, s.observed[scope]);
  }

  lemma MergedOne(records: seq<PrivateRecord>, pin: bool, s: Sighting, next: Reference)
    requires Holder(records, pin, s.base).None?
    ensures |Merged(records, pin, [s], next)| == |records| + 1
    ensures Merged(records, pin, [s], next)[|records|]
            == PrivateRecord(s.base, next, s.recordType, s.validity, "", true)
  {
    hide Holder;
    assert [s][..0] == [] && Additions(records, pin, [], next) == [];
  }

  // The read of one card into a new store, for any lock, card, epoch and key.
  lemma CardIsMerged(lock: string, item: Item, epoch: string, key: Bytes) returns (steps: seq<Step>, s: State)
    requires epoch != "" && '/' !in epoch && item.method_ == "ic_card"
    requires Base(Some(key), lock, "ic_card", epoch, item).Some?
    ensures Reached(steps, s) && s.loaded && s.key == Some(key)
    ensures |steps| == 4 && NoneResets(steps) && steps[3] == Reconciled(lock, "ic_card", [item], 1, epoch)
    ensures var scope := ScopeOf(lock, "ic_card");
            var base := Base(Some(key), lock, "ic_card", epoch, item).value;
            && Current(s, scope, 1) && (scope, 1) in s.admitted
            && s.saving == Some(Reconciling(scope, 1, {0})) && scope in s.scopes
            && s.scopes[scope] ==
                 Scope(epoch, [PrivateRecord(base, 0, item.recordType, item.validity, "", true)])
  {
    hide Reached, Base, ScopeOf, Merged, Unseen;
    ReachedInitial();
    var a, t := Then([], INITIAL, Loaded(KeyReady(key)));
    a, t := Then(a, t, Marked(lock, "ic_card"));
    a, t := Then(a, t, Admitted(lock, "ic_card", 1));
    var base := Base(Some(key), lock, "ic_card", epoch, item).value;
    var sighting := Sighting(base, item.recordType, item.validity);
    MergedOne([], false, sighting, 0);
    assert Sightings(t.key, lock, "ic_card", epoch, [item]) == [sighting];
    assert ObservedAs([], false, [sighting], 0, 0) == 0;
    assert Observed([], false, [sighting], 0) == {0};
    steps, s := Then(a, t, Reconciled(lock, "ic_card", [item], 1, epoch));
    MergeFrame(t, lock, "ic_card", [item], 1, epoch);
  }

  // Reading nothing retires the one card.
  lemma EmptyReadRetires(s: State, lock: string, epoch: string, r: PrivateRecord)
    requires ScopeOf(lock, "ic_card") in s.scopes && s.scopes[ScopeOf(lock, "ic_card")] == Scope(epoch, [r])
    ensures var t := Merge(s, lock, "ic_card", [], 1, epoch);
            t.scopes[ScopeOf(lock, "ic_card")].records == [r.(active := false)]
  {
    hide Holder, ScopeOf;
  }

  // A run in which a ticket is used a second time, while its scope is fresh:
  // the scope goes on showing the card it has just retired as observed.
  lemma ReusedTicketMisleads(lock: string, item: Item, epoch: string, key: Bytes)
    returns (steps: seq<Step>, s: State)
    requires epoch != "" && '/' !in epoch && item.method_ == "ic_card"
    requires Base(Some(key), lock, "ic_card", epoch, item).Some?
    ensures Reached(steps, s) && !FreshIsTrue(s) && NoneResets(steps)
    ensures |steps| == 6 && steps[3] == Reconciled(lock, "ic_card", [item], 1, epoch)
    ensures steps[4] == SaveEnded(Done, 0.0) && steps[5] == Reconciled(lock, "ic_card", [], 1, epoch)
  {
    hide Reached, Base, ScopeOf, Merge;
    var scope := ScopeOf(lock, "ic_card");
    var a, t := CardIsMerged(lock, item, epoch, key);
    a, t := Then(a, t, SaveEnded(Done, 0.0));
    assert t.freshAt[scope] == 0.0 && t.observed[scope] == {0};
    EmptyReadRetires(t, lock, epoch, t.scopes[scope].records[0]);
    MergeFrame(t, lock, "ic_card", [], 1, epoch);
    steps, s := Then(a, t, Reconciled(lock, "ic_card", [], 1, epoch));
    assert scope in s.freshAt && 0 in s.observed[scope] && 0 !in ActiveReferences(s.scopes[scope].records);
  }

  // A PIN that a loaded store could add to a scope without records, on a read
  // with a ticket of its own.
  ghost predicate Addable(s: State, lock: string, item: Item, epoch: string) {
    && s.loaded && s.saving.None?
    && ScopeOf(lock, "keypad_pin") in s.scopes && s.scopes[ScopeOf(lock, "keypad_pin")] == Scope(epoch, [])
    && Base(s.key, lock, "keypad_pin", epoch, item).Some?
    && epoch != "" && '/' !in epoch && item.method_ == "keypad_pin"
  }

  // The read of one PIN: its mark, its checks, and its reconciliation.
  lemma ReadPin(steps: seq<Step>, s: State, lock: string, item: Item, epoch: string)
    returns (steps': seq<Step>, s': State)
    requires Reached(steps, s) && Addable(s, lock, item, epoch)
    ensures Reached(steps', s') && steps <= steps' && NoneResets(steps'[|steps|..])
    ensures s'.loaded && s'.saving.Some? && ScopeOf(lock, "keypad_pin") in s'.scopes
    ensures s'.scopes[ScopeOf(lock, "keypad_pin")].records ==
              [PrivateRecord(Base(s.key, lock, "keypad_pin", epoch, item).value, s.next,
                             item.recordType, item.validity, "", true)]
    ensures s'.file == s.file && s'.keyFile == s.keyFile && s'.next == s.next + 1
  {
    hide Reached, Base, ScopeOf, Merged, Unseen, Observed;
    var scope := ScopeOf(lock, "keypad_pin");
    var ticket := RevisionOf(s, scope) + 1;
    var a, t := Then(steps, s, Marked(lock, "keypad_pin"));
    a, t := Then(a, t, Admitted(lock, "keypad_pin", ticket));
    var base := Base(s.key, lock, "keypad_pin", epoch, item).value;
    MergedOne([], true, Sighting(base, item.recordType, item.validity), s.next);
    assert Sightings(s.key, lock, "keypad_pin", epoch, [item]) == [Sighting(base, item.recordType, item.validity)];
    steps', s' := Then(a, t, Reconciled(lock, "keypad_pin", [item], ticket, epoch));
    MergeFrame(t, lock, "keypad_pin", [item], ticket, epoch);
  }

  ghost predicate NoneResets(steps: seq<Step>) {
    forall k :: 0 <= k < |steps| ==> !steps[k].Reset? && !steps[k].Removed?
  }

  // An empty scope on file, for any lock, epoch and key.
  lemma EmptyScopeOnFile(lock: string, epoch: string, key: Bytes) returns (steps: seq<Step>, s: State)
    requires epoch != "" && '/' !in epoch
    ensures Reached(steps, s) && NoneResets(steps)
    ensures s.loaded && s.saving.None? && s.key == Some(key) && s.keyFile == Some(key) && s.next == 0
    ensures ScopeOf(lock, "keypad_pin") in s.scopes && s.scopes[ScopeOf(lock, "keypad_pin")] == Scope(epoch, [])
    ensures s.file.Some? && s.file.value.scopes == s.scopes
  {
    hide Reached, ScopeOf;
    ReachedInitial();
    steps, s := Then([], INITIAL, Loaded(KeyReady(key)));
    steps, s := Then(steps, s, Marked(lock, "keypad_pin"));
    steps, s := Then(steps, s, Admitted(lock, "keypad_pin", 1));
    steps, s := Then(steps, s, Reconciled(lock, "keypad_pin", [], 1, epoch));
    steps, s := Then(steps, s, SaveEnded(Done, 0.0));
  }

  // A run without any reset or removal in which one PIN, of one base, has one
  // reference and then another: the save of the first failed before a restart.
  lemma UnsavedPinIsReplaced(lock: string, item: Item, epoch: string, key: Bytes)
    returns (steps: seq<Step>, s: State, steps': seq<Step>, s': State)
    requires epoch != "" && '/' !in epoch && item.method_ == "keypad_pin"
    requires Base(Some(key), lock, "keypad_pin", epoch, item).Some?
    ensures Reached(steps, s) && Reached(steps', s') && steps <= steps' && NoneResets(steps')
    ensures ScopeOf(lock, "keypad_pin") in Content(s) && ScopeOf(lock, "keypad_pin") in Content(s')
    ensures var scope := ScopeOf(lock, "keypad_pin");
            var a, b := Content(s)[scope].records, Content(s')[scope].records;
            |a| == |b| == 1 && a[0].base == b[0].base && a[0].reference == 0 && b[0].reference == 1
  {
    hide Reached, Base, ScopeOf;
    steps, s := EmptyScopeOnFile(lock, epoch, key);
    var h, t := ReadPin(steps, s, lock, item, epoch);
    steps, s := h, t;
    h, t := Then(h, t, SaveEnded(Failed, 0.0));
    h, t := Then(h, t, Restarted);
    h, t := Then(h, t, Loaded(KeyReady([])));
    steps', s' := ReadPin(h, t, lock, item, epoch);
  }

  // ---- The projection that is shown ---------------------------------------

  datatype Row = Row(
    reference: Reference,
    name: string,
    recordType: string,
    validity: string,
    present: Option<bool>,
    stale: bool,
    confirmed: bool)

  function ShownRow(s: State, scope: Name, fresh_: bool, r: PrivateRecord): Row {
    Row(r.reference, r.alias, r.recordType, r.validity,
        if fresh_ then Some(Sees(s, scope, r.reference)) else None,
        !fresh_ || !Sees(s, scope, r.reference),
        r.reference in s.confirmed)
  }

  function Shown(s: State, lock: string, method_: string, now: real): seq<Row> {
    var scope := ScopeOf(lock, method_);
    if scope !in s.scopes then []
    else
      var records := s.scopes[scope].records;
      seq(|records|, i requires 0 <= i < |records| => ShownRow(s, scope, IsFresh(s, scope, now), records[i]))
  }

  // Each record is shown with its own fields.  What is shown as present is an
  // active record of the last complete read, and every reference observed in
  // that read is shown; older than five minutes, nothing is shown as present or
  // absent.
  lemma ShownIsTrue(s: State, lock: string, method_: string, now: real)
    requires Sound(s)
    ensures var rows, scope := Shown(s, lock, method_, now), ScopeOf(lock, method_);
            var current := scope in s.freshAt && now - s.freshAt[scope] < 300.0;
            && |rows| == (if scope in s.scopes then |s.scopes[scope].records| else 0)
            && (forall i :: 0 <= i < |rows| ==>
                  var row, r := rows[i], s.scopes[scope].records[i];
                  && row.reference == r.reference && row.name == r.alias
                  && row.recordType == r.recordType && row.validity == r.validity
                  && row.confirmed == (r.reference in s.confirmed)
                  && row.present == (if current then Some(r.reference in s.observed[scope]) else None)
                  && row.stale == (row.present != Some(true)))
            && (current ==>
                  forall o <- s.observed[scope] ::
                    exists i :: 0 <= i < |rows| && rows[i].reference == o && rows[i].present == Some(true)
                      && s.scopes[scope].records[i].active)
  {
    var rows, scope := Shown(s, lock, method_, now), ScopeOf(lock, method_);
    if IsFresh(s, scope, now) {
      var records := s.scopes[scope].records;
      forall o | o in s.observed[scope]
        ensures exists i ::
                  0 <= i < |rows| && rows[i].reference == o && rows[i].present == Some(true) && records[i].active
      {
        assert o in ActiveReferences(records);
        var i :| 0 <= i < |records| && records[i].active && records[i].reference == o;
        assert rows[i].reference == o;
      }
    }
  }
}
