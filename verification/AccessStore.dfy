// The private access-record store of one config entry.
//
// Each method below holds the store's lock, except `MarkStale` and those of the
// last group; at the await of its save, `Interfere` runs the marks of other
// tasks.  Every stretch is recorded, and the fields are what the record leads
// to.
module AccessStore {
  import opened Basics
  import opened CredentialReferences
  import opened AccessRecords
  import opened AccessSteps

  // The loops of a reconciliation, on the records of its scope.
  method MergeRecords(
    was: Scope, key: Option<Bytes>, drawn: Reference, confirmed: set<Reference>,
    lock: string, method_: string, items: seq<Item>, ghost s: State)
    returns (exit: Exit<(seq<PrivateRecord>, set<Reference>)>, still: set<Reference>)
    requires s.key == key && s.next == drawn
    ensures exit.Return? <==> Stores(s, was, lock, method_, items)
    ensures exit.Return? ==>
              && exit.value.0 == Outcome(s, was, lock, method_, items)
              && exit.value.1 == SeenNow(s, was, lock, method_, items)
    ensures exit.Raise? ==> exit.error == Other
    ensures still == confirmed - Lapsed(s, was, lock, method_, items)
  {
    hide Merged, Unseen, Observed, AllDerivable, Sightings, Partly, SeenBases, Holder;
    var active := HolderMap(was.records, Pin(method_));
    var after, seen, sighted := ObserveItems(was.records, active, key, lock, method_, was.epoch, items, drawn);
    if after.Raise? {
      return Raise(Other), confirmed;
    }
    ghost var sightings := Sightings(key, lock, method_, was.epoch, items);
    var records;
    records, still := RetireUnseen(was.records, after.value, seen, Pin(method_), confirmed, sightings, drawn);
    if |records| > MAX_RECORDS {
      return Raise(Other), still;
    }
    return Return((records, sighted)), still;
  }

  lemma MergeOf(s: State, lock: string, method_: string, items: seq<Item>, ticket: nat, epoch: string)
    ensures var scope := ScopeOf(lock, method_);
            var was := ScopeFor(s, scope, epoch);
            && (!Stores(s, was, lock, method_, items) ==>
                  Merge(s, lock, method_, items, ticket, epoch)
                  == s.(next := s.next + |items|, used := s.used + {(scope, ticket)},
                        confirmed := s.confirmed - Lapsed(s, was, lock, method_, items),
                        scopes := s.scopes[scope := was]))
            && (Stores(s, was, lock, method_, items) ==>
                  Merge(s, lock, method_, items, ticket, epoch)
                  == s.(next := s.next + |items|, used := s.used + {(scope, ticket)},
                        confirmed := s.confirmed - Lapsed(s, was, lock, method_, items),
                        scopes := s.scopes[scope := was]
                                    [scope := Scope(was.epoch, Outcome(s, was, lock, method_, items))],
                        saving := Some(Reconciling(scope, ticket, SeenNow(s, was, lock, method_, items)))))
  {
    hide Outcome, SeenNow, Lapsed, ScopeOf, ScopeFor, AllDerivable;
    var scope := ScopeOf(lock, method_);
    var was := ScopeFor(s, scope, epoch);
    if Stores(s, was, lock, method_, items) {
      SetTwice(s.scopes, scope, was, Scope(was.epoch, Outcome(s, was, lock, method_, items)));
    }
  }

  lemma SetTwice<K, V>(m: map<K, V>, k: K, a: V, b: V)
    ensures m[k := a][k := b] == m[k := b]
  {
  }

  function Shifted(found: Option<nat>, n: nat): Option<nat> {
    if found.Some? then Some(found.value + n) else None
  }

  lemma FindNext(records: seq<PrivateRecord>, reference: Reference)
    requires records != []
    ensures Find(records, reference) ==
              if records[0].active && records[0].reference == reference then Some(0)
              else Shifted(Find(records[1..], reference), 1)
  {
  }

  class AccessRecordStore {
    var scopes: map<Name, Scope>
    var legacyDisabled: set<string>
    var freshAt: map<Name, real>
    var revision: map<Name, nat>
    var confirmed: set<Reference>
    var observed: map<Name, set<Reference>>
    var loaded: bool
    var key: Option<Bytes>
    var file: Option<Saved>
    var keyFile: Option<Bytes>
    var drawn: Reference
    ghost var steps: seq<Step>
    ghost var state: State

    // The fields are those of `s`.
    ghost predicate FieldsOf(s: State)
      reads this
    {
      && scopes == s.scopes && legacyDisabled == s.legacy
      && freshAt == s.freshAt && revision == s.revision
      && confirmed == s.confirmed && observed == s.observed
      && loaded == s.loaded && key == s.key
      && file == s.file && keyFile == s.keyFile && drawn == s.next
    }

    // What the store went through is a run of the steps above, and its fields
    // are what that run leads to.
    ghost predicate Inv()
      reads this
    {
      Reached(steps, state) && FieldsOf(state)
    }

    // The store's lock is free.
    ghost predicate Valid()
      reads this
    {
      Inv() && state.saving.None?
    }

    constructor ()
      ensures Valid() && steps == []
    {
      scopes, legacyDisabled, freshAt, revision := map[], {}, map[], map[];
      confirmed, observed, loaded, key := {}, map[], false, None;
      file, keyFile, drawn := None, None, 0;
      steps, state := [], INITIAL;
      ReachedInitial();
    }

    ghost method Note(step: Step)
      requires Reached(steps, state) && Enabled(state, step)
      modifies this`steps, this`state
      ensures Reached(steps, state) && steps == old(steps) + [step] && state == Next(old(state), step)
    {
      hide Reached, Enabled, Next;
      ReachedExtend(steps, state, step);
      steps, state := steps + [step], Next(state, step);
    }

    // Exactly these steps were taken.
    twostate predicate Took(more: seq<Step>)
      reads this
    {
      Inv() && steps == old(steps) + more
    }

    // ---- Without the lock -------------------------------------------------

    method Supersede(scope: Name)
      modifies this`freshAt, this`observed, this`revision
      ensures freshAt == old(freshAt) - {scope} && observed == old(observed) - {scope}
      ensures revision == old(revision)[scope := (if scope in old(revision) then old(revision)[scope] else 0) + 1]
    {
      freshAt := freshAt - {scope};
      observed := observed - {scope};
      revision := revision[scope := (if scope in revision then revision[scope] else 0) + 1];
    }

    method MarkStale(lock: string, method_: string) returns (exit: Exit<nat>)
      requires Inv()
      modifies this
      ensures method_ != "keypad_pin" && method_ != "fingerprint" && method_ != "ic_card" ==>
                exit == Raise(Other) && unchanged(this)
      ensures method_ == "keypad_pin" || method_ == "fingerprint" || method_ == "ic_card" ==>
                && Took([Marked(lock, method_)]) && state == Mark(old(state), ScopeOf(lock, method_))
                && exit == Return(RevisionOf(state, ScopeOf(lock, method_)))
    {
      hide Reached, Merge, Rename, Forget, EndSave, Load, Remove, Restart, WellFormed;
      if method_ !in ACCESS_METHODS {
        return Raise(Other);
      }
      Note(Marked(lock, method_));
      var scope := ScopeOf(lock, method_);
      Supersede(scope);
      return Return(revision[scope]);
    }

    // Marks of other tasks, while this one awaits its save.
    method Interfere()
      requires Inv()
      modifies this
      ensures Inv() && OnlyMarked()
    {
      hide Reached, Enabled, Next;
      var more: nat := *;
      while more > 0
        invariant Inv() && OnlyMarked()
      {
        var lock: string := *;
        var method_: string := *;
        if method_ in ACCESS_METHODS {
          var _ := MarkStale(lock, method_);
        }
        more := more - 1;
      }
    }

    // The awaited save: marks of other tasks, and how it ended.
    method AwaitSave() returns (end: WriteEnd, exit: Exit<()>)
      requires Inv()
      modifies this
      ensures Inv() && OnlyMarked()
      ensures exit.Return? <==> end.Done?
      ensures exit.Raise? ==> exit.error == Other || exit.error == Cancelled
    {
      hide Reached, Enabled, Next;
      Interfere();
      end := *;
      var cancelled: bool := *;
      exit := if end.Done? then Return(())
              else if end.CutShort? || cancelled then Raise(Cancelled) else Raise(Other);
    }

    twostate predicate OnlyMarked()
      reads this
    {
      && state == old(state).(freshAt := state.freshAt, observed := state.observed, revision := state.revision)
      && old(steps) <= steps
      && forall k :: |old(steps)| <= k < |steps| ==> steps[k].Marked?
    }

    // One operation under the lock: its step, and if that began a save, marks
    // of other tasks and the end of the save.
    twostate predicate Ran(first: Step, ok: bool)
      requires Enabled(old(state), first)
      reads this
    {
      var n := |old(steps)|;
      && old(steps) + [first] <= steps
      && state.admitted == old(state).admitted
      && (|steps| == n + 1 <==> Next(old(state), first).saving.None?)
      && (|steps| > n + 1 ==> steps[|steps| - 1].SaveEnded? && steps[|steps| - 1].end.Done? == ok)
      && forall k :: n < k < |steps| - 1 ==> steps[k].Marked?
    }

    // ---- Under the lock ---------------------------------------------------

    method ReconcileLocked(lock: string, method_: string, items: seq<Item>, ticket: nat, epoch: string, now: real)
      returns (exit: Exit<()>)
      requires Valid() && Enabled(state, Reconciled(lock, method_, items, ticket, epoch))
      modifies this
      ensures Valid() && Ran(Reconciled(lock, method_, items, ticket, epoch), exit.Return?)
      ensures exit.Raise? ==> exit.error == Other || exit.error == Cancelled
      ensures exit.Return? && Current(old(state), ScopeOf(lock, method_), ticket) ==>
                && Next(old(state), Reconciled(lock, method_, items, ticket, epoch)).saving.Some?
                && file == Some(Saved(scopes, legacyDisabled))
    {
      hide Reached, Mark, Rename, Forget, Load, Remove, Restart, Merge;
      Note(Reconciled(lock, method_, items, ticket, epoch));
      MergeFrame(old(state), lock, method_, items, ticket, epoch);
      var scope := ScopeOf(lock, method_);
      if scope !in revision || revision[scope] != ticket {
        return Return(());
      }
      var merged :- MergeInventory(old(state), lock, method_, items, ticket, epoch);
      var end;
      end, exit := AwaitSave();
      EndReconcile(scope, ticket, merged, end, now);
    }

    // The stretch before the save: the references observed, or the exception.
    method MergeInventory(
      ghost s: State, lock: string, method_: string, items: seq<Item>, ticket: nat, epoch: string)
      returns (exit: Exit<set<Reference>>)
      requires FieldsOf(s) && s.saving.None?
      requires state == Merge(s, lock, method_, items, ticket, epoch)
      modifies this`scopes, this`drawn, this`confirmed
      ensures FieldsOf(state)
      ensures exit.Return? <==> state.saving.Some?
      ensures exit.Return? ==> state.saving == Some(Reconciling(ScopeOf(lock, method_), ticket, exit.value))
      ensures exit.Raise? ==> exit.error == Other
    {
      hide Stores, Outcome, SeenNow, Lapsed, Merge;
      MergeOf(s, lock, method_, items, ticket, epoch);
      var scope := ScopeOf(lock, method_);
      var was := if scope in scopes then scopes[scope] else Scope(epoch, []);
      scopes := scopes[scope := was];
      var merged, still := MergeRecords(was, key, drawn, confirmed, lock, method_, items, s);
      drawn := drawn + |items|;
      confirmed := still;
      var result :- merged;
      scopes := scopes[scope := Scope(was.epoch, result.0)];
      return Return(result.1);
    }

    // The stretch after the save.
    method EndReconcile(scope: Name, ticket: nat, sighted: set<Reference>, end: WriteEnd, now: real)
      requires Inv() && state.saving == Some(Reconciling(scope, ticket, sighted))
      modifies this
      ensures Valid() && state == EndSave(old(state), end, now) && Took([SaveEnded(end, now)])
    {
      hide Reached, Mark, Merge, Rename, Forget, Load, Remove, Restart, WellFormed;
      Note(SaveEnded(end, now));
      if !end.Failed? {
        file := Some(Saved(scopes, legacyDisabled));
      }
      if end.Done? {
        if scope in revision && revision[scope] == ticket {
          observed := observed[scope := sighted];
          freshAt := freshAt[scope := now];
        }
      }
    }

    // The loop over the records of `async_name`.
    static method FindActive(records: seq<PrivateRecord>, reference: Reference) returns (found: Option<nat>)
      ensures found == Find(records, reference)
    {
      for i := 0 to |records|
        invariant Find(records, reference) == Shifted(Find(records[i..], reference), i)
      {
        FindNext(records[i..], reference);
        assert records[i..][1..] == records[i + 1..];
        if records[i].active && records[i].reference == reference {
          return Some(i);
        }
      }
      return None;
    }

    // Rename a fresh active reference of this scope.
    method NameLocked(lock: string, method_: string, reference: Reference, text: string, now: real, savedAt: real)
      returns (exit: Exit<()>)
      requires Valid() && method_ in ACCESS_METHODS
      modifies this
      ensures Valid() && Ran(Named(lock, method_, reference, text, now), exit.Return?)
      ensures if old(MayName(scopes, freshAt, observed, ScopeOf(lock, method_), reference, text, now))
              then Renamed(old(scopes), scopes, ScopeOf(lock, method_), reference, text)
              else exit.Raise? && scopes == old(scopes) && confirmed == old(confirmed) && file == old(file)
      ensures exit.Return? ==>
                file == Some(Saved(scopes, legacyDisabled)) && confirmed == old(confirmed) + {reference}
      ensures exit.Raise? ==> confirmed == old(confirmed)
      ensures exit.Raise? ==> exit.error == Other || exit.error == Cancelled
    {
      hide Reached, Mark, Merge, Forget, Load, Remove, Restart, Strip, Relabel, Find, Nameable, ScopeOf, WellFormed;
      hide MayName, Renamed;
      NameableIff(state, ScopeOf(lock, method_), reference, text, now);
      if Nameable(state, ScopeOf(lock, method_), reference, text, now) {
        RenameRelabels(state, ScopeOf(lock, method_), reference, text, now);
      }
      Note(Named(lock, method_, reference, text, now));
      var renamed := Relabeled(old(state), ScopeOf(lock, method_), reference, text, now);
      if !renamed {
        return Raise(Other);
      }
      var end;
      end, exit := AwaitSave();
      EndNaming(reference, end, savedAt);
    }

    // The checks, and the first matching record's new label.
    method Relabeled(ghost s: State, scope: Name, reference: Reference, text: string, now: real) returns (done: bool)
      requires FieldsOf(s) && state == Rename(s, scope, reference, text, now)
      modifies this`scopes
      ensures FieldsOf(state)
      ensures done <==> Nameable(s, scope, reference, text, now)
    {
      hide Strip, Relabel, Find, Printable;
      if !Printable(text) || !(scope in freshAt && now - freshAt[scope] < FRESH_SECONDS)
         || scope !in scopes || !(scope in observed && reference in observed[scope]) {
        return false;
      }
      var found := FindActive(scopes[scope].records, reference);
      if found.None? {
        return false;
      }
      scopes := scopes[scope := Relabel(scopes[scope], found.value, text)];
      return true;
    }

    method EndNaming(reference: Reference, end: WriteEnd, now: real)
      requires Inv() && state.saving == Some(Naming(reference))
      modifies this
      ensures Valid() && state == EndSave(old(state), end, now) && Took([SaveEnded(end, now)])
    {
      hide Reached, Mark, Merge, Rename, Forget, Load, Remove, Restart, WellFormed;
      Note(SaveEnded(end, now));
      if !end.Failed? {
        file := Some(Saved(scopes, legacyDisabled));
      }
      if end.Done? {
        confirmed := confirmed + {reference};
      }
    }

    // Forget one scope's records; its older reads are superseded.
    method ResetLocked(lock: string, method_: string, savedAt: real) returns (exit: Exit<()>)
      requires Valid() && method_ in ACCESS_METHODS
      modifies this
      ensures Valid() && Ran(Reset(lock, method_), exit.Return?)
      ensures scopes == old(scopes) - {ScopeOf(lock, method_)}
      ensures exit.Return? ==> file == Some(Saved(scopes, legacyDisabled))
      ensures exit.Raise? ==> exit.error == Other || exit.error == Cancelled
    {
      hide Reached, Mark, Merge, Rename, Load, Remove, Restart, ScopeOf, References, WellFormed;
      Note(Reset(lock, method_));
      ForgetScope(old(state), ScopeOf(lock, method_));
      var end;
      end, exit := AwaitSave();
      EndPlainSave(end, savedAt);
    }

    // The stretch before the save: the scope is dropped and marked.
    method ForgetScope(ghost s: State, scope: Name)
      requires FieldsOf(s) && state == Forget(s, scope)
      modifies this`scopes, this`confirmed, this`freshAt, this`observed, this`revision
      ensures FieldsOf(state)
    {
      hide References;
      if scope in scopes {
        confirmed := confirmed - References(scopes[scope].records);
      }
      scopes := scopes - {scope};
      Supersede(scope);
    }

    method EndPlainSave(end: WriteEnd, now: real)
      requires Inv() && state.saving == Some(Resetting)
      modifies this
      ensures Valid() && state == EndSave(old(state), end, now) && Took([SaveEnded(end, now)])
    {
      hide Reached, Mark, Merge, Rename, Forget, Load, Remove, Restart, WellFormed;
      Note(SaveEnded(end, now));
      if !end.Failed? {
        file := Some(Saved(scopes, legacyDisabled));
      }
    }

    // The setting changes only once it is saved.
    method SetLegacyLocked(lock: string, disabled: bool, savedAt: real) returns (exit: Exit<()>)
      requires Valid()
      modifies this
      ensures Valid() && Ran(LegacySet(lock, disabled), exit.Return?)
      ensures exit.Raise? ==> legacyDisabled == old(legacyDisabled)
      ensures exit.Raise? ==> exit.error == Other || exit.error == Cancelled
      ensures exit.Return? ==> (lock in legacyDisabled <==> disabled)
      ensures exit.Return? ==> legacyDisabled - {lock} == old(legacyDisabled) - {lock}
      ensures exit.Return? ==> scopes == old(scopes) && file == Some(Saved(scopes, legacyDisabled))
    {
      hide Reached, Mark, Merge, Rename, Forget, Load, Remove, Restart, WellFormed;
      var updated := if disabled then legacyDisabled + {lock} else legacyDisabled - {lock};
      Note(LegacySet(lock, disabled));
      var end;
      end, exit := AwaitSave();
      EndSetting(updated, end, savedAt);
    }

    method EndSetting(updated: set<string>, end: WriteEnd, now: real)
      requires Inv() && state.saving == Some(Setting(updated))
      modifies this
      ensures Valid() && state == EndSave(old(state), end, now) && Took([SaveEnded(end, now)])
    {
      hide Reached, Mark, Merge, Rename, Forget, Load, Remove, Restart, WellFormed;
      Note(SaveEnded(end, now));
      if !end.Failed? {
        file := Some(Saved(scopes, updated));
      }
      if end.Done? {
        legacyDisabled := updated;
      }
    }

    method ClearMemory()
      modifies this`scopes, this`legacyDisabled, this`freshAt, this`revision, this`confirmed, this`observed, this`loaded
      ensures scopes == map[] && legacyDisabled == {} && freshAt == map[] && observed == map[] && confirmed == {}
      ensures !loaded && revision == (map scope | scope in old(revision) :: old(revision)[scope] + 1)
    {
      revision := map scope | scope in revision :: revision[scope] + 1;
      freshAt := map[];
      observed := map[];
      confirmed := {};
      scopes := map[];
      legacyDisabled := {};
      loaded := false;
    }

    // Forget everything; the two files go one after the other.
    method RemoveLocked(content: WriteEnd, keyToo: WriteEnd) returns (exit: Exit<()>)
      requires Valid()
      modifies this
      ensures Valid() && Took([Removed(content, keyToo)]) && state == Remove(old(state), content, keyToo)
      ensures exit.Return? <==> content.Done? && keyToo.Done?
    {
      hide Reached, Mark, Merge, Rename, Forget, EndSave, Load, Restart, WellFormed;
      Note(Removed(content, keyToo));
      ClearMemory();
      if !content.Failed? {
        file := None;
      }
      if !content.Done? {
        return Raise(if content.Failed? then Other else Cancelled);
      }
      key := None;
      if !keyToo.Failed? {
        keyFile := None;
      }
      return if keyToo.Done? then Return(()) else Raise(if keyToo.Failed? then Other else Cancelled);
    }

    // Read the content and the key; a failure leaves the store not loaded.
    method LoadLocked(end: LoadEnd) returns (exit: Exit<()>)
      requires Valid()
      modifies this
      ensures Valid() && Took([Loaded(end)]) && state == Load(old(state), end)
      ensures exit.Return? <==> loaded
    {
      hide Reached, Mark, Merge, Rename, Forget, EndSave, Remove, Restart, WellFormed;
      Note(Loaded(end));
      if loaded {
        return Return(());
      }
      if end.ContentFailed? {
        return Raise(Other);
      }
      ReadContent();
      loaded := LoadKey(end);
      return if loaded then Return(()) else Raise(Other);
    }

    method ReadContent()
      modifies this`scopes, this`legacyDisabled
      ensures scopes == if file.Some? then file.value.scopes else old(scopes)
      ensures legacyDisabled == if file.Some? then file.value.legacy else old(legacyDisabled)
    {
      if file.Some? {
        scopes := file.value.scopes;
        legacyDisabled := file.value.legacy;
      }
    }

    // The stored key, or a drawn one that is stored first.
    method LoadKey(end: LoadEnd) returns (ready: bool)
      requires !end.ContentFailed?
      modifies this`key, this`keyFile
      ensures ready <==> old(key).Some? || end.KeyReady?
      ensures old(key).Some? ==> key == old(key) && keyFile == old(keyFile)
      ensures old(key).None? ==>
                && keyFile == (if old(keyFile).Some? || end.KeyFailed? then old(keyFile) else Some(end.drawn))
                && key == if ready then keyFile else None
    {
      if key.Some? {
        return true;
      }
      if end.KeyFailed? {
        return false;
      }
      if keyFile.None? {
        keyFile := Some(end.drawn);
      }
      if end.KeyCutShort? {
        return false;
      }
      key := keyFile;
      return true;
    }

    // ---- Waiting for the lock ---------------------------------------------

    // A read that passed the checks made before the lock.
    method Admit(lock: string, method_: string, ticket: nat)
      requires Inv() && loaded && Current(state, ScopeOf(lock, method_), ticket)
      modifies this
      ensures Took([Admitted(lock, method_, ticket)])
      ensures state == old(state).(admitted := old(state).admitted + {(ScopeOf(lock, method_), ticket)})
    {
      hide Reached, ScopeOf;
      Note(Admitted(lock, method_, ticket));
    }

    // Other tasks, before this one gets the lock: each runs from its own
    // acquisition of the lock to its release, and marks come at any time.
    method OtherTasks()
      requires Valid()
      modifies this
      ensures Valid() && old(steps) <= steps && old(state).admitted <= state.admitted
    {
      hide Reached, Enabled, Next;
      var more: nat := *;
      while more > 0
        invariant Valid() && old(steps) <= steps && old(state).admitted <= state.admitted
      {
        OtherTask();
        more := more - 1;
      }
    }

    method OtherTask()
      requires Valid()
      modifies this
      ensures Valid() && old(steps) <= steps && old(state).admitted <= state.admitted
    {
      hide Reached, Enabled, Next, ScopeOf, Current;
      var lock: string := *;
      var method_: string := *;
      var at: real := *;
      var savedAt: real := *;
      if method_ !in ACCESS_METHODS {
        return;
      }
      if {
        case true => var _ := MarkStale(lock, method_);
        case true => var _ := ResetLocked(lock, method_, savedAt);
        case true =>
          var reference: Reference := *;
          var text: string := *;
          var _ := NameLocked(lock, method_, reference, text, at, savedAt);
        case true =>
          var disabled: bool := *;
          var _ := SetLegacyLocked(lock, disabled, savedAt);
        case true =>
          var content: WriteEnd := *;
          var keyToo: WriteEnd := *;
          var _ := RemoveLocked(content, keyToo);
        case true =>
          var end: LoadEnd := *;
          var _ := LoadLocked(end);
        case true => OtherRead(lock, method_, savedAt);
      }
    }

    method OtherRead(lock: string, method_: string, at: real)
      requires Valid()
      modifies this
      ensures Valid() && old(steps) <= steps && old(state).admitted <= state.admitted
    {
      hide Reached, Next, ScopeOf;
      var items: seq<Item> := *;
      var epoch: string := *;
      var scope := ScopeOf(lock, method_);
      if loaded && scope in revision && method_ in ACCESS_METHODS && |items| <= MAX_RECORDS
         && (forall i :: 0 <= i < |items| ==> items[i].method_ == method_) && epoch != "" && '/' !in epoch
      {
        var ticket := revision[scope];
        Admit(lock, method_, ticket);
        var _ := ReconcileLocked(lock, method_, items, ticket, epoch, at);
      }
    }

    // The checks before the lock: an exception, or whether to go on.
    method CheckRead(lock: string, method_: string, inventory: Inventory, cleaned: bool, ticket: nat)
      returns (exit: Exit<bool>)
      requires Inv() && method_ in ACCESS_METHODS
      ensures exit == Return(true) <==>
                && loaded && Current(state, ScopeOf(lock, method_), ticket)
                && cleaned && inventory.complete && WellFormed(method_, inventory.records)
      ensures exit.Raise? ==> exit.error == Other && cleaned && inventory.complete
    {
      hide Reached, ScopeOf;
      var scope := ScopeOf(lock, method_);
      if !loaded || scope !in revision || revision[scope] != ticket {
        return Return(false);
      }
      if !cleaned || !inventory.complete {
        return Return(false);
      }
      if exists i :: 0 <= i < |inventory.records| && inventory.records[i].method_ != method_ {
        return Raise(Other);
      }
      if |inventory.records| > MAX_RECORDS {
        return Raise(Other);
      }
      return Return(true);
    }

    // The step was taken since there were n of them.
    ghost predicate Runs(n: nat, step: Step)
      reads this`steps
    {
      exists k :: n <= k < |steps| && steps[k] == step
    }

    // `async_reconcile`: a complete and current read of a loaded store is
    // reconciled; an incomplete or superseded one, or one that was not cleaned
    // up after, changes no record.
    method Reconcile(
      lock: string, method_: string, inventory: Inventory, cleaned: bool, ticket: Option<nat>, epoch: string, now: real)
      returns (exit: Exit<()>)
      requires Valid() && epoch != "" && '/' !in epoch
      modifies this
      ensures Valid() && old(steps) <= steps
      ensures method_ !in ACCESS_METHODS ==> exit.Raise? && steps == old(steps)
      ensures !old(loaded) || !cleaned || !inventory.complete
              || (ticket.Some? && !Current(old(state), ScopeOf(lock, method_), ticket.value))
              || !WellFormed(method_, inventory.records)
              ==> scopes == old(scopes) && confirmed == old(confirmed) && file == old(file)
      ensures method_ in ACCESS_METHODS && old(loaded) && cleaned && inventory.complete
              && WellFormed(method_, inventory.records)
              && (ticket.None? || Current(old(state), ScopeOf(lock, method_), ticket.value))
              ==> Runs(|old(steps)|, Reconciled(lock, method_, inventory.records,
                         if ticket.Some? then ticket.value else RevisionOf(old(state), ScopeOf(lock, method_)) + 1,
                             epoch))
      ensures exit.Raise? ==> exit.error == Other || exit.error == Cancelled
    {
      hide Reached, Next, ScopeOf, WellFormed;
      if method_ !in ACCESS_METHODS {
        return Raise(Other);
      }
      var revised := if ticket.Some? then ticket.value else 0;
      if ticket.None? {
        var marked := MarkStale(lock, method_);
        revised := marked.value;
      }
      var passed :- CheckRead(lock, method_, inventory, cleaned, revised);
      if !passed {
        return Return(());
      }
      Admit(lock, method_, revised);
      OtherTasks();
      ghost var n := |steps|;
      exit := ReconcileLocked(lock, method_, inventory.records, revised, epoch, now);
      assert steps[n] == Reconciled(lock, method_, inventory.records, revised, epoch);
    }
  }
}