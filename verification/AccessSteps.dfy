// The private access-record store as steps between awaits.
//
// `mark_stale` may run at any time; every other operation holds the store's
// lock, from its own step to the `SaveEnded` of the save it awaits.  A restart
// loses the memory and keeps the two files.
module AccessSteps {
  import opened Basics
  import opened CredentialReferences
  import opened AccessRecords

  const FRESH_SECONDS: real := 300.0
  const MAX_NAME: nat := 64

  type Name = string  // of a scope

  datatype Scope = Scope(epoch: string, records: seq<PrivateRecord>)

  // The stored content: the scopes and the locks with legacy writes disabled.
  datatype Saved = Saved(scopes: map<Name, Scope>, legacy: set<string>)

  datatype Inventory = Inventory(complete: bool, records: seq<Item>)

  // The operation that awaits its save.
  datatype Saving =
    | Reconciling(scope: Name, ticket: nat, observed: set<Reference>)
    | Naming(reference: Reference)
    | Resetting
    | Setting(legacy: set<string>)

  // How an awaited change of a file ended: not done; done, but the caller was
  // cancelled before it was told; done.
  datatype WriteEnd = Failed | CutShort | Done

  // Where a load gets to: the content is unreadable or invalid; the key is; a
  // drawn key is stored, but the caller was cancelled; or the key is read, or
  // drawn and stored if there was none.
  datatype LoadEnd = ContentFailed | KeyFailed | KeyCutShort(drawn: Bytes) | KeyReady(drawn: Bytes)

  datatype State = State(
    scopes: map<Name, Scope>,
    legacy: set<string>,
    freshAt: map<Name, real>,
    revision: map<Name, nat>,
    confirmed: set<Reference>,
    observed: map<Name, set<Reference>>,
    loaded: bool,
    key: Option<Bytes>,
    saving: Option<Saving>,          // the store's lock, held across a save
    file: Option<Saved>,
    keyFile: Option<Bytes>,
    next: Reference,                 // tokens drawn so far
    admitted: set<(Name, nat)>,      // tickets that passed the checks before the lock
    used: set<(Name, nat)>)          // current tickets a reconciliation was run with

  datatype Step =
    | Marked(lock: string, method_: string)
    | Admitted(lock: string, method_: string, ticket: nat)
    | Reconciled(lock: string, method_: string, items: seq<Item>, ticket: nat, epoch: string)
    | Named(lock: string, method_: string, reference: Reference, text: string, at: real)
    | Reset(lock: string, method_: string)
    | LegacySet(lock: string, disabled: bool)
    | SaveEnded(end: WriteEnd, at: real)
    | Loaded(outcome: LoadEnd)
    | Removed(content: WriteEnd, key: WriteEnd)
    | Restarted

  const INITIAL := State(map[], {}, map[], map[], {}, map[], false, None, None, None, None, 0, {}, {})

  function ScopeOf(lock: string, method_: string): Name {
    lock + "/" + method_
  }

  predicate Pin(method_: string) {
    method_ == "keypad_pin"
  }

  // Scope keys never collide.
  lemma ScopesDiffer(lock: string, method_: string, lock': string, method': string)
    requires method_ in ACCESS_METHODS && method' in ACCESS_METHODS
    ensures ScopeOf(lock, method_) == ScopeOf(lock', method') <==> lock == lock' && method_ == method'
  {
    if ScopeOf(lock, method_) == ScopeOf(lock', method') {
      LastSlashSplits(lock, method_, lock', method');
    }
  }

  predicate Current(s: State, scope: Name, ticket: nat) {
    scope in s.revision && s.revision[scope] == ticket
  }

  function RevisionOf(s: State, scope: Name): nat {
    if scope in s.revision then s.revision[scope] else 0
  }

  function Mark(s: State, scope: Name): State {
    s.(freshAt := s.freshAt - {scope}, observed := s.observed - {scope},
       revision := s.revision[scope := RevisionOf(s, scope) + 1])
  }

  // ---- Reconcile ----------------------------------------------------------

  // What the caller may pass on to the lock.
  predicate WellFormed(method_: string, items: seq<Item>) {
    && method_ in ACCESS_METHODS
    && (forall i :: 0 <= i < |items| ==> items[i].method_ == method_)
    && |items| <= MAX_RECORDS
  }

  function ScopeFor(s: State, scope: Name, epoch: string): Scope {
    if scope in s.scopes then s.scopes[scope] else Scope(epoch, [])
  }

  // The records that a reconciliation stores, unless an identifier gives no
  // base or they would be too many.
  function Outcome(s: State, was: Scope, lock: string, method_: string, items: seq<Item>): seq<PrivateRecord>
    requires AllDerivable(s.key, lock, method_, was.epoch, items)
  {
    Merged(was.records, Pin(method_), Sightings(s.key, lock, method_, was.epoch, items), s.next)
  }

  predicate Stores(s: State, was: Scope, lock: string, method_: string, items: seq<Item>) {
    AllDerivable(s.key, lock, method_, was.epoch, items) && |Outcome(s, was, lock, method_, items)| <= MAX_RECORDS
  }

  function Lapsed(s: State, was: Scope, lock: string, method_: string, items: seq<Item>): set<Reference> {
    if AllDerivable(s.key, lock, method_, was.epoch, items)
    then Unseen(was.records, Sightings(s.key, lock, method_, was.epoch, items))
    else {}
  }

  function SeenNow(s: State, was: Scope, lock: string, method_: string, items: seq<Item>): set<Reference>
    requires AllDerivable(s.key, lock, method_, was.epoch, items)
  {
    Observed(was.records, Pin(method_), Sightings(s.key, lock, method_, was.epoch, items), s.next)
  }

  // The scope exists from here on, its records are replaced, and their save
  // begins.
  function Merge(s: State, lock: string, method_: string, items: seq<Item>, ticket: nat, epoch: string): State {
    var scope := ScopeOf(lock, method_);
    var was := ScopeFor(s, scope, epoch);
    var stores := Stores(s, was, lock, method_, items);
    s.(next := s.next + |items|,
       used := s.used + {(scope, ticket)},
       confirmed := s.confirmed - Lapsed(s, was, lock, method_, items),
       scopes := s.scopes[scope := if stores then Scope(was.epoch, Outcome(s, was, lock, method_, items)) else was],
       saving := if stores then Some(Reconciling(scope, ticket, SeenNow(s, was, lock, method_, items))) else s.saving)
  }

  function Reconcile(s: State, lock: string, method_: string, items: seq<Item>, ticket: nat, epoch: string): State {
    if Current(s, ScopeOf(lock, method_), ticket) then Merge(s, lock, method_, items, ticket, epoch) else s
  }

  // ---- Labels -------------------------------------------------------------

  predicate Printable(text: string) {
    |text| <= MAX_NAME && forall i :: 0 <= i < |text| ==> text[i] as int >= 32
  }

  predicate Space(c: char) {
    var n := c as int;
    || n == 0x20 || n == 0x85 || n == 0xA0 || n == 0x1680 || 0x2000 <= n <= 0x200A
    || n == 0x2028 || n == 0x2029 || n == 0x202F || n == 0x205F || n == 0x3000
    || 0x09 <= n <= 0x0D || 0x1C <= n <= 0x1F
  }

  function Strip(text: string): (r: string)
    ensures r != "" ==> !Space(r[0]) && !Space(r[|r| - 1])
    ensures Printable(text) ==> Printable(r)
    decreases |text|
  {
    if text == "" then ""
    else if Space(text[0]) then Strip(text[1..])
    else if Space(text[|text| - 1]) then Strip(text[..|text| - 1])
    else text
  }

  // The code points that Python's `str.strip` removes.
  const WHITE_SPACE: set<int> :=
    {9, 10, 11, 12, 13, 28, 29, 30, 31, 32, 133, 160, 5760,
     8192, 8193, 8194, 8195, 8196, 8197, 8198, 8199, 8200, 8201, 8202, 8232, 8233, 8239, 8287, 12288}

  // All around this slice of the text is white space, and its ends are not.
  ghost predicate Core(text: string, i: nat, j: nat) {
    && i <= j <= |text|
    && (forall k :: 0 <= k < i || j <= k < |text| ==> text[k] as int in WHITE_SPACE)
    && (i < j ==> text[i] as int !in WHITE_SPACE && text[j - 1] as int !in WHITE_SPACE)
  }

  ghost predicate Stripped(text: string, r: string) {
    exists i: nat, j: nat :: Core(text, i, j) && r == text[i..j]
  }

  lemma SpaceIsWhite(c: char)
    ensures Space(c) <==> c as int in WHITE_SPACE
  {
  }

  lemma {:induction false} StripIsCore(text: string) returns (i: nat, j: nat)
    ensures Core(text, i, j) && Strip(text) == text[i..j]
    decreases |text|
  {
    hide Space;
    if text == "" {
      i, j := 0, 0;
    } else {
      SpaceIsWhite(text[0]);
      SpaceIsWhite(text[|text| - 1]);
      if Space(text[0]) {
        i, j := StripIsCore(text[1..]);
        i, j := i + 1, j + 1;
        assert forall k :: 0 < k < |text| ==> text[k] == text[1..][k - 1];
      } else if Space(text[|text| - 1]) {
        i, j := StripIsCore(text[..|text| - 1]);
        assert forall k :: 0 <= k < |text| - 1 ==> text[k] == text[..|text| - 1][k];
      } else {
        i, j := 0, |text|;
      }
    }
  }

  lemma StripStrips(text: string)
    ensures Stripped(text, Strip(text))
  {
    hide Core;
    var i, j := StripIsCore(text);
  }

  predicate IsFresh(s: State, scope: Name, now: real) {
    scope in s.freshAt && now - s.freshAt[scope] < FRESH_SECONDS
  }

  predicate Sees(s: State, scope: Name, reference: Reference) {
    scope in s.observed && reference in s.observed[scope]
  }

  // The first active record with this reference.
  function Find(records: seq<PrivateRecord>, reference: Reference): (h: Option<nat>)
    ensures h.Some? ==> h.value < |records| && records[h.value].active && records[h.value].reference == reference
    ensures h.Some? ==> forall j :: 0 <= j < h.value ==> !(records[j].active && records[j].reference == reference)
    ensures h.None? ==> reference !in ActiveReferences(records)
  {
    if records == [] then None
    else if records[0].active && records[0].reference == reference then Some(0)
    else
      var h := Find(records[1..], reference);
      assert forall i :: 0 < i < |records| ==> records[i] == records[1..][i - 1];
      if h.Some? then Some(h.value + 1) else None
  }

  predicate Nameable(s: State, scope: Name, reference: Reference, text: string, now: real) {
    && Printable(text)
    && IsFresh(s, scope, now)
    && scope in s.scopes
    && Sees(s, scope, reference)
    && Find(s.scopes[scope].records, reference).Some?
  }

  function Relabel(scope: Scope, i: nat, text: string): Scope
    requires i < |scope.records|
  {
    scope.(records := scope.records[i := scope.records[i].(alias := Strip(text))])
  }

  function Rename(s: State, scope: Name, reference: Reference, text: string, now: real): State {
    if !Nameable(s, scope, reference, text, now) then s
    else
      var i := Find(s.scopes[scope].records, reference).value;
      s.(scopes := s.scopes[scope := Relabel(s.scopes[scope], i, text)], saving := Some(Naming(reference)))
  }

  // A renaming is accepted for a name of at most 64 printable characters and an
  // active record that a read less than five minutes old observed.
  ghost predicate MayName(
    scopes: map<Name, Scope>, freshAt: map<Name, real>, observed: map<Name, set<Reference>>,
    scope: Name, reference: Reference, text: string, now: real)
  {
    && |text| <= 64 && (forall c <- text :: c as int >= 32)
    && scope in freshAt && now - freshAt[scope] < 300.0
    && scope in observed && reference in observed[scope]
    && scope in scopes
    && exists i :: 0 <= i < |scopes[scope].records|
         && scopes[scope].records[i].active && scopes[scope].records[i].reference == reference
  }

  lemma PrintableIff(text: string)
    ensures Printable(text) <==> |text| <= 64 && forall c <- text :: c as int >= 32
  {
    assert forall i :: 0 <= i < |text| ==> text[i] in text;
  }

  lemma NameableIff(s: State, scope: Name, reference: Reference, text: string, now: real)
    ensures Nameable(s, scope, reference, text, now)
            <==> MayName(s.scopes, s.freshAt, s.observed, scope, reference, text, now)
  {
    hide Printable;
    PrintableIff(text);
    if scope in s.scopes {
      var records := s.scopes[scope].records;
      if exists i :: 0 <= i < |records| && records[i].active && records[i].reference == reference {
        assert reference in ActiveReferences(records);
      }
    }
  }

  // Record i is the first active one with this reference; its label becomes the
  // stripped text, and nothing else of the scope changes.
  ghost predicate LabelSet(a: Scope, b: Scope, i: nat, reference: Reference, text: string) {
    && a.epoch == b.epoch && |a.records| == |b.records| && i < |a.records|
    && a.records[i].active && a.records[i].reference == reference
    && (forall j :: 0 <= j < i ==> !(a.records[j].active && a.records[j].reference == reference))
    && (forall j :: 0 <= j < |a.records| && j != i ==> b.records[j] == a.records[j])
    && b.records[i] == a.records[i].(alias := b.records[i].alias)
    && Stripped(text, b.records[i].alias)
  }

  // Only that happened to the scopes.
  ghost predicate Renamed(
    a: map<Name, Scope>, b: map<Name, Scope>, scope: Name, reference: Reference, text: string)
  {
    && scope in a && scope in b && b == a[scope := b[scope]]
    && exists i: nat :: LabelSet(a[scope], b[scope], i, reference, text)
  }

  lemma RenameRelabels(s: State, scope: Name, reference: Reference, text: string, now: real)
    requires Nameable(s, scope, reference, text, now)
    ensures Renamed(s.scopes, Rename(s, scope, reference, text, now).scopes, scope, reference, text)
  {
    hide Strip, Stripped, Printable;
    StripStrips(text);
    var t := Rename(s, scope, reference, text, now);
    var i := Find(s.scopes[scope].records, reference).value;
    assert LabelSet(s.scopes[scope], t.scopes[scope], i, reference, text);
  }

  // ---- The other steps ----------------------------------------------------

  function References(records: seq<PrivateRecord>): set<Reference> {
    set i | 0 <= i < |records| :: records[i].reference
  }

  function Forget(s: State, scope: Name): State {
    s.(scopes := s.scopes - {scope},
       confirmed := if scope in s.scopes then s.confirmed - References(s.scopes[scope].records) else s.confirmed,
       freshAt := s.freshAt - {scope},
       observed := s.observed - {scope},
       revision := s.revision[scope := RevisionOf(s, scope) + 1],
       saving := Some(Resetting))
  }

  // A reconciliation publishes only if its ticket is still current.
  predicate Publishes(s: State, end: WriteEnd) {
    && end.Done? && s.saving.Some? && s.saving.value.Reconciling?
    && Current(s, s.saving.value.scope, s.saving.value.ticket)
  }

  // The file is replaced whether or not the caller learns of it; everything
  // else happens only once the save has returned.
  function EndSave(s: State, end: WriteEnd, now: real): State
    requires s.saving.Some?
  {
    var saving := s.saving.value;
    s.(saving := None,
       file := if end.Failed? then s.file
               else Some(Saved(s.scopes, if saving.Setting? then saving.legacy else s.legacy)),
       observed := if Publishes(s, end) then s.observed[saving.scope := saving.observed] else s.observed,
       freshAt := if Publishes(s, end) then s.freshAt[saving.scope := now] else s.freshAt,
       confirmed := if end.Done? && saving.Naming? then s.confirmed + {saving.reference} else s.confirmed,
       legacy := if end.Done? && saving.Setting? then saving.legacy else s.legacy)
  }

  // The key file after a load, if there was no key in memory.
  function KeyStored(s: State, end: LoadEnd): Option<Bytes> {
    if s.keyFile.Some? || end.ContentFailed? || end.KeyFailed? then s.keyFile else Some(end.drawn)
  }

  function Load(s: State, end: LoadEnd): State {
    var reading := !s.loaded && !end.ContentFailed?;
    var ready := reading && (s.key.Some? || end.KeyReady?);
    s.(scopes := if reading && s.file.Some? then s.file.value.scopes else s.scopes,
       legacy := if reading && s.file.Some? then s.file.value.legacy else s.legacy,
       key := if ready && s.key.None? then KeyStored(s, end) else s.key,
       keyFile := if reading && s.key.None? then KeyStored(s, end) else s.keyFile,
       loaded := s.loaded || ready)
  }

  // The key is forgotten once the content is deleted.
  function Remove(s: State, content: WriteEnd, key: WriteEnd): State {
    s.(revision := map scope | scope in s.revision :: s.revision[scope] + 1,
       freshAt := map[], observed := map[], confirmed := {}, scopes := map[], legacy := {}, loaded := false,
       file := if content.Failed? then s.file else None,
       key := if content.Done? then None else s.key,
       keyFile := if content.Done? && !key.Failed? then None else s.keyFile)
  }

  function Restart(s: State): State {
    INITIAL.(file := s.file, keyFile := s.keyFile, next := s.next)
  }

  // Which step may come next.  A reconciliation needs a ticket that passed the
  // checks made before the lock.
  predicate Enabled(s: State, step: Step) {
    match step
    case Marked(_, method_) => method_ in ACCESS_METHODS
    case Admitted(lock, method_, ticket) => s.loaded && Current(s, ScopeOf(lock, method_), ticket)
    case Reconciled(lock, method_, items, ticket, epoch) =>
      && s.saving.None?
      && (ScopeOf(lock, method_), ticket) in s.admitted
      && WellFormed(method_, items)
      && epoch != "" && '/' !in epoch
    case Named(_, method_, _, _, _) => s.saving.None? && method_ in ACCESS_METHODS
    case Reset(_, method_) => s.saving.None? && method_ in ACCESS_METHODS
    case LegacySet(_, _) => s.saving.None?
    case SaveEnded(_, _) => s.saving.Some?
    case Loaded(_) => s.saving.None?
    case Removed(_, _) => s.saving.None?
    case Restarted => true
  }

  function Next(s: State, step: Step): State
    requires Enabled(s, step)
  {
    match step
    case Marked(lock, method_) => Mark(s, ScopeOf(lock, method_))
    case Admitted(lock, method_, ticket) => s.(admitted := s.admitted + {(ScopeOf(lock, method_), ticket)})
    case Reconciled(lock, method_, items, ticket, epoch) => Reconcile(s, lock, method_, items, ticket, epoch)
    case Named(lock, method_, reference, text, at) => Rename(s, ScopeOf(lock, method_), reference, text, at)
    case Reset(lock, method_) => Forget(s, ScopeOf(lock, method_))
    case LegacySet(lock, disabled) =>
      s.(saving := Some(Setting(if disabled then s.legacy + {lock} else s.legacy - {lock})))
    case SaveEnded(end, at) => EndSave(s, end, at)
    case Loaded(end) => Load(s, end)
    case Removed(content, key) => Remove(s, content, key)
    case Restarted => Restart(s)
  }

  ghost predicate Run(steps: seq<Step>, states: seq<State>) {
    && |states| == |steps| + 1
    && states[0] == INITIAL
    && forall k :: 0 <= k < |steps| ==>
         Enabled(states[k], steps[k]) && states[k + 1] == Next(states[k], steps[k])
  }

  // What a reconciliation and a renaming leave alone.
  lemma MergeFrame(s: State, lock: string, method_: string, items: seq<Item>, ticket: nat, epoch: string)
    ensures var t := Merge(s, lock, method_, items, ticket, epoch);
            && t.revision == s.revision && t.freshAt == s.freshAt && t.observed == s.observed
            && t.loaded == s.loaded && t.key == s.key && t.legacy == s.legacy && t.admitted == s.admitted
            && t.file == s.file && t.keyFile == s.keyFile && t.next == s.next + |items|
            && t.used == s.used + {(ScopeOf(lock, method_), ticket)}
            && ScopeOf(lock, method_) in t.scopes
            && t.scopes == s.scopes[ScopeOf(lock, method_) := t.scopes[ScopeOf(lock, method_)]]
            && (t.saving == s.saving || (t.saving.Some? && t.saving.value.Reconciling?))
  {
    hide Stores, Outcome, Lapsed, SeenNow, ScopeFor, ScopeOf;
  }

  lemma RenameFrame(s: State, scope: Name, reference: Reference, text: string, now: real)
    ensures var t := Rename(s, scope, reference, text, now);
            t == s.(scopes := t.scopes, saving := t.saving) && (t.saving == s.saving || t.saving
                == Some(Naming(reference)))
  {
    hide Find, Strip, Nameable;
  }

  lemma NameableFinds(s: State, scope: Name, reference: Reference, text: string, now: real)
    requires Nameable(s, scope, reference, text, now)
    ensures scope in s.scopes && Find(s.scopes[scope].records, reference).Some? && Printable(text)
  {
  }

  // What the end of a save leaves alone.
  lemma EndSaveFrame(s: State, end: WriteEnd, now: real)
    requires s.saving.Some?
    ensures var t := EndSave(s, end, now);
            && t.saving.None? && t.scopes == s.scopes && t.revision == s.revision && t.loaded == s.loaded
            && t.admitted == s.admitted && t.used == s.used && t.next == s.next
            && t.key == s.key && t.keyFile == s.keyFile
    ensures var t := EndSave(s, end, now);
            if end.Done? && s.saving.value.Reconciling? && Current(s, s.saving.value.scope, s.saving.value.ticket) then
              && t.observed == s.observed[s.saving.value.scope := s.saving.value.observed]
              && t.freshAt == s.freshAt[s.saving.value.scope := now]
            else t.observed == s.observed && t.freshAt == s.freshAt
    ensures var t := EndSave(s, end, now);
            if end.Failed? then t.file == s.file else t.file.Some? && t.file.value.scopes == s.scopes
  {
  }

  lemma RunStep(steps: seq<Step>, states: seq<State>, i: nat)
    requires Run(steps, states) && i < |steps|
    ensures |states| == |steps| + 1 && Enabled(states[i], steps[i]) && states[i + 1] == Next(states[i], steps[i])
  {
  }

  lemma Extend(steps: seq<Step>, states: seq<State>, step: Step)
    requires Run(steps, states) && Enabled(states[|steps|], step)
    ensures Run(steps + [step], states + [Next(states[|steps|], step)])
  {
    hide Next, Enabled;
    var h, ss := steps + [step], states + [Next(states[|steps|], step)];
    forall k | 0 <= k < |h|
      ensures Enabled(ss[k], h[k]) && ss[k + 1] == Next(ss[k], h[k])
    {
      if k < |steps| {
        assert h[k] == steps[k];
      }
    }
  }

  // The steps are a run that ends in `s`.
  ghost predicate Reached(steps: seq<Step>, s: State) {
    exists ss :: Run(steps, ss) && ss[|steps|] == s
  }

  lemma ReachedInitial()
    ensures Reached([], INITIAL)
  {
    assert Run([], [INITIAL]);
  }

  lemma ReachedExtend(steps: seq<Step>, s: State, step: Step)
    requires Reached(steps, s) && Enabled(s, step)
    ensures Reached(steps + [step], Next(s, step))
  {
    hide Next, Enabled;
    var ss :| Run(steps, ss) && ss[|steps|] == s;
    Extend(steps, ss, step);
    assert Run(steps + [step], ss + [Next(s, step)]);
  }

  lemma Then(steps: seq<Step>, s: State, step: Step) returns (steps': seq<Step>, s': State)
    requires Reached(steps, s) && Enabled(s, step)
    ensures steps' == steps + [step] && s' == Next(s, step) && Reached(steps', s')
  {
    hide Next, Enabled, Reached;
    ReachedExtend(steps, s, step);
    steps', s' := steps + [step], Next(s, step);
  }
}
